/** Byte-level text: decimal numbers and separator-joined fields, with the parsers that
    undo them. */
module Text {
  import opened Common

  const SPACE: byte := 32
  const DOT: byte := 46
  const CR: byte := 13
  const LF: byte := 10

  /** The bytes of an ASCII string. */
  function Ascii(s: string): Bytes {
    seq(|s|, i requires 0 <= i < |s| => (s[i] as int) % 256)
  }

  // ----- decimal numbers

  predicate Digit(b: byte) { 48 <= b <= 57 }

  predicate Digits(s: Bytes) {
    s != [] && forall i :: 0 <= i < |s| ==> Digit(s[i])
  }

  function Decimal(n: nat): (s: Bytes)
    ensures Digits(s)
  {
    if n < 10 then [48 + n] else Decimal(n / 10) + [48 + n % 10]
  }

  /** The %d verb. */
  function PrintInt(n: int): Bytes {
    if n < 0 then [45] + Decimal(-n) else Decimal(n)
  }

  function Value(s: Bytes): nat
    requires Digits(s)
  {
    var last := s[|s| - 1] - 48;
    if |s| == 1 then last else 10 * Value(s[..|s| - 1]) + last
  }

  /** A decimal field not above `max`. */
  function ParseDecimal(s: Bytes, max: nat): Option<nat> {
    if Digits(s) && Value(s) <= max then Some(Value(s)) else None
  }

  lemma {:induction false} DecimalValue(n: nat)
    ensures Value(Decimal(n)) == n
  {
    if n >= 10 {
      DecimalValue(n / 10);
      var s := Decimal(n);
      assert s[..|s| - 1] == Decimal(n / 10);
    }
  }

  /** A printed integer reads back as itself if it is in range, and not at all otherwise. */
  lemma PrintedIntParses(n: int, max: nat)
    ensures ParseDecimal(PrintInt(n), max) == if 0 <= n <= max then Some(n) else None
  {
    if n < 0 {
      assert PrintInt(n)[0] == 45;
    } else {
      DecimalValue(n);
    }
  }

  lemma {:induction false} DecimalLength(n: nat, k: nat, bound: nat)
    requires k >= 1 && bound == Power10(k) && n < bound
    ensures |Decimal(n)| <= k
    decreases k
  {
    if n >= 10 {
      DecimalLength(n / 10, k - 1, bound / 10);
    }
  }

  function Power10(k: nat): nat {
    if k == 0 then 1 else 10 * Power10(k - 1)
  }

  lemma ByteLength(n: nat)
    requires n < 256
    ensures |Decimal(n)| <= 3
  {
    assert Power10(3) == 10 * Power10(2) == 100 * Power10(1) == 1000;
    DecimalLength(n, 3, 1000);
  }

  lemma PortLength(n: nat)
    requires n < 0x10000
    ensures |Decimal(n)| <= 5
  {
    assert Power10(5) == 10 * Power10(4) == 100 * Power10(3) == 1000 * Power10(2) == 10000 * Power10(1) == 100000;
    DecimalLength(n, 5, 100000);
  }

  // ----- fields between separators

  function Join(fields: seq<Bytes>, sep: byte): Bytes
    requires fields != []
  {
    if |fields| == 1 then fields[0] else fields[0] + [sep] + Join(fields[1..], sep)
  }

  function Split(s: Bytes, sep: byte): (r: seq<Bytes>)
    ensures r != []
  {
    if s == [] then [[]]
    else var rest := Split(s[1..], sep);
         if s[0] == sep then [[]] + rest else [[s[0]] + rest[0]] + rest[1..]
  }

  lemma {:induction false} SplitNoSeparator(s: Bytes, sep: byte)
    requires sep !in s
    ensures Split(s, sep) == [s]
  {
    if s != [] {
      SplitNoSeparator(s[1..], sep);
      assert [s[0]] + s[1..] == s;
    }
  }

  lemma {:induction false} SplitFirst(field: Bytes, rest: Bytes, sep: byte)
    requires sep !in field
    ensures Split(field + [sep] + rest, sep) == [field] + Split(rest, sep)
  {
    var s := field + [sep] + rest;
    if field == [] {
      assert s[1..] == rest;
    } else {
      SplitFirst(field[1..], rest, sep);
      assert s[1..] == field[1..] + [sep] + rest;
      assert [field[0]] + field[1..] == field;
    }
  }

  /** Splitting undoes joining when no field contains the separator. */
  lemma {:induction false} SplitJoin(fields: seq<Bytes>, sep: byte)
    requires fields != [] && forall f :: f in fields ==> sep !in f
    ensures Split(Join(fields, sep), sep) == fields
  {
    if |fields| == 1 {
      SplitNoSeparator(fields[0], sep);
    } else {
      SplitFirst(fields[0], Join(fields[1..], sep), sep);
      SplitJoin(fields[1..], sep);
    }
  }

  lemma {:induction false} JoinBytes(fields: seq<Bytes>, sep: byte, b: byte)
    requires fields != [] && b != sep && forall f :: f in fields ==> b !in f
    ensures b !in Join(fields, sep)
  {
    if |fields| > 1 {
      JoinBytes(fields[1..], sep, b);
    }
  }

  function TotalLength(fields: seq<Bytes>): nat {
    if fields == [] then 0 else |fields[0]| + TotalLength(fields[1..])
  }

  lemma {:induction false} JoinLength(fields: seq<Bytes>, sep: byte)
    requires fields != []
    ensures |Join(fields, sep)| == TotalLength(fields) + |fields| - 1
  {
    if |fields| > 1 {
      JoinLength(fields[1..], sep);
    } else {
      assert fields[1..] == [];
    }
  }

  // ----- lines

  /** The index of the first CR LF, if any. */
  function FindLine(s: Bytes): Option<nat> {
    if |s| < 2 then None
    else if s[0] == CR && s[1] == LF then Some(0)
    else match FindLine(s[1..])
         case Some(k) => Some(k + 1)
         case None => None
  }

  lemma {:induction false} FindLineEnd(line: Bytes, payload: Bytes)
    requires CR !in line
    ensures FindLine(line + [CR, LF] + payload) == Some(|line|)
  {
    var s := line + [CR, LF] + payload;
    if line != [] {
      FindLineEnd(line[1..], payload);
      assert s[1..] == line[1..] + [CR, LF] + payload;
    }
  }
}
