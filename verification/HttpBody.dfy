/** The response body of the HTTP proxy: counted as it streams, and with content logging
    read ahead, logged and put back together. */
module HttpBody {
  import opened Common

  // ----- 64-bit signed counters

  const HALF: int := 0x8000_0000_0000_0000
  const FULL: int := 0x1_0000_0000_0000_0000

  /** The value an int64 holds after arithmetic. */
  function Wrap(x: int): (r: int)
    ensures -0x8000_0000_0000_0000 <= r < 0x8000_0000_0000_0000
    ensures (r - x) % 0x1_0000_0000_0000_0000 == 0
  {
    (x + HALF) % FULL - HALF
  }

  lemma WrapAdds(x: int, y: int)
    ensures Wrap(Wrap(x) + y) == Wrap(x + y)
  {
    ModAdds(x + HALF, y);
  }

  lemma ModAdds(a: int, b: int)
    ensures (a % FULL + b) % FULL == (a + b) % FULL
  {
    var q := a / FULL;
    assert a == q * FULL + a % FULL;
  }

  // ----- bodies

  /** How a stream ends: io.EOF, or an error. */
  datatype End = EOF | Broken(code: nat)

  /** How one Read behaves: at most `cap` bytes; if that was the last of the data, the end
      is reported at once or only by a later call. */
  datatype Plan = Plan(cap: nat, eager: bool)

  /** An io.ReadCloser whose terminal result repeats. `plans` script the next reads, which
      may be short or empty; after them reads are as full as possible. */
  class Body {
    var data: Bytes
    const end: End
    var plans: seq<Plan>
    var closes: nat

    constructor (data: Bytes, end: End, plans: seq<Plan>)
      ensures this.data == data && this.end == end && this.plans == plans && closes == 0
    {
      this.data, this.end, this.plans, closes := data, end, plans, 0;
    }

    method Read(size: nat) returns (out: Bytes, err: Option<End>)
      modifies this`data, this`plans
      ensures |out| <= size && old(data) == out + data
      ensures err.Some? ==> data == [] && err.value == end
      ensures |plans| <= old(|plans|)
      ensures err == None && size > 0 ==> |plans| + |data| < old(|plans| + |data|)
    {
      var n := Min(size, |data|);
      if plans == [] {
        err := if data == [] then Some(end) else None;
      } else {
        n := Min(n, plans[0].cap);
        err := if n == |data| && plans[0].eager then Some(end) else None;
        plans := plans[1..];
      }
      out, data := data[..n], data[n..];
    }
  }

  const MAX_LOGGED: nat := 65536

  /** io.ReadAll of io.LimitReader(body, maxLoggedBytes), ignoring the error: exactly the
      first 65536 bytes, or all there is. */
  method ReadPrefix(body: Body) returns (prefix: Bytes)
    modifies body`data, body`plans
    ensures old(body.data) == prefix + body.data
    ensures |prefix| == Min(65536, |old(body.data)|)
    ensures |body.plans| <= |old(body.plans)|
  {
    prefix := [];
    var more := true;
    while more && |prefix| < MAX_LOGGED
      invariant old(body.data) == prefix + body.data && |prefix| <= MAX_LOGGED
      invariant !more ==> body.data == []
      invariant |body.plans| <= |old(body.plans)|
      decreases more, |body.plans| + |body.data|
    {
      var size: nat :| size > 0;
      var out, err := body.Read(Min(size, MAX_LOGGED - |prefix|));
      prefix := prefix + out;
      more := err == None;
    }
  }

  predicate AllPositive(sizes: seq<nat>) {
    forall i :: 0 <= i < |sizes| ==> sizes[i] > 0
  }

  // ----- the wrapper

  class Transport {
    var bytesTo: int
    var bytesFrom: int
    var httpErrors: nat
    const showContent: bool

    constructor (showContent: bool)
      ensures this.showContent == showContent && bytesTo == 0 && bytesFrom == 0 && httpErrors == 0
    {
      this.showContent, bytesTo, bytesFrom, httpErrors := showContent, 0, 0, 0;
    }
  }

  /** countingReadCloser over a body, or over io.MultiReader(prefix, body): then `readers`
      is 2 while the prefix may have bytes left and 0 after the body's EOF. `upload` tells
      a request body, counted in bytesTo, from a response body, counted in bytesFrom. */
  class CountingBody {
    const original: Body
    const transport: Transport
    const prefix: Bytes
    const upload: bool
    const multi: bool
    var pos: nat
    var readers: nat
    var bytesRead: int
    ghost var delivered: nat

    ghost predicate Valid()
      reads this, original
    {
      && pos <= |prefix| && readers <= 2
      && (readers == 0 ==> original.data == [] && original.end == EOF)
      && bytesRead == Wrap(delivered)
    }

    /** What is still to come. */
    ghost function Rest(): Bytes
      requires Valid()
      reads this, original
    {
      (if readers == 2 then prefix[pos..] else []) + original.data
    }

    constructor Plain(original: Body, transport: Transport, upload: bool)
      ensures Valid() && this.original == original && this.transport == transport && this.upload == upload
      ensures delivered == 0 && Rest() == original.data
    {
      this.original, this.transport, this.upload := original, transport, upload;
      prefix, multi, readers, pos, bytesRead, delivered := [], false, 1, 0, 0, 0;
    }

    constructor Reconstructed(original: Body, transport: Transport, prefix: Bytes)
      ensures Valid() && this.original == original && this.transport == transport && !this.upload
      ensures delivered == 0 && Rest() == prefix + original.data
    {
      this.original, this.transport, this.prefix := original, transport, prefix;
      upload, multi, readers, pos, bytesRead, delivered := false, true, 2, 0, 0, 0;
    }

    /** The body's own Read, or multiReader.Read over the readers that are left. */
    method ReadInner(size: nat) returns (out: Bytes, err: Option<End>)
      requires Valid()
      modifies this`pos, this`readers, original`data, original`plans
      ensures Valid()
      ensures |out| <= size && old(Rest()) == out + Rest()
      ensures err.Some? ==> Rest() == [] && err.value == original.end
      ensures err == None && size > 0 ==> |original.plans| + |Rest()| < old(|original.plans| + |Rest()|)
      ensures |original.plans| + |Rest()| <= old(|original.plans| + |Rest()|)
    {
      if readers == 2 {
        if pos < |prefix| {
          var n := Min(size, |prefix| - pos);
          out, err := prefix[pos..pos + n], None;
          pos := pos + n;
          return;
        }
        readers := 1;
      }
      if readers == 0 {
        return [], Some(EOF);
      }
      out, err := original.Read(size);
      if multi && err == Some(EOF) {
        readers := 0;
      }
    }

    method Read(size: nat) returns (out: Bytes, err: Option<End>)
      requires Valid()
      modifies this`pos, this`readers, this`bytesRead, this`delivered, original`data, original`plans
      ensures Valid() && delivered == old(delivered) + |out|
      ensures |out| <= size && old(Rest()) == out + Rest()
      ensures err.Some? ==> Rest() == [] && err.value == original.end
      ensures err == None && size > 0 ==> |original.plans| + |Rest()| < old(|original.plans| + |Rest()|)
      ensures |original.plans| + |Rest()| <= old(|original.plans| + |Rest()|)
    {
      out, err := ReadInner(size);
      WrapAdds(delivered, |out|);
      bytesRead := Wrap(bytesRead + |out|);
      delivered := delivered + |out|;
    }

    /** Close: closes the original once more and adds the bytes read so far, each time. */
    method Close()
      requires Valid()
      modifies original`closes, transport`bytesTo, transport`bytesFrom
      ensures Valid() && Rest() == old(Rest())
      ensures original.closes == old(original.closes) + 1
      ensures if upload
              then transport.bytesTo == Wrap(old(transport.bytesTo) + delivered)
                   && transport.bytesFrom == old(transport.bytesFrom)
              else transport.bytesFrom == Wrap(old(transport.bytesFrom) + delivered)
                   && transport.bytesTo == old(transport.bytesTo)
    {
      original.closes := original.closes + 1;
      if upload {
        WrapAdds(delivered, transport.bytesTo);
        transport.bytesTo := Wrap(transport.bytesTo + bytesRead);
      } else {
        WrapAdds(delivered, transport.bytesFrom);
        transport.bytesFrom := Wrap(transport.bytesFrom + bytesRead);
      }
    }

    /** A client that reads with these buffer sizes until the stream ends. It receives a
        prefix of the stream, all of it and its terminal result if it sees one, and it
        does see one if it reads on often enough. */
    method ReadSizes(sizes: seq<nat>) returns (got: Bytes, err: Option<End>)
      requires Valid()
      modifies this`pos, this`readers, this`bytesRead, this`delivered, original`data, original`plans
      ensures Valid() && delivered == old(delivered) + |got|
      ensures old(Rest()) == got + Rest()
      ensures err.Some? ==> got == old(Rest()) && err.value == original.end
      ensures AllPositive(sizes) && |sizes| > old(|original.plans| + |Rest()|) ==> err.Some?
    {
      got, err := [], None;
      ghost var all, budget := Rest(), |original.plans| + |Rest()|;
      var i := 0;
      while i < |sizes| && err == None
        invariant i <= |sizes| && Valid() && delivered == old(delivered) + |got|
        invariant all == got + Rest()
        invariant err.Some? ==> Rest() == [] && err.value == original.end
        invariant err == None && AllPositive(sizes) ==> i + |original.plans| + |Rest()| <= budget
      {
        var out;
        out, err := Read(sizes[i]);
        assert all == got + (out + Rest()) == (got + out) + Rest();
        got := got + out;
        i := i + 1;
      }
    }
  }

  /** Transport.RoundTrip: the request body is wrapped before the call. An error (no
      `outcome`) is counted and yields no response; otherwise the response body is wrapped,
      with content logging after reading ahead at most 65536 bytes. Either way the wrapper
      stands for the whole body. */
  method RoundTrip(t: Transport, reqBody: Body?, outcome: Body?)
      returns (req: CountingBody?, resp: CountingBody?, logged: Bytes)
    requires reqBody != null ==> reqBody != outcome
    modifies t`httpErrors, if outcome == null then {} else {outcome}
    ensures reqBody == null <==> req == null
    ensures reqBody != null ==>
              fresh(req) && req.Valid() && req.original == reqBody && req.transport == t && req.upload
              && req.delivered == 0 && req.Rest() == old(reqBody.data)
    ensures resp == null <==> outcome == null
    ensures t.httpErrors == old(t.httpErrors) + (if outcome == null then 1 else 0)
    ensures outcome != null ==>
              && fresh(resp) && resp.Valid() && resp.original == outcome && resp.transport == t && !resp.upload
              && resp.delivered == 0 && resp.Rest() == old(outcome.data) && outcome.closes == old(outcome.closes)
              && old(outcome.data) == logged + outcome.data && |outcome.plans| <= old(|outcome.plans|)
              && |logged| == (if t.showContent then Min(65536, |old(outcome.data)|) else 0)
  {
    req, resp, logged := null, null, [];
    if reqBody != null {
      req := new CountingBody.Plain(reqBody, t, true);
    }
    if outcome == null {
      t.httpErrors := t.httpErrors + 1;
      return;
    }
    if t.showContent {
      logged := ReadPrefix(outcome);
      resp := new CountingBody.Reconstructed(outcome, t, logged);
    } else {
      resp := new CountingBody.Plain(outcome, t, false);
    }
  }

  /** One response: its client reads with these buffer sizes, then closes the body. Whether
      or not content is logged, it receives a prefix of the stream, all of it and its
      terminal result if it reads on often enough, and what it received is counted. */
  method Receive(t: Transport, b: Body, sizes: seq<nat>) returns (got: Bytes, err: Option<End>)
    modifies t, b
    ensures got <= old(b.data)
    ensures err.Some? ==> got == old(b.data) && err.value == b.end
    ensures AllPositive(sizes) && |sizes| > old(|b.plans| + |b.data|) ==> err.Some?
    ensures t.bytesFrom == Wrap(old(t.bytesFrom) + |got|)
    ensures t.bytesTo == old(t.bytesTo) && t.httpErrors == old(t.httpErrors) && b.closes == old(b.closes) + 1
  {
    var _, r, _ := RoundTrip(t, null, b);
    got, err := r.ReadSizes(sizes);
    r.Close();
  }

  /** Logging transparency: for the same stream, however the two bodies chop it and
      whatever buffer sizes the two clients use, a client behind the logging wrapper and
      one behind the plain wrapper receive the same bytes as far as both have read. Each
      sees the end if it reads on, after no more reads than the body has bytes and short or
      empty reads in store, and both then have the whole stream and its terminal result. One
      Close counts exactly the bytes delivered, behind either wrapper. */
  method CompareLogging(plain: Transport, logging: Transport, b1: Body, b2: Body, sizes1: seq<nat>, sizes2: seq<nat>)
    returns (got1: Bytes, err1: Option<End>, got2: Bytes, err2: Option<End>)
    requires !plain.showContent && logging.showContent && b1 != b2
    requires b1.data == b2.data && b1.end == b2.end
    modifies plain, logging, b1, b2
    ensures got1 <= got2 || got2 <= got1
    ensures err1.Some? ==> got1 == old(b1.data) && err1 == Some(b1.end)
    ensures err2.Some? ==> got2 == old(b1.data) && err2 == Some(b1.end)
    ensures AllPositive(sizes1) && |sizes1| > old(|b1.plans| + |b1.data|) ==> err1.Some?
    ensures AllPositive(sizes2) && |sizes2| > old(|b2.plans| + |b2.data|) ==> err2.Some?
    ensures plain.bytesFrom == Wrap(old(plain.bytesFrom) + |got1|)
    ensures logging.bytesFrom == Wrap(old(logging.bytesFrom) + |got2|)
  {
    ghost var all := b1.data;
    got1, err1 := Receive(plain, b1, sizes1);
    got2, err2 := Receive(logging, b2, sizes2);
    assert all[..|got1|] == got1 && all[..|got2|] == got2;
  }

  /** Closing k times counts the body k times. */
  method CloseTimes(c: CountingBody, k: nat)
    requires c.Valid() && !c.upload
    modifies c.original`closes, c.transport`bytesTo, c.transport`bytesFrom
    ensures k == 0 ==> c.transport.bytesFrom == old(c.transport.bytesFrom)
    ensures k > 0 ==> c.transport.bytesFrom == Wrap(old(c.transport.bytesFrom) + k * c.delivered)
    ensures c.original.closes == old(c.original.closes) + k
  {
    ghost var start := c.transport.bytesFrom;
    for i := 0 to k
      invariant c.Valid() && c.original.closes == old(c.original.closes) + i
      invariant c.transport.bytesFrom == if i == 0 then start else Wrap(start + i * c.delivered)
    {
      if i > 0 { WrapAdds(start + i * c.delivered, c.delivered); }
      c.Close();
      assert (i + 1) * c.delivered == i * c.delivered + c.delivered;
    }
  }

  /** So the counter gains exactly the bytes delivered if and only if the body is closed
      once, or delivered nothing (totals below 2^64). */
  lemma CountExactIff(start: int, k: nat, delivered: nat)
    requires k * delivered < FULL && delivered < FULL
    ensures Wrap(start + k * delivered) == Wrap(start + delivered) <==> k == 1 || delivered == 0
  {
    var x, y := start + k * delivered + HALF, start + delivered + HALF;
    if x % FULL == y % FULL {
      var d := x / FULL - y / FULL;
      assert x - y == d * FULL;
      assert d == 0;
      assert k * delivered == 1 * delivered;
      if k >= 2 { assert k * delivered >= 2 * delivered; }
    }
  }
}
