/** The process-wide traffic counter: two 64-bit words updated by atomic adds. */
module Counters {

  const WORD: nat := 0x1_0000_0000_0000_0000

  type uint64 = x: int | 0 <= x < WORD

  /** atomic.AddUint64. */
  function Add64(x: nat, y: nat): uint64 {
    (x + y) % WORD
  }

  /** Adding in pieces is adding the sum: wrap-around loses nothing but multiples of 2^64. */
  lemma AddsCombine(x: nat, y: nat, z: nat)
    ensures Add64(Add64(x, y), z) == Add64(x, y + z)
    ensures Add64(x % WORD, y) == Add64(x, y)
  {
  }

  class Counter {
    var to: uint64
    var from: uint64

    constructor ()
      ensures to == 0 && from == 0
    {
      to, from := 0, 0;
    }

    method To(b: nat)
      modifies this
      ensures to == Add64(old(to), b) == (old(to) + b) % 0x1_0000_0000_0000_0000 && from == old(from)
    {
      to := Add64(to, b);
    }

    method From(b: nat)
      modifies this
      ensures from == Add64(old(from), b) == (old(from) + b) % 0x1_0000_0000_0000_0000 && to == old(to)
    {
      from := Add64(from, b);
    }
  }
}
