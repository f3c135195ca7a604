/** Vocabulary shared by every component: bytes, optional values and the network
    errors that the proxy tells apart. */
module Common {

  type byte = x: int | 0 <= x < 256

  type Bytes = seq<byte>

  datatype Option<+T> = None | Some(value: T)

  function Min(a: nat, b: nat): nat {
    if a <= b then a else b
  }

  /** A failure of a connection operation. `Closed` is net.ErrClosed, the result of
      using a connection that this process has closed; `Other` is any error that is
      none of the first three. */
  datatype NetError = EndOfFile | Closed | Timeout | Other(code: nat)

  /** The errors that `TCPProxy.err` neither logs nor counts. */
  predicate Benign(e: NetError) {
    e == EndOfFile || e == Closed
  }
}
