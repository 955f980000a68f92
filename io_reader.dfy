/** The entropy source handed to the curve: an `io.Reader` whose answers are
    scripted in advance, so that every read can be observed. */
module Io {
  import opened Crypto

  /** One answer of the source to a call of Read. */
  datatype ReadReply = Deliver(data: seq<byte>) | Fail(err: Error)

  /** What an exhausted source answers. */
  const EOF := External("EOF")

  function Min(a: nat, b: nat): nat { if a < b then a else b }

  class Reader {
    /** The answers the coming calls of Read give, in order. */
    var replies: seq<ReadReply>
    /** How many times Read has been called. */
    var readCount: nat

    constructor (replies: seq<ReadReply>)
      ensures this.replies == replies && readCount == 0
    {
      this.replies := replies;
      readCount := 0;
    }

    function NextReply(): ReadReply
      reads this
    {
      if replies == [] then Fail(EOF) else replies[0]
    }

    function Remaining(): seq<ReadReply>
      reads this
    {
      if replies == [] then [] else replies[1..]
    }

    /** Reads up to `p.Length` bytes into `p`: on success the first `n`
        bytes of `p` are the delivered bytes and the rest of `p` is left as
        it was; on failure `p` is untouched. */
    method Read(p: array<byte>) returns (n: nat, err: Option<Error>)
      modifies this, p
      ensures readCount == old(readCount) + 1 && replies == old(Remaining())
      ensures old(NextReply()).Fail? ==>
        n == 0 && err == Some(old(NextReply()).err) && p[..] == old(p[..])
      ensures old(NextReply()).Deliver? ==>
        var d := old(NextReply()).data;
        && n == Min(|d|, p.Length) && err == None
        && p[..n] == d[..n] && p[n..] == old(p[n..])
    {
      var reply := NextReply();
      replies := Remaining();
      readCount := readCount + 1;
      match reply
      case Fail(e) =>
        n, err := 0, Some(e);
      case Deliver(d) =>
        n := Min(|d|, p.Length);
        var i := 0;
        while i < n
          invariant 0 <= i <= n
          invariant p[..i] == d[..i]
          invariant forall k :: i <= k < p.Length ==> p[k] == old(p[k])
          modifies p
        {
          p[i] := d[i];
          i := i + 1;
        }
        err := None;
    }
  }
}
