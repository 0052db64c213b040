/** The two ends of an asynchronous byte stream. Each decides freely how much a poll moves. */
module Transport {
  import opened LittleEndian
  import Framing

  /** `eof` is the kind of error that also stands for an early end of the stream. */
  datatype IoPoll = Pending | Ready(n: nat) | Failed(eof: bool)

  class ByteSink {
    /** Every byte accepted so far. */
    var written: seq<byte>
    /** How often it was polled, and what it answered last. */
    ghost var polls: nat
    ghost var last: IoPoll

    constructor ()
      ensures written == []
    {
      written := [];
      polls, last := 0, Pending;
    }

    /** `poll_write`: any front part of `buf`, possibly nothing, or Pending, or an error. */
    method PollWrite(buf: seq<byte>) returns (r: IoPoll)
      modifies this
      ensures polls == old(polls) + 1 && last == r
      ensures match r
              case Ready(n) => n <= |buf| && written == old(written) + buf[..n]
              case _ => written == old(written)
    {
      if * {
        r := Pending;
      } else if * {
        var eof := *;
        r := Failed(eof);
      } else {
        var n: nat :| n <= |buf|;
        written := written + buf[..n];
        r := Ready(n);
      }
      polls, last := polls + 1, r;
    }
  }

  class ByteSource {
    /** The bytes still to be delivered. */
    var pending: seq<byte>
    /** Whether the stream ends after `pending`; otherwise a poll with nothing to deliver waits. */
    const ends: bool
    /** Whether a read has met the end. */
    var ended: bool
    /** How often it was polled, and what it answered last. */
    ghost var polls: nat
    ghost var last: IoPoll

    predicate Valid()
      reads this
    {
      ended ==> ends && pending == []
    }

    constructor (bytes: seq<byte>, ends: bool)
      ensures Valid() && !ended
      ensures pending == bytes && this.ends == ends
    {
      pending := bytes;
      this.ends := ends;
      ended := false;
      polls, last := 0, Pending;
    }

    /** `poll_read` into `buf[lo..hi]`: the end of the stream shows as an empty read, and then every read is empty. */
    method PollRead(buf: array<byte>, lo: nat, hi: nat) returns (r: IoPoll)
      requires lo < hi <= buf.Length && Valid()
      modifies this, buf
      ensures Valid() && (old(ended) ==> ended)
      ensures ended <==> r == Ready(0)
      ensures polls == old(polls) + 1 && last == r
      ensures match r
              case Ready(n) =>
                && n <= hi - lo && n <= |old(pending)|
                && pending == old(pending)[n..]
                && buf[..] == old(buf[..lo]) + old(pending)[..n] + old(buf[..])[lo + n..]
              case _ => pending == old(pending) && buf[..] == old(buf[..])
    {
      if ended {
        r := Ready(0);
      } else if * {
        r := Pending;
      } else if * {
        var eof := *;
        r := Failed(eof);
      } else if pending == [] {
        ended := ends;
        r := if ends then Ready(0) else Pending;
      } else {
        var n: nat :| 0 < n <= hi - lo && n <= |pending|;
        forall i | 0 <= i < n {
          buf[lo + i] := pending[i];
        }
        pending := pending[n..];
        r := Ready(n);
      }
      polls, last := polls + 1, r;
    }

    /**
     * `PollRead` seen from a decoder whose poll began with the bytes `held0` while `src0` was
     * still to be delivered, and which fills `buf` from its front.
     */
    method PollFill(buf: array<byte>, lo: nat, hi: nat, ghost held0: seq<byte>, ghost src0: seq<byte>)
      returns (r: IoPoll)
      requires lo < hi <= buf.Length && Valid()
      requires Framing.ReadTo(held0, src0, buf[..lo], pending)
      modifies this, buf
      ensures Valid() && (old(ended) ==> ended)
      ensures ended <==> r == Ready(0)
      ensures polls == old(polls) + 1 && last == r
      ensures r.Ready? ==> r.n <= hi - lo
      ensures Framing.ReadTo(held0, src0, buf[..if r.Ready? then lo + r.n else lo], pending)
      ensures lo >= 8 ==> buf[..8] == old(buf[..8])
    {
      ghost var src, was := pending, buf[..];
      r := PollRead(buf, lo, hi);
      ghost var n := if r.Ready? then r.n else 0;
      assert buf[..] == was[..lo] + src[..n] + was[lo + n..];
      assert buf[..lo + n] == buf[..][..lo + n] == was[..lo] + src[..n];
      assert lo >= 8 ==> buf[..8] == buf[..][..8] == was[..8];
      Framing.ReadOn(held0, src0, src, n);
    }
  }
}
