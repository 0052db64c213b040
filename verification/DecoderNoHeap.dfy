/** `thes_wf::DecoderNoHeap`: a resumable parser over one partly filled buffer. */
module ThesWfDecoderNoHeap {
  import opened Wrappers
  import opened LittleEndian
  import opened Transport
  import Framing
  import WF = WireFormat

  /** `io::Cursor<Vec<u8>>`: the vector is replaced, never resized, so it is an array here. */
  class Cursor {
    const buf: array<byte>
    var position: nat

    constructor (len: nat)
      ensures position == 0 && fresh(buf) && buf.Length == len
    {
      buf := new byte[len](_ => 0);
      position := 0;
    }

    /**
     * `poll_read` into the buffer from the position up to `hi`, and the position moved along, in
     * a poll that began with the bytes `held0` while `src0` was still to be delivered.
     */
    method Fill(transport: ByteSource, hi: nat, ghost held0: seq<byte>, ghost src0: seq<byte>) returns (io: IoPoll)
      requires position < hi <= buf.Length && transport.Valid()
      requires Framing.ReadTo(held0, src0, buf[..position], transport.pending)
      modifies this, buf, transport
      ensures transport.Valid() && (old(transport.ended) ==> transport.ended)
      ensures transport.ended <==> io == Ready(0)
      ensures transport.polls > old(transport.polls) && transport.last == io
      ensures old(position) <= position <= hi
      ensures io.Ready? && io.n > 0 <==> old(position) < position
      ensures Framing.ReadTo(held0, src0, buf[..position], transport.pending)
      ensures old(position) >= 8 ==> buf[..8] == old(buf[..8])
    {
      io := transport.PollFill(buf, position, hi, held0, src0);
      if io.Ready? {
        position := position + io.n;
      }
    }

    /** Filling the length field, or filling the rest of a legal frame. */
    ghost predicate Filling(max: nat)
      reads this, buf
    {
      position <= buf.Length &&
      if buf.Length == 8 then true
      else 8 <= position < buf.Length <= max && buf.Length == ToU64(buf[..8]) && buf.Length >= WF.LEN_HEADER
    }

    ghost function Filled(): seq<byte>
      requires position <= buf.Length
      reads this, buf
    {
      buf[..position]
    }
  }

  /** What a suspended cursor holds is the beginning of a frame. */
  lemma FillingIsIncomplete(c: Cursor, max: nat)
    requires c.Filling(max) && (c.buf.Length == 8 ==> c.position < 8)
    ensures Framing.NextFrame(c.Filled(), max) == Framing.Incomplete
  {
    if c.buf.Length > 8 {
      assert c.Filled()[..8] == c.buf[..8];
    }
  }

  /** A cursor filled to its end holds a legal frame. */
  lemma FilledIsLegal(c: Cursor, max: nat)
    requires 8 < c.position == c.buf.Length == ToU64(c.buf[..8]) <= max && c.buf.Length >= WF.LEN_HEADER
    ensures c.buf[..] == c.Filled() && Framing.Legal(c.buf[..], max)
  {
    assert c.buf[..][..8] == c.buf[..8];
    Framing.LegalIsCoherent(c.buf[..], max);
  }

  /** A poll that has read `src0` down to `src` and so filled the cursor further. */
  ghost predicate Reading(c: Cursor, max: nat, held0: seq<byte>, src0: seq<byte>, src: seq<byte>)
    reads c, c.buf
  {
    c.Filling(max) && Framing.ReadTo(held0, src0, c.Filled(), src)
  }

  class DecoderNoHeap {
    const byteStream: ByteSource
    const maxSize: nat
    var inProgress: Cursor?
    var closed: bool

    ghost predicate Valid()
      reads this, byteStream, inProgress, if inProgress != null then {inProgress.buf} else {}
    {
      byteStream.Valid() &&
      (inProgress != null ==>
        && inProgress.Filling(maxSize)
        && (inProgress.buf.Length == 8 ==> inProgress.position < 8))
    }

    /** The bytes of an unfinished frame. */
    ghost function Held(): seq<byte>
      requires Valid()
      reads this, byteStream, inProgress, if inProgress != null then {inProgress.buf} else {}
    {
      if inProgress == null then [] else inProgress.Filled()
    }

    ghost function Repr(): set<object>
      reads this, inProgress
    {
      {this, byteStream} + if inProgress == null then {} else {inProgress, inProgress.buf}
    }

    constructor (byteStream: ByteSource, maxSize: nat)
      requires byteStream.Valid()
      ensures Valid() && Held() == [] && !closed
      ensures this.byteStream == byteStream && this.maxSize == maxSize
    {
      this.byteStream := byteStream;
      this.maxSize := maxSize;
      inProgress := null;
      closed := false;
    }

    /**
     * The poll answers `r` after it began with `held0` and `src0`. A failing read closes the decoder while
     * the length field is not complete, and panics after that.
     */
    ghost predicate Answers(r: Framing.Poll, held0: seq<byte>, src0: seq<byte>)
      reads this, byteStream, inProgress, if inProgress != null then {inProgress.buf} else {}
    {
      && Valid()
      && r !in {Framing.End, Framing.TransportGone}
      && (r == Framing.Spins <==> byteStream.ended)
      && (r == Framing.Pending <==> byteStream.last.Pending?)
      && (var had := |held0| + |src0| - |byteStream.pending|;
          && (r == Framing.IoError <==> byteStream.last.Failed? && had < 8)
          && (r == Framing.BodyPanic <==> byteStream.last.Failed? && had >= 8))
      && (closed <==> r == Framing.IoError)
      && (r !in {Framing.IoError, Framing.BodyPanic} ==>
            Framing.DecodeStep(maxSize, held0, src0, r, Held(), byteStream.pending))
    }

    /**
     * Reading zero bytes changes nothing and is tried again; as every read is empty then, `Spins` stands
     * for the source not returning any more.
     */
    method PollNext() returns (r: Framing.Poll)
      requires Valid()
      modifies Repr()
      ensures Valid()
      ensures old(closed) ==> r == Framing.End && closed && byteStream.pending == old(byteStream.pending)
      ensures !old(closed) ==> Answers(r, old(Held()), old(byteStream.pending))
    {
      if closed {
        return Framing.End;
      }
      var cur: Cursor;
      if inProgress == null {
        cur := new Cursor(8);
      } else {
        cur := inProgress;
      }
      ghost var held0, src0 := Held(), byteStream.pending;
      assert cur.Filled() == held0 + [];
      inProgress := null;
      while true
        invariant inProgress == null && !closed
        invariant cur == old(inProgress) || fresh(cur)
        invariant (old(inProgress) != null && cur.buf == old(inProgress.buf)) || fresh(cur.buf)
        invariant Reading(cur, maxSize, held0, src0, byteStream.pending) && byteStream.Valid()
        invariant cur.position == 8 && cur.buf.Length == 8 ==> !byteStream.ended && byteStream.last.Ready?
        decreases cur.buf.Length == 8, cur.buf.Length - cur.position
      {
        if cur.position < 8 {
          var stop := ReadLength(cur, held0, src0);
          if stop.Some? {
            return stop.value;
          }
        } else if cur.position == 8 && cur.buf.Length == 8 {
          var stop;
          stop, cur := StartBody(cur, held0, src0);
          if stop.Some? {
            return stop.value;
          }
        } else {
          var stop := ReadBody(cur, held0, src0);
          if stop.Some? {
            return stop.value;
          }
        }
      }
    }

    /** First arm of the loop: less than the length field was read so far. */
    method ReadLength(cur: Cursor, ghost held0: seq<byte>, ghost src0: seq<byte>) returns (stop: Option<Framing.Poll>)
      requires inProgress == null && !closed && byteStream.Valid()
      requires Reading(cur, maxSize, held0, src0, byteStream.pending) && cur.position < 8
      modifies this, byteStream, cur, cur.buf
      ensures stop.None? ==>
                && inProgress == null && !closed && byteStream.Valid() && !byteStream.ended && byteStream.last.Ready?
                && Reading(cur, maxSize, held0, src0, byteStream.pending)
                && old(cur.position) < cur.position
      ensures stop.Some? ==> Answers(stop.value, held0, src0) && inProgress in {null, cur}
    {
      var io := cur.Fill(byteStream, 8, held0, src0);
      match io {
        case Pending =>
          inProgress := cur;
          FillingIsIncomplete(cur, maxSize);
          stop := Some(Framing.Pending);
        case Ready(read) =>
          if read == 0 {
            FillingIsIncomplete(cur, maxSize);
            return Some(Framing.Spins);
          }
          stop := None;
        case Failed(_) =>
          closed := true;
          stop := Some(Framing.IoError);
      }
    }

    /** Second arm: the length is known, the buffer is exchanged for one of the whole frame. */
    method StartBody(cur: Cursor, ghost held0: seq<byte>, ghost src0: seq<byte>)
      returns (stop: Option<Framing.Poll>, tmp: Cursor)
      requires inProgress == null && !closed && byteStream.Valid() && !byteStream.ended && byteStream.last.Ready?
      requires Reading(cur, maxSize, held0, src0, byteStream.pending)
      requires cur.position == 8 && cur.buf.Length == 8
      ensures stop.None? ==>
                && fresh(tmp) && fresh(tmp.buf)
                && Reading(tmp, maxSize, held0, src0, byteStream.pending) && tmp.buf.Length > 8
      ensures stop.Some? ==> Answers(stop.value, held0, src0)
    {
      tmp := cur;
      assert cur.Filled()[..8] == cur.buf[..8];
      ghost var header := cur.buf[..8];
      var len := ToU64(cur.buf[..8]);
      if len > maxSize {
        return Some(Framing.MessageSizeExceeded(len)), tmp;
      }
      if len < WF.LEN_HEADER {
        return Some(Framing.HeaderPanic), tmp;
      }
      tmp := new Cursor(len);
      forall i | 0 <= i < 8 {
        tmp.buf[i] := cur.buf[i];
      }
      tmp.position := 8;
      assert tmp.Filled() == tmp.buf[..8] == header;
      stop := None;
    }

    /** Third arm: the rest of the frame. */
    method ReadBody(cur: Cursor, ghost held0: seq<byte>, ghost src0: seq<byte>) returns (stop: Option<Framing.Poll>)
      requires inProgress == null && !closed && byteStream.Valid()
      requires Reading(cur, maxSize, held0, src0, byteStream.pending) && cur.buf.Length > 8
      modifies this, byteStream, cur, cur.buf
      ensures stop.None? ==>
                && inProgress == null && !closed && byteStream.Valid() && !byteStream.ended && byteStream.last.Ready?
                && Reading(cur, maxSize, held0, src0, byteStream.pending)
                && old(cur.position) < cur.position
      ensures stop.Some? ==> Answers(stop.value, held0, src0) && inProgress in {null, cur}
    {
      var len := ToU64(cur.buf[..8]);
      var io := cur.Fill(byteStream, len, held0, src0);
      match io {
        case Pending =>
          inProgress := cur;
          FillingIsIncomplete(cur, maxSize);
          stop := Some(Framing.Pending);
        case Ready(read) =>
          if read == 0 {
            FillingIsIncomplete(cur, maxSize);
            return Some(Framing.Spins);
          }
          if cur.position < len {
            stop := None;
          } else {
            FilledIsLegal(cur, maxSize);
            stop := Some(Framing.Item(cur.buf[..]));
          }
        case Failed(_) =>
          stop := Some(Framing.BodyPanic);
      }
    }
  }
}
