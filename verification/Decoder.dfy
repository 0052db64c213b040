/** `thes_wf::Decoder`: the same parser as two exact reads, one after the other. */
module ThesWfDecoder {
  import opened Wrappers
  import opened LittleEndian
  import opened Transport
  import Framing
  import WF = WireFormat

  datatype ExactPoll = Waiting | Done | UnexpectedEof | OtherError

  /** A `read_exact` future that owns the transport: it fills `buf[from..]`. */
  class ReadExact {
    const transport: ByteSource
    const buf: array<byte>
    var position: nat

    constructor (transport: ByteSource, buf: array<byte>, from: nat)
      requires from < buf.Length
      ensures this.transport == transport && this.buf == buf && position == from
    {
      this.transport := transport;
      this.buf := buf;
      position := from;
    }

    /** In a poll that began with the bytes `held0` while `src0` was still to be delivered. */
    method Poll(ghost held0: seq<byte>, ghost src0: seq<byte>) returns (r: ExactPoll)
      requires position < buf.Length && transport.Valid()
      requires Framing.ReadTo(held0, src0, buf[..position], transport.pending)
      modifies this, buf, transport
      ensures old(position) <= position <= buf.Length
      ensures Framing.ReadTo(held0, src0, buf[..position], transport.pending)
      ensures old(position) >= 8 ==> buf[..8] == old(buf[..8])
      ensures r == Done <==> position == buf.Length
      ensures transport.Valid() && transport.polls > old(transport.polls)
      ensures r == Waiting <==> transport.last.Pending?
      ensures r == UnexpectedEof <==> transport.last in {Ready(0), Failed(true)}
      ensures r == OtherError <==> transport.last == Failed(false)
      ensures transport.ended <==> transport.last == Ready(0)
    {
      while position < buf.Length
        invariant old(position) <= position <= buf.Length
        invariant Framing.ReadTo(held0, src0, buf[..position], transport.pending)
        invariant old(position) >= 8 ==> buf[..8] == old(buf[..8])
        invariant transport.Valid() && transport.polls >= old(transport.polls)
        invariant position > old(position) ==>
                    && transport.polls > old(transport.polls)
                    && transport.last.Ready? && transport.last.n > 0 && !transport.ended
      {
        var io := transport.PollFill(buf, position, buf.Length, held0, src0);
        if io.Ready? {
          position := position + io.n;
        }
        match io {
          case Pending => return Waiting;
          case Failed(eof) => return if eof then UnexpectedEof else OtherError;
          case Ready(read) =>
            if read == 0 {
              return UnexpectedEof;
            }
        }
      }
      return Done;
    }
  }

  class Decoder {
    var byteStream: ByteSource?
    var getLen: ReadExact?
    var getMsg: ReadExact?
    var closed: bool
    const maxSize: nat
    /** The transport, whoever owns it at the moment. */
    ghost const source: ByteSource

    ghost predicate Valid()
      reads this, source, getLen, getMsg,
            if getLen != null then {getLen.buf} else {}, if getMsg != null then {getMsg.buf} else {}
    {
      && source.Valid()
      && (byteStream != null ==> byteStream == source && getLen == null && getMsg == null)
      && (getLen != null ==>
            getMsg == null && getLen.transport == source && getLen.buf.Length == 8 && getLen.position < 8)
      && (getMsg != null ==>
            && getMsg.transport == source
            && 8 <= getMsg.position < getMsg.buf.Length <= maxSize
            && getMsg.buf.Length == ToU64(getMsg.buf[..8]) && getMsg.buf.Length >= WF.LEN_HEADER)
    }

    /** Only after an oversize error nobody owns the transport any more. */
    ghost predicate HasTransport()
      reads this
    {
      byteStream != null || getLen != null || getMsg != null
    }

    ghost function Held(): seq<byte>
      requires Valid()
      reads this, source, getLen, getMsg,
            if getLen != null then {getLen.buf} else {}, if getMsg != null then {getMsg.buf} else {}
    {
      if getMsg != null then getMsg.buf[..getMsg.position]
      else if getLen != null then getLen.buf[..getLen.position]
      else []
    }

    ghost function Repr(): set<object>
      reads this, getLen, getMsg
    {
      {this, source} + (if getLen == null then {} else {getLen, getLen.buf})
      + (if getMsg == null then {} else {getMsg, getMsg.buf})
    }

    /** The futures are those there were, or new ones. */
    twostate predicate Renewed()
      reads this
    {
      && (getLen == old(getLen) || (getLen != null ==> fresh(getLen) && fresh(getLen.buf)))
      && (getMsg == old(getMsg) || (getMsg != null ==> fresh(getMsg) && fresh(getMsg.buf)))
    }

    constructor (byteStream: ByteSource, maxSize: nat)
      requires byteStream.Valid()
      ensures Valid() && HasTransport() && Held() == [] && !closed
      ensures source == byteStream && this.maxSize == maxSize
    {
      this.byteStream := byteStream;
      source := byteStream;
      this.maxSize := maxSize;
      getLen := null;
      getMsg := null;
      closed := false;
    }

    /** What a suspended decoder holds is the beginning of a frame. */
    lemma HeldIsIncomplete()
      requires Valid()
      ensures Framing.NextFrame(Held(), maxSize) == Framing.Incomplete
    {
      if getMsg != null {
        assert Held()[..8] == getMsg.buf[..8];
      }
    }

    /** The poll answers `r` after it began with `held0` and `src0`. */
    ghost predicate Answers(r: Framing.Poll, held0: seq<byte>, src0: seq<byte>)
      reads this, source, getLen, getMsg,
            if getLen != null then {getLen.buf} else {}, if getMsg != null then {getMsg.buf} else {}
    {
      && Valid()
      && r !in {Framing.TransportGone, Framing.Spins}
      && (closed <==> r in {Framing.End, Framing.IoError})
      && (HasTransport() <==> !r.MessageSizeExceeded? && r != Framing.HeaderPanic)
      && (r == Framing.End <==> source.last in {Ready(0), Failed(true)})
      && (r == Framing.Pending <==> source.last.Pending?)
      && (r == Framing.IoError <==> source.last == Failed(false))
      && (source.ended <==> source.last == Ready(0))
      && (r != Framing.IoError ==> Framing.DecodeStep(maxSize, held0, src0, r, Held(), source.pending))
    }

    /** The poll goes on: everything read since it began is held. */
    ghost predicate Reading(held0: seq<byte>, src0: seq<byte>)
      reads this, source, getLen, getMsg,
            if getLen != null then {getLen.buf} else {}, if getMsg != null then {getMsg.buf} else {}
    {
      && Valid() && !closed
      && Framing.ReadTo(held0, src0, Held(), source.pending)
    }

    /** With debug assertions on, as the length check of the source is one. */
    method PollNext() returns (r: Framing.Poll)
      requires Valid()
      modifies Repr()
      ensures Valid() && Renewed()
      ensures source.polls >= old(source.polls)
      ensures old(closed) ==>
                && r == Framing.End && closed
                && HasTransport() == old(HasTransport()) && source.pending == old(source.pending)
      ensures !old(closed) && !old(HasTransport()) ==>
                r == Framing.TransportGone && source.pending == old(source.pending) && !closed && !HasTransport()
      ensures !old(closed) && old(HasTransport()) ==>
                Answers(r, old(Held()), old(source.pending)) && source.polls > old(source.polls)
    {
      if closed {
        return Framing.End;
      }
      ghost var held0, src0 := Held(), source.pending;
      assert held0 + [] == held0;
      while true
        invariant Renewed()
        invariant old(HasTransport()) <==> HasTransport()
        invariant Reading(held0, src0)
        invariant !HasTransport() ==> source.pending == src0
        invariant source.polls >= old(source.polls)
        decreases getMsg == null, getLen == null
      {
        if getMsg != null {
          r := PollMsg(held0, src0);
          return;
        }
        if getLen != null {
          var stop := PollLen(held0, src0);
          if stop.Some? {
            return stop.value;
          }
        } else {
          if byteStream == null {
            return Framing.TransportGone;
          }
          StartLen();
        }
      }
    }

    /** Nothing is in progress: a read of the length field takes the transport. */
    method StartLen()
      requires Valid() && byteStream != null
      modifies this`byteStream, this`getLen
      ensures Valid() && Held() == [] && byteStream == null
      ensures getLen != null && fresh(getLen) && fresh(getLen.buf)
    {
      var buf := new byte[8](_ => 0);
      getLen := new ReadExact(byteStream, buf, 0);
      byteStream := null;
    }

    /** Getting the rest of the message. */
    method PollMsg(ghost held0: seq<byte>, ghost src0: seq<byte>) returns (r: Framing.Poll)
      requires Reading(held0, src0) && getMsg != null
      modifies this, getMsg, getMsg.buf, source
      ensures Answers(r, held0, src0) && source.polls > old(source.polls)
      ensures getLen == null && getMsg in {null, old(getMsg)}
    {
      var future := getMsg;
      getMsg := null;
      var res := future.Poll(held0, src0);
      ghost var all := future.buf[..future.position];
      assert all[..8] == future.buf[..8];
      match res {
        case Waiting =>
          getMsg := future;
          HeldIsIncomplete();
          r := Framing.Pending;
        case UnexpectedEof =>
          assert Framing.NextFrame(all, maxSize) == Framing.Incomplete;
          closed := true;
          byteStream := future.transport;
          r := Framing.End;
        case OtherError =>
          closed := true;
          byteStream := future.transport;
          r := Framing.IoError;
        case Done =>
          byteStream := future.transport;
          assert future.buf[..] == all;
          Framing.LegalIsCoherent(all, maxSize);
          r := Framing.Item(future.buf[..]);
      }
    }

    /** Getting the length field; when it is there the message read is set up. */
    method PollLen(ghost held0: seq<byte>, ghost src0: seq<byte>) returns (stop: Option<Framing.Poll>)
      requires Reading(held0, src0) && getLen != null
      modifies this, getLen, getLen.buf, source
      ensures source.polls > old(source.polls)
      ensures stop.Some? ==> Answers(stop.value, held0, src0) && getMsg == null && getLen in {null, old(getLen)}
      ensures stop.None? ==> Reading(held0, src0) && getMsg != null && fresh(getMsg) && fresh(getMsg.buf)
    {
      var future := getLen;
      getLen := null;
      var res := future.Poll(held0, src0);
      ghost var all := future.buf[..future.position];
      match res {
        case Waiting =>
          getLen := future;
          HeldIsIncomplete();
          stop := Some(Framing.Pending);
        case UnexpectedEof =>
          assert Framing.NextFrame(all, maxSize) == Framing.Incomplete;
          closed := true;
          byteStream := future.transport;
          stop := Some(Framing.End);
        case OtherError =>
          closed := true;
          byteStream := future.transport;
          stop := Some(Framing.IoError);
        case Done =>
          stop := StartMsg(future, held0, src0);
      }
    }

    /** The length field is there: the message read is set up, unless the length will not do. */
    method StartMsg(future: ReadExact, ghost held0: seq<byte>, ghost src0: seq<byte>)
      returns (stop: Option<Framing.Poll>)
      requires Valid() && !closed && !HasTransport() && source.last.Ready? && !source.ended && source.last != Ready(0)
      requires future.transport == source && future.buf.Length == 8 == future.position
      requires Framing.ReadTo(held0, src0, future.buf[..8], source.pending)
      modifies this`getMsg
      ensures stop.Some? ==> Answers(stop.value, held0, src0) && getMsg == null
      ensures stop.None? ==> Reading(held0, src0) && getMsg != null && fresh(getMsg) && fresh(getMsg.buf)
    {
      ghost var all := future.buf[..8];
      assert all[..8] == all;
      var len := ToU64(future.buf[..8]);
      if len < WF.LEN_HEADER {
        return Some(Framing.HeaderPanic);
      }
      if len > maxSize {
        return Some(Framing.MessageSizeExceeded(len));
      }
      var msg := ReadRest(future, len);
      assert msg.buf[..8] == all;
      getMsg := msg;
      stop := None;
    }

    /** The future for the rest of a message whose length field was just read. */
    static method ReadRest(future: ReadExact, len: nat) returns (msg: ReadExact)
      requires future.buf.Length == 8 < len
      ensures fresh(msg) && fresh(msg.buf)
      ensures msg.transport == future.transport && msg.buf.Length == len
      ensures msg.position == 8 && msg.buf[..8] == future.buf[..8]
    {
      var all := new byte[len](_ => 0);
      forall i | 0 <= i < 8 {
        all[i] := future.buf[i];
      }
      msg := new ReadExact(future.transport, all, 8);
    }
  }
}
