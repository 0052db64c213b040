/** `thes_wf::Encoder`: a one-message buffer and the partial-write loop. */
module ThesWfEncoder {
  import opened Wrappers
  import opened LittleEndian
  import Framing
  import opened Transport

  datatype FlushPoll = Pending | Done | ConnectionAborted | IoError

  class Encoder {
    const outBytes: ByteSink
    const maxSize: nat
    /** The message being written and how much of it went out. */
    var buffer: Option<(seq<byte>, nat)>

    ghost predicate Valid()
      reads this
    {
      buffer.Some? ==> buffer.value.1 < |buffer.value.0|
    }

    ghost function Unsent(): (s: seq<byte>)
      requires Valid()
      reads this
      ensures s == [] <==> buffer.None?
    {
      match buffer
      case None => []
      case Some(b) => b.0[b.1..]
    }

    constructor (outBytes: ByteSink, maxSize: nat)
      ensures Valid() && Unsent() == []
      ensures this.outBytes == outBytes && this.maxSize == maxSize
    {
      this.outBytes := outBytes;
      this.maxSize := maxSize;
      buffer := None;
    }

    /** `poll_ready` is a flush. */
    method PollReady() returns (r: FlushPoll)
      requires Valid()
      modifies this, outBytes
      ensures Valid()
      ensures r == Done ==> Unsent() == []
      ensures r in {Done, FlushPoll.Pending} ==>
                Framing.FlushStep(old(Unsent()), old(outBytes.written), Unsent(), outBytes.written)
    {
      r := PollFlush();
    }

    /** The source panics when a message is still in the buffer. */
    method StartSend(msg: seq<byte>)
      requires Valid() && Unsent() == []
      requires msg != []
      modifies this
      ensures Valid() && Unsent() == msg
    {
      buffer := Some((msg, 0));
    }

    /** Writes until all is out or the transport stops; after an error the message is dropped. */
    method PollFlush() returns (r: FlushPoll)
      requires Valid()
      modifies this, outBytes
      ensures Valid()
      ensures r == Done ==> Unsent() == []
      ensures r == FlushPoll.Pending ==> Unsent() != [] && outBytes.last.Pending?
      ensures r == ConnectionAborted ==> outBytes.last == Ready(0)
      ensures r == IoError ==> outBytes.last.Failed?
      ensures r != Done ==> outBytes.polls > old(outBytes.polls)
      ensures r in {Done, FlushPoll.Pending} ==>
                Framing.FlushStep(old(Unsent()), old(outBytes.written), Unsent(), outBytes.written)
      ensures r in {ConnectionAborted, IoError} ==>
                && Unsent() == []
                && exists lost | lost != [] ::
                     Framing.FlushStep(old(Unsent()), old(outBytes.written), lost, outBytes.written)
    {
      ghost var unsent0, wire0 := Unsent(), outBytes.written;
      assert wire0[|wire0|..] == [];
      while buffer.Some?
        invariant Valid()
        invariant Framing.FlushStep(unsent0, wire0, Unsent(), outBytes.written)
        invariant outBytes.polls >= old(outBytes.polls)
        decreases |Unsent()|
      {
        var stop;
        ghost var lost;
        stop, lost := WriteSome(unsent0, wire0);
        if stop.Some? {
          return stop.value;
        }
      }
      return Done;
    }

    /** One turn of the loop; `lost` is what an error leaves unwritten. */
    method WriteSome(ghost unsent0: seq<byte>, ghost wire0: seq<byte>)
      returns (stop: Option<FlushPoll>, ghost lost: seq<byte>)
      requires Valid() && buffer.Some?
      requires Framing.FlushStep(unsent0, wire0, Unsent(), outBytes.written)
      modifies this, outBytes
      ensures Valid()
      ensures stop == None || stop == Some(FlushPoll.Pending) ==>
                Framing.FlushStep(unsent0, wire0, Unsent(), outBytes.written)
      ensures stop == None ==> |Unsent()| < |old(Unsent())|
      ensures stop == Some(FlushPoll.Pending) ==> Unsent() != [] && outBytes.last.Pending?
      ensures stop == Some(ConnectionAborted) ==> outBytes.last == Ready(0)
      ensures stop == Some(IoError) ==> outBytes.last.Failed?
      ensures outBytes.polls > old(outBytes.polls)
      ensures stop == Some(Done) ==> Unsent() == [] && Framing.FlushStep(unsent0, wire0, [], outBytes.written)
      ensures stop == Some(ConnectionAborted) || stop == Some(IoError) ==>
                Unsent() == [] && lost != [] && Framing.FlushStep(unsent0, wire0, lost, outBytes.written)
    {
      var msg, pos := buffer.value.0, buffer.value.1;
      lost := Unsent();
      buffer := None;
      var io := outBytes.PollWrite(msg[pos..]);
      match io {
        case Pending =>
          buffer := Some((msg, pos));
          stop := Some(FlushPoll.Pending);
        case Failed(_) =>
          stop := Some(IoError);
        case Ready(x) =>
          FlushMore(unsent0, wire0, lost, old(outBytes.written), x);
          if x == 0 {
            return Some(ConnectionAborted), lost;
          }
          pos := pos + x;
          if pos == |msg| {
            return Some(Done), lost;
          }
          buffer := Some((msg, pos));
          stop := None;
      }
    }
  }

  /** Writing a front part of what is unsent continues a flush. */
  lemma FlushMore(unsent0: seq<byte>, wire0: seq<byte>, unsent: seq<byte>, wire: seq<byte>, x: nat)
    requires Framing.FlushStep(unsent0, wire0, unsent, wire) && x <= |unsent|
    ensures Framing.FlushStep(unsent0, wire0, unsent[x..], wire + unsent[..x])
    ensures x == 0 ==> unsent[x..] == unsent
  {
    var wire' := wire + unsent[..x];
    assert wire'[|wire0|..] == wire[|wire0|..] + unsent[..x];
    assert unsent == unsent[..x] + unsent[x..];
  }
}
