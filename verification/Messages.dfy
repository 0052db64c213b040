/** The code that builds messages in place: requests, replies, error replies and relayed replies. */
module Messages {
  import opened Wrappers
  import opened LittleEndian
  import opened ThesWireFormat
  import opened PeerTypes
  import WF = WireFormat

  /** What a serializer hands to `write`, one buffer after another, and whether it got to the end. */
  datatype Serialized = Serialized(chunks: seq<seq<byte>>, complete: bool)

  function Concat(chunks: seq<seq<byte>>): seq<byte> {
    if chunks == [] then [] else Concat(chunks[..|chunks| - 1]) + chunks[|chunks| - 1]
  }

  lemma {:induction false} ConcatGrows(chunks: seq<seq<byte>>, n: nat)
    requires n <= |chunks|
    ensures |Concat(chunks[..n])| <= |Concat(chunks)|
    decreases |chunks| - n
  {
    if n == |chunks| {
      assert chunks[..n] == chunks;
    } else {
      assert chunks[..n + 1][..n] == chunks[..n];
      ConcatGrows(chunks, n + 1);
    }
  }

  /** `to_writer`: the payload becomes the buffers written, in order, whatever their sizes. */
  method WriteAll(wf: ThesWF, value: Serialized) returns (ok: bool)
    requires wf.Valid() && wf.Value().payload == []
    requires WF.LEN_HEADER + |Concat(value.chunks)| < 0x1_0000_0000_0000_0000
    modifies wf
    ensures ok == value.complete
    ensures wf.Valid() && wf.Value() == old(wf.Value()).(payload := Concat(value.chunks))
  {
    var i := 0;
    while i < |value.chunks|
      invariant i <= |value.chunks|
      invariant wf.Valid() && wf.Value() == old(wf.Value()).(payload := Concat(value.chunks[..i]))
    {
      assert value.chunks[..i + 1][..i] == value.chunks[..i];
      ConcatGrows(value.chunks, i + 1);
      assert |wf.data| == WF.LEN_HEADER + |wf.Value().payload|;
      var _ := wf.Write(value.chunks[i]);
      i := i + 1;
    }
    assert value.chunks[..i] == value.chunks;
    ok := value.complete;
  }

  predicate Small(value: Serialized) {
    WF.LEN_HEADER + |Concat(value.chunks)| < 0x1_0000_0000_0000_0000
  }

  /** `RemoteAddr::build_wf`; a send has the null cid. */
  method BuildWf(sid: u64, cid: u64, value: Serialized) returns (r: Result<ThesWF, PeerErr>)
    requires Small(value)
    ensures if value.complete
            then r.Ok? && fresh(r.value) && r.value.Valid()
                 && r.value.Value() == WF.Frame(sid, cid, Concat(value.chunks))
            else r == Err(PeerErr.Serialize(Ctx(Some(sid), None)))
  {
    var wf := new ThesWF.WithCapacity(0);
    wf.SetSid(sid);
    wf.SetCid(cid);
    var ok := WriteAll(wf, value);
    if !ok {
      return Err(PeerErr.Serialize(Ctx(Some(sid), None)));
    }
    r := Ok(wf);
  }

  /** `RemoteAddr::build_call`; the peer sets the cid. */
  method BuildCall(sid: u64, value: Serialized) returns (r: Result<ThesWF, PeerErr>)
    requires Small(value)
    ensures if value.complete
            then r.Ok? && fresh(r.value) && r.value.Valid()
                 && r.value.Value() == WF.Frame(sid, WF.NULL_ID, Concat(value.chunks))
            else r == Err(PeerErr.Serialize(Ctx(Some(sid), None)))
  {
    var wf := new ThesWF.WithCapacity(0);
    wf.SetSid(sid);
    var ok := WriteAll(wf, value);
    if !ok {
      return Err(PeerErr.Serialize(Ctx(Some(sid), None)));
    }
    r := Ok(wf);
  }

  /** `Peer::prep_error`. */
  method BuildError(codec: Codec, cid: u64, err: ConnectionError) returns (msg: ThesWF)
    requires WF.Fits(PrepError(codec, cid, err))
    ensures fresh(msg) && msg.Valid() && msg.Value() == PrepError(codec, cid, err)
  {
    msg := new ThesWF.WithCapacity(0);
    msg.SetSid(WF.NULL_ID);
    msg.SetCid(cid);
    var encoded := codec.enc(err);
    assert Concat([encoded]) == encoded by {
      var none: seq<seq<byte>> := [];
      assert [encoded][..0] == none;
    }
    var _ := WriteAll(msg, Serialized([encoded], true));
  }

  /** A task's result, with the frame still a buffer. */
  datatype Built = Wire(wf: ThesWF) | Reply(wf: ThesWF)

  ghost predicate Shows(r: Result<Built, PeerErr>, view: Result<Response, PeerErr>)
    reads if r.Ok? then {r.value.wf} else {}
  {
    match r
    case Err(e) => view == Err(e)
    case Ok(Wire(wf)) => wf.Valid() && view == Ok(Forward(wf.Value()))
    case Ok(Reply(wf)) => wf.Valid() && view == Ok(Answer(wf.Value()))
  }

  /** The future of `call_service_gen`; no answer means that the handler is gone. */
  method ServeCall(msg: ThesWF, answer: Option<Serialized>) returns (r: Result<Built, PeerErr>)
    requires msg.Valid() && (answer.Some? ==> Small(answer.value))
    ensures r.Ok? ==> fresh(r.value.wf)
    ensures var req := msg.Value();
            Shows(r, match answer
                     case None => Err(PeerErr.HandlerDead(CallCtx(req)))
                     case Some(v) =>
                       if v.complete then Ok(Answer(WF.Frame(WF.FULL_ID, req.cid, Concat(v.chunks))))
                       else Err(PeerErr.Serialize(CallCtx(req))))
  {
    var sid := msg.Sid();
    var cid := msg.Cid();
    if answer.None? {
      return Err(PeerErr.HandlerDead(Ctx(Some(sid), Some(cid))));
    }
    var wf := new ThesWF.WithCapacity(0);
    wf.SetSid(WF.FULL_ID);
    wf.SetCid(cid);
    var ok := WriteAll(wf, answer.value);
    if !ok {
      return Err(PeerErr.Serialize(Ctx(Some(sid), Some(cid))));
    }
    r := Ok(Reply(wf));
  }

  /** How the relayed call went, stage by stage. */
  datatype Called =
    | MailboxClosed
    | CallErr(e: PeerErr)
    | SenderDropped
    | Received(resp: ThesWF)
    | ReceivedErr(err: ConnectionError)

  ghost predicate IsTold(called: Called, told: Option<Result<WF.Frame, ConnectionError>>)
    reads if called.Received? then {called.resp} else {}
  {
    match called
    case Received(resp) => resp.Valid() && told == Some(Ok(resp.Value()))
    case ReceivedErr(err) => told == Some(Err(err))
    case _ => told == None
  }

  /** `make_call`; the buffer of the reply is the one received, its cid overwritten in place. */
  method MakeCall(codec: Codec, sid: u64, cid: u64, called: Called, ghost req: WF.Frame,
                  ghost told: Option<Result<WF.Frame, ConnectionError>>)
      returns (r: Result<Built, PeerErr>)
    requires IsTold(called, told) && req.sid == sid && req.cid == cid
    requires called.ReceivedErr? ==> WF.Fits(PrepError(codec, cid, called.err))
    modifies if called.Received? then {called.resp} else {}
    ensures Shows(r, AnswerFrom(codec, req, told))
    ensures match called
            case Received(resp) =>
              r == Ok(Reply(resp)) && resp.Valid() && resp.Value() == old(resp.Value()).(cid := cid)
            case ReceivedErr(err) =>
              && r.Ok? && r.value.Wire? && fresh(r.value.wf) && r.value.wf.Valid()
              && r.value.wf.Value() == WF.Frame(WF.NULL_ID, cid, codec.enc(err))
            case _ => r == Err(PeerErr.RelayGone(Ctx(Some(sid), Some(cid))))
  {
    var relayGone := PeerErr.RelayGone(Ctx(Some(sid), Some(cid)));
    match called
    case MailboxClosed => r := Err(relayGone);
    case CallErr(_) => r := Err(relayGone);
    case SenderDropped => r := Err(relayGone);
    case Received(resp) =>
      resp.SetCid(cid);
      r := Ok(Reply(resp));
    case ReceivedErr(err) =>
      var msg := BuildError(codec, cid, err);
      r := Ok(Wire(msg));
  }

  // ---------------------------------------------------------------- what the caller of a remote service sees

  /** The end of `RemoteAddr::call`, once the receiver is decided. */
  function Outcome<V>(des: seq<byte> -> Option<V>, sid: u64, status: Status): Result<V, PeerErr>
    requires !status.Waiting?
  {
    match Told(status)
    case None => Err(PeerErr.ConnectionClosed(Ctx(Some(sid), None)))
    case Some(Ok(resp)) =>
      (match des(resp.payload)
       case Some(v) => Ok(v)
       case None => Err(PeerErr.Deserialize(Ctx(Some(sid), Some(resp.cid)))))
    case Some(Err(err)) =>
      if err.Timeout? then Err(PeerErr.Timeout(Ctx(Some(sid), None)))
      else Err(PeerErr.Remote(Ctx(Some(sid), None), err))
  }
}
