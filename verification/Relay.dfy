/**
 * Calls through a chain of relays. Every hop is a connection: a peer that makes the call and the peer
 * at the other end that takes it on. Between the steps of one call, each of them may handle anything.
 */
module Relays {
  import opened Wrappers
  import opened LittleEndian
  import opened WireFormat
  import opened PeerTypes
  import opened PeerSpec
  import opened PeerShape
  import opened PeerProps
  import opened PeerOutcomes
  import opened Messages

  /**
   * `near` calls on behalf of `caller`; `far` serves. `meanwhile` is what `near` does until the reply
   * arrives, `atWork` what `far` does until the task of the call ends.
   */
  datatype Hop = Hop(near: PeerState, far: PeerState, caller: Caller, env: Env,
                     meanwhile: seq<Input>, atWork: seq<Input>)

  /** What the task of a call ends with, as a function of the request it got. */
  type Provider = Frame -> Result<Response, PeerErr>

  // ---------------------------------------------------------------- one hop

  function Called(h: Hop, wf: Frame): PeerState {
    HandleCall(h.near, wf, h.caller, h.env).0
  }

  /** The frame the call put on the wire. */
  function Sent(h: Hop, wf: Frame): Option<Frame> {
    var wire := Called(h, wf).wire;
    if |wire| > |h.near.wire| then Some(wire[|wire| - 1]) else None
  }

  function Taken(h: Hop, req: Frame): PeerState {
    HandleIncoming(h.far, Ok(req), h.env)
  }

  /** The task that works on the request. */
  function Started(h: Hop, req: Frame): Option<Task> {
    var tasks := Taken(h, req).tasks;
    if |tasks| > |h.far.tasks| then Some(tasks[|tasks| - 1]) else None
  }

  /** The far end handles the result of its task; then the near end reads the frame that went out. */
  function Back(h: Hop, wf: Frame, req: Frame, result: Result<Response, PeerErr>): Status {
    var far := After(Taken(h, req), h.atWork);
    var near := After(Called(h, wf), h.meanwhile);
    var ms := ResultMessages(result);
    if ms == [] then Waiting
    else
      var wire := Handle(far, ms[0], h.env).wire;
      if |wire| <= |far.wire| then Waiting
      else StatusOf(HandleIncoming(near, Ok(wire[|wire| - 1]), h.env), |h.near.calls|)
  }

  /** Without a task the far end can only have replied at once; the near end reads that frame. */
  function AtOnce(h: Hop, wf: Frame, req: Frame): Status {
    var near := After(Called(h, wf), h.meanwhile);
    var wire := Taken(h, req).wire;
    if |wire| <= |h.far.wire| then Waiting
    else StatusOf(HandleIncoming(near, Ok(wire[|wire| - 1]), h.env), |h.near.calls|)
  }

  function StatusOf(s: PeerState, k: nat): Status {
    if k < |s.calls| then s.calls[k].status else Refused
  }

  // ---------------------------------------------------------------- the chain

  /** How a call stands at the consumer once it went through all hops and back. */
  function Through(hops: seq<Hop>, wf: Frame, provider: Provider): Status
    requires hops != []
  {
    var h := hops[0];
    match Sent(h, wf)
    case None => Refused
    case Some(req) =>
      match Started(h, req)
      case Some(LocalCall(r)) => Back(h, wf, req, provider(r))
      case Some(RelayCall(r, _)) =>
        if |hops| == 1 then Back(h, wf, req, provider(r))
        else
          var outcome := Through(hops[1..], r, provider);
          if outcome.Waiting? then Waiting else Back(h, wf, req, RelayAnswer(h.far.codec, r, outcome))
      case Some(_) => Waiting
      case None => AtOnce(h, wf, req)
  }

  /** Frame `wf` as hop `h` sends it. */
  function Renumbered(h: Hop, wf: Frame): Frame {
    wf.(cid := NextCid(h.near.counter))
  }

  function Last(hops: seq<Hop>): Hop
    requires hops != []
  {
    hops[|hops| - 1]
  }

  /** The frame that the last near end is called with. */
  function LastWf(hops: seq<Hop>, wf: Frame): Frame
    requires hops != []
  {
    if |hops| == 1 then wf else LastWf(hops[1..], Renumbered(hops[0], wf))
  }

  /** The request that reaches the end of the chain. */
  function LastRequest(hops: seq<Hop>, wf: Frame): Frame
    requires hops != []
  {
    Renumbered(Last(hops), LastWf(hops, wf))
  }

  /** A service map that starts a task for calls of `sid`. */
  predicate Serves(sm: ServiceMap, sid: u64) {
    sm.RelayMap? || (sm.Services? && sid in sm.handlers)
  }

  /** `near` is still connected when the reply comes, and its call is not yet decided. */
  predicate StillWaits(h: Hop, wf: Frame) {
    var near := After(Called(h, wf), h.meanwhile);
    !near.closed && StatusOf(near, |h.near.calls|).Waiting?
  }

  /** Both ends are open when the call is made, and the near end still waits when the reply comes. */
  ghost predicate Reached(h: Hop, wf: Frame, codec: Codec) {
    && !IsReply(wf) && h.near.codec == codec && h.far.codec == codec
    && Inv(h.near) && !h.near.closed && Inv(h.far) && !h.far.closed
    && h.env.sendErr.None? && h.env.spawnOk
    && StillWaits(h, wf)
  }

  /** Besides, the far end serves the call, and is still connected when it is done. */
  ghost predicate Up(h: Hop, wf: Frame, codec: Codec) {
    && Reached(h, wf, codec)
    && h.env.decodes && wf.sid in h.far.services && Serves(h.far.services[wf.sid], wf.sid)
    && !After(Taken(h, Renumbered(h, wf)), h.atWork).closed
  }

  /** All hops but the last are up and lead to a relay. */
  ghost predicate RelaysUp(hops: seq<Hop>, wf: Frame, codec: Codec)
    requires hops != []
  {
    |hops| > 1 ==>
      && Up(hops[0], wf, codec) && hops[0].far.services[wf.sid].RelayMap?
      && RelaysUp(hops[1..], Renumbered(hops[0], wf), codec)
  }

  ghost predicate AllUp(hops: seq<Hop>, wf: Frame, codec: Codec)
    requires hops != []
  {
    RelaysUp(hops, wf, codec) && Up(Last(hops), LastWf(hops, wf), codec)
  }

  // ---------------------------------------------------------------- how a call ends

  /** With a payload, or with an error that the caller is told. */
  datatype Ending = Replies(payload: seq<byte>) | Fails(err: ConnectionError)

  /** Such an ending as the result of the task for `req`. */
  predicate EndsAs(codec: Codec, req: Frame, result: Result<Response, PeerErr>, end: Ending) {
    match result
    case Ok(Answer(wf)) => end.Replies? && wf == Frame(FULL_ID, req.cid, end.payload)
    case Ok(Forward(wf)) => end.Fails? && wf == PrepError(codec, req.cid, end.err)
    case Ok(Nothing) => false
    case Err(e) => end.Fails? && e.ctx.cid == Some(req.cid) && RemoteView(e).Some? && RemoteView(e).value.0 == end.err
  }

  /** Such an ending as it reaches a call with connection id `cid`. */
  function Delivered(codec: Codec, cid: u64, end: Ending): Status {
    match end
    case Replies(payload) => Answered(Frame(FULL_ID, cid, payload))
    case Fails(err) => Failed(err, PrepError(codec, cid, err))
  }

  function ReplyFrame(codec: Codec, cid: u64, end: Ending): Frame {
    match end
    case Replies(payload) => Frame(FULL_ID, cid, payload)
    case Fails(err) => PrepError(codec, cid, err)
  }

  // ---------------------------------------------------------------- one hop works

  lemma CodecStays(s: PeerState, inputs: seq<Input>)
    ensures After(s, inputs).codec == s.codec
  {
    if inputs != [] {
      var n := |inputs| - 1;
      CodecStays(s, inputs[..n]);
      if inputs[n].Handled? {
        HandleEffects(After(s, inputs[..n]), inputs[n].m, inputs[n].env);
      }
    }
  }

  lemma CallGoesOut(h: Hop, wf: Frame, codec: Codec)
    requires Reached(h, wf, codec)
    ensures Sent(h, wf) == Some(Renumbered(h, wf))
    ensures Inv(Called(h, wf)) && Called(h, wf).codec == codec
    ensures var calls := Called(h, wf).calls;
            |calls| == |h.near.calls| + 1 && calls[|h.near.calls|].frame == Renumbered(h, wf)
  {
    CallShape(h.near, wf, h.caller, h.env);
    HandleKeepsInv(h.near, Call(wf, h.caller), h.env);
  }

  lemma IsCall(wf: Frame, cid: u64)
    requires !IsReply(wf) && cid != NULL_ID
    ensures Kind(wf.(cid := cid)).IncomingCall?
  {
  }

  lemma StartCallStarts(h: Hop, req: Frame)
    requires h.env.spawnOk && h.env.decodes
    requires req.sid in h.far.services && Serves(h.far.services[req.sid], req.sid)
    ensures var start := StartCall(h.far.services, req, h.env);
            && start.Ok? && start.value.req == req
            && (if h.far.services[req.sid].RelayMap? then start.value.RelayCall? else start.value.LocalCall?)
  {
  }

  lemma CallIsTaken(h: Hop, wf: Frame, codec: Codec)
    requires Up(h, wf, codec)
    ensures var req := Renumbered(h, wf);
            && Started(h, req).Some?
            && (if h.far.services[wf.sid].RelayMap? then Started(h, req).value.RelayCall?
                else Started(h, req).value.LocalCall?)
            && Started(h, req).value.req == req
            && Inv(Taken(h, req)) && Taken(h, req).codec == codec
  {
    var req := Renumbered(h, wf);
    IsCall(wf, NextCid(h.near.counter));
    StartCallStarts(h, req);
    assert Taken(h, req) == HandleIncomingCall(h.far, req, h.env);
    HandleKeepsInv(h.far, Incoming(Ok(req)), h.env);
  }

  /** A peer that still has its connection puts the ending of a task on the wire as a reply. */
  lemma ReplyGoesOut(s: PeerState, req: Frame, result: Result<Response, PeerErr>, end: Ending, env: Env)
    requires s.outgoing && env.sendErr.None? && EndsAs(s.codec, req, result, end)
    ensures ResultMessages(result) != []
    ensures Handle(s, ResultMessages(result)[0], env).wire == s.wire + [ReplyFrame(s.codec, req.cid, end)]
  {
    if result.Err? {
      var e := result.error;
      var (err, close) := RemoteView(e).value;
      var told := s.(events := s.events + [PeerEvent.Error(e)]);
      assert Handle(s, RequestError(e), env) == SendErr(told, req.cid, err, close, env);
    }
  }

  /** A reply to a call that still waits decides it. */
  lemma ReplyDecides(s: PeerState, k: nat, end: Ending, env: Env)
    requires Inv(s) && !s.closed && s.codec.RoundTrips() && k < |s.calls| && s.calls[k].status.Waiting?
    ensures var cid := s.calls[k].frame.cid;
            StatusOf(HandleIncoming(s, Ok(ReplyFrame(s.codec, cid, end)), env), k) == Delivered(s.codec, cid, end)
  {
    var cid := s.calls[k].frame.cid;
    assert cid in s.responses && s.responses[cid] == k;
  }

  lemma WorksBack(h: Hop, wf: Frame, codec: Codec, result: Result<Response, PeerErr>, end: Ending)
    requires Up(h, wf, codec) && codec.RoundTrips() && EndsAs(codec, Renumbered(h, wf), result, end)
    ensures Back(h, wf, Renumbered(h, wf), result) == Delivered(codec, NextCid(h.near.counter), end)
  {
    var req := Renumbered(h, wf);
    var k := |h.near.calls|;
    CallGoesOut(h, wf, codec);
    CallIsTaken(h, wf, codec);
    var near := After(Called(h, wf), h.meanwhile);
    var far := After(Taken(h, req), h.atWork);
    RunKeepsInv(Called(h, wf), h.meanwhile);
    RunKeepsInv(Taken(h, req), h.atWork);
    CodecStays(Called(h, wf), h.meanwhile);
    CodecStays(Taken(h, req), h.atWork);
    RunEvolves(Called(h, wf), h.meanwhile);
    ReplyGoesOut(far, req, result, end, h.env);
    ReplyDecides(near, k, end, h.env);
  }

  // ---------------------------------------------------------------- main results

  /** What a relay task makes of a decided call ends its own call in the same way. */
  lemma RelayPassesOn(codec: Codec, req: Frame, cid: u64, end: Ending)
    ensures EndsAs(codec, req, RelayAnswer(codec, req, Delivered(codec, cid, end)), end)
  {
  }

  /** However the call of the last near end is decided, the consumer's is decided so. */
  lemma {:induction false} PassesBack(hops: seq<Hop>, wf: Frame, codec: Codec, provider: Provider, end: Ending)
    requires hops != [] && RelaysUp(hops, wf, codec) && codec.RoundTrips()
    requires Through([Last(hops)], LastWf(hops, wf), provider) == Delivered(codec, LastRequest(hops, wf).cid, end)
    ensures LastRequest(hops, wf).sid == wf.sid && LastRequest(hops, wf).payload == wf.payload
    ensures Through(hops, wf, provider) == Delivered(codec, NextCid(hops[0].near.counter), end)
  {
    if |hops| == 1 {
      assert hops == [Last(hops)];
    } else {
      var h, rest := hops[0], hops[1..];
      var req := Renumbered(h, wf);
      assert Last(rest) == Last(hops);
      PassesBack(rest, req, codec, provider, end);
      CallGoesOut(h, wf, codec);
      CallIsTaken(h, wf, codec);
      RelayPassesOn(codec, req, NextCid(rest[0].near.counter), end);
      WorksBack(h, wf, codec, RelayAnswer(codec, req, Through(rest, req, provider)), end);
    }
  }

  /**
   * Relay chain transparency: through any number of hops the request's service and payload reach the
   * end of the chain unchanged, and however the task there ends, the consumer is told just that, under
   * the connection id of its own call, whatever else the peers on the way handled in between.
   */
  lemma ChainTransparent(hops: seq<Hop>, wf: Frame, codec: Codec, provider: Provider, end: Ending)
    requires hops != [] && AllUp(hops, wf, codec) && codec.RoundTrips()
    requires EndsAs(codec, LastRequest(hops, wf), provider(LastRequest(hops, wf)), end)
    ensures LastRequest(hops, wf).sid == wf.sid && LastRequest(hops, wf).payload == wf.payload
    ensures Through(hops, wf, provider) == Delivered(codec, NextCid(hops[0].near.counter), end)
  {
    var h, last := Last(hops), LastWf(hops, wf);
    CallGoesOut(h, last, codec);
    CallIsTaken(h, last, codec);
    WorksBack(h, last, codec, provider(LastRequest(hops, wf)), end);
    PassesBack(hops, wf, codec, provider, end);
  }

  // ---------------------------------------------------------------- what the consumer sees

  /** The caller of a remote service, behind any number of relays, sees the very value the service returned. */
  lemma CallerSeesValue<V>(hops: seq<Hop>, wf: Frame, codec: Codec, provider: Provider,
                           payload: seq<byte>, des: seq<byte> -> Option<V>, v: V)
    requires hops != [] && AllUp(hops, wf, codec) && codec.RoundTrips() && des(payload) == Some(v)
    requires provider(LastRequest(hops, wf)) == Ok(Answer(Frame(FULL_ID, LastRequest(hops, wf).cid, payload)))
    ensures var status := Through(hops, wf, provider);
            !status.Waiting? && Outcome(des, wf.sid, status) == Ok(v)
  {
    ChainTransparent(hops, wf, codec, provider, Replies(payload));
  }

  /** When the handler is gone, cannot serialize, or the next relay is gone, the caller is told so. */
  lemma CallerSeesFailure<V>(hops: seq<Hop>, wf: Frame, codec: Codec, provider: Provider, e: PeerErr,
                             des: seq<byte> -> Option<V>)
    requires hops != [] && AllUp(hops, wf, codec) && codec.RoundTrips()
    requires provider(LastRequest(hops, wf)) == Err(e) && (e.HandlerDead? || e.Serialize? || e.RelayGone?)
    requires e.ctx == CallCtx(LastRequest(hops, wf))
    ensures var status := Through(hops, wf, provider);
            !status.Waiting? &&
            Outcome(des, wf.sid, status) ==
            Err(Remote(Ctx(Some(wf.sid), None), InternalServerError(CallCtx(LastRequest(hops, wf)))))
  {
    ChainTransparent(hops, wf, codec, provider, Fails(InternalServerError(e.ctx)));
  }

  /** A timeout of the last relay's own call reaches the caller as a timeout. */
  lemma CallerSeesTimeout<V>(hops: seq<Hop>, wf: Frame, codec: Codec, provider: Provider, sid: u64,
                             des: seq<byte> -> Option<V>)
    requires hops != [] && AllUp(hops, wf, codec) && codec.RoundTrips()
    requires provider(LastRequest(hops, wf)) == RelayAnswer(codec, LastRequest(hops, wf), Expired(sid))
    ensures var status := Through(hops, wf, provider);
            !status.Waiting? && Outcome(des, wf.sid, status) == Err(PeerErr.Timeout(Ctx(Some(wf.sid), None)))
  {
    ChainTransparent(hops, wf, codec, provider, Fails(ConnectionError.Timeout(sid)));
  }

  /** When the last relay's own call was refused, or its connection ended, the caller is told so. */
  lemma CallerSeesLostRelay<V>(hops: seq<Hop>, wf: Frame, codec: Codec, provider: Provider, outcome: Status,
                               des: seq<byte> -> Option<V>)
    requires hops != [] && AllUp(hops, wf, codec) && codec.RoundTrips()
    requires outcome == Refused || outcome == Cancelled
    requires provider(LastRequest(hops, wf)) == RelayAnswer(codec, LastRequest(hops, wf), outcome)
    ensures var status := Through(hops, wf, provider);
            !status.Waiting? &&
            Outcome(des, wf.sid, status) ==
            Err(Remote(Ctx(Some(wf.sid), None), InternalServerError(CallCtx(LastRequest(hops, wf)))))
  {
    ChainTransparent(hops, wf, codec, provider, Fails(InternalServerError(CallCtx(LastRequest(hops, wf)))));
  }

  /** An error that was told to the last relay reaches the caller as it is. */
  lemma CallerSeesError<V>(hops: seq<Hop>, wf: Frame, codec: Codec, provider: Provider, err: ConnectionError, g: Frame,
                           des: seq<byte> -> Option<V>)
    requires hops != [] && AllUp(hops, wf, codec) && codec.RoundTrips() && !err.Timeout?
    requires provider(LastRequest(hops, wf)) == RelayAnswer(codec, LastRequest(hops, wf), Failed(err, g))
    ensures var status := Through(hops, wf, provider);
            !status.Waiting? && Outcome(des, wf.sid, status) == Err(Remote(Ctx(Some(wf.sid), None), err))
  {
    ChainTransparent(hops, wf, codec, provider, Fails(err));
  }

  /** A call that the end of the chain cannot start is decided by the error reply to it. */
  lemma RefusalDecides(h: Hop, wf: Frame, codec: Codec, provider: Provider, err: ConnectionError)
    requires Reached(h, wf, codec) && codec.RoundTrips()
    requires var req := Renumbered(h, wf);
             && Taken(h, req).tasks == h.far.tasks
             && Taken(h, req).wire == h.far.wire + [Frame(NULL_ID, req.cid, codec.enc(err))]
    ensures Through([h], wf, provider) == Delivered(codec, NextCid(h.near.counter), Fails(err))
  {
    CallGoesOut(h, wf, codec);
    var near := After(Called(h, wf), h.meanwhile);
    RunKeepsInv(Called(h, wf), h.meanwhile);
    CodecStays(Called(h, wf), h.meanwhile);
    RunEvolves(Called(h, wf), h.meanwhile);
    ReplyDecides(near, |h.near.calls|, Fails(err), h.env);
  }

  /** What the end of a chain replies to a call that it cannot start. */
  lemma RefusedWith(h: Hop, wf: Frame, codec: Codec) returns (err: ConnectionError)
    requires Reached(h, wf, codec) && Refuses(h, wf)
    ensures IsRefusal(h, Renumbered(h, wf), err)
    ensures var req := Renumbered(h, wf);
            && Taken(h, req).tasks == h.far.tasks
            && Taken(h, req).wire == h.far.wire + [Frame(NULL_ID, req.cid, codec.enc(err))]
  {
    var req := Renumbered(h, wf);
    if wf.sid !in h.far.services {
      err := ConnectionError.UnknownService(CallCtx(req));
      CallToUnknownService(h.far, req, h.env);
    } else if h.far.services[wf.sid].PubSub? {
      err := ConnectionError.PubSubNoCall(CallCtx(req));
      CallToPubSub(h.far, req, h.env);
    } else if wf.sid !in h.far.services[wf.sid].handlers {
      err := InternalServerError(CallCtx(req));
      CallWithoutHandler(h.far, req, h.env);
    } else {
      err := ConnectionError.Deserialize(CallCtx(req));
      CallUnreadable(h.far, req, h.env);
    }
  }

  /** The far end does not have the service, or has it for sends only, without a handler, or cannot read the call. */
  predicate Refuses(h: Hop, wf: Frame) {
    wf.sid in h.far.services ==>
      match h.far.services[wf.sid]
      case Services(handlers) => wf.sid !in handlers || !h.env.decodes
      case RelayMap(_) => false
      case PubSub => true
  }

  predicate IsRefusal(h: Hop, req: Frame, err: ConnectionError) {
    if req.sid !in h.far.services then err == ConnectionError.UnknownService(CallCtx(req))
    else
      match h.far.services[req.sid]
      case Services(handlers) =>
        err == if req.sid !in handlers then InternalServerError(CallCtx(req))
               else ConnectionError.Deserialize(CallCtx(req))
      case RelayMap(_) => false
      case PubSub => err == ConnectionError.PubSubNoCall(CallCtx(req))
  }

  /** Behind any number of relays the caller of a service that refuses the call learns just why. */
  lemma CallerSeesRefusal<V>(hops: seq<Hop>, wf: Frame, codec: Codec, provider: Provider, des: seq<byte> -> Option<V>)
    requires hops != [] && RelaysUp(hops, wf, codec) && codec.RoundTrips()
    requires Reached(Last(hops), LastWf(hops, wf), codec) && Refuses(Last(hops), LastWf(hops, wf))
    ensures var status := Through(hops, wf, provider);
            !status.Waiting? &&
            exists err :: IsRefusal(Last(hops), LastRequest(hops, wf), err)
                          && Outcome(des, wf.sid, status) == Err(Remote(Ctx(Some(wf.sid), None), err))
  {
    var err := RefusedWith(Last(hops), LastWf(hops, wf), codec);
    RefusalDecides(Last(hops), LastWf(hops, wf), codec, provider, err);
    PassesBack(hops, wf, codec, provider, Fails(err));
  }

  // ---------------------------------------------------------------- what tasks end with

  /** What a relay task ends with, for every way its call can be decided, is what relay tasks may end with. */
  lemma RelayYields(codec: Codec, req: Frame, q: nat, outcome: Status)
    requires !outcome.Waiting? && (outcome.Answered? ==> outcome.reply.sid == FULL_ID)
    ensures CanYield(codec, RelayWait(req, q), RelayAnswer(codec, req, outcome))
    ensures RelayAnswer(codec, req, outcome) ==
            match outcome
            case Answered(g) => Ok(Answer(Frame(g.sid, req.cid, g.payload)))
            case Failed(err, _) => Ok(Forward(Frame(NULL_ID, req.cid, codec.enc(err))))
            case Expired(sid) => Ok(Forward(Frame(NULL_ID, req.cid, codec.enc(ConnectionError.Timeout(sid)))))
            case _ => Err(PeerErr.RelayGone(Ctx(Some(req.sid), Some(req.cid))))
  {
  }

  /**
   * A served call ends with a reply of full sid, or with one of two errors that name it, and every such end
   * occurs; so do delivery and failed delivery of a send, and relays that are gone.
   */
  lemma ServedYields(codec: Codec, req: Frame, r: Result<Response, PeerErr>, q: nat)
    ensures CanYield(codec, LocalCall(req), r) <==>
            || r == Err(HandlerDead(Ctx(Some(req.sid), Some(req.cid))))
            || r == Err(PeerErr.Serialize(Ctx(Some(req.sid), Some(req.cid))))
            || exists payload :: r == Ok(Answer(Frame(FULL_ID, req.cid, payload)))
    ensures forall t | t in {Deliver(req), RelaySend(req, q)} ::
              CanYield(codec, t, r) <==> r == Ok(Nothing) || r == Err(HandlerDead(Ctx(Some(req.sid), None)))
    ensures CanYield(codec, Broadcast(req), r) <==> r == Ok(Nothing)
    ensures forall t | t in {RelayCall(req, q), RelayWait(req, q)} ::
              CanYield(codec, t, Err(PeerErr.RelayGone(Ctx(Some(req.sid), Some(req.cid)))))
  {
    if CanYield(codec, LocalCall(req), r) && r.Ok? {
      assert r == Ok(Answer(Frame(FULL_ID, req.cid, r.value.wf.payload)));
    }
  }

  // ---------------------------------------------------------------- what the caller's own peer adds

  /** A call whose own connection ends, or that was refused, fails with a closed connection. */
  lemma CloseTellsCallers<V>(s: PeerState, k: nat, remote: bool, env: Env, des: seq<byte> -> Option<V>, sid: u64)
    requires Inv(s) && k < |s.calls| && s.calls[k].status.Waiting?
    ensures var s' := Handle(s, CloseConnection(remote), env);
            && |s'.calls| == |s.calls| && s'.calls[k].status == Cancelled
            && Outcome(des, sid, s'.calls[k].status) == Err(ConnectionClosed(Ctx(Some(sid), None)))
  {
    OwnOutcomes(des, sid, 0, Frame(0, 0, []));
    CloseShape(s, remote, env);
    var s' := HandleClose(s, remote, env);
    assert Handle(s, CloseConnection(remote), env) == s';
    assert s.responses[s.calls[k].frame.cid] == k && k in s.responses.Values;
    assert s'.calls[k] == s.calls[k].(status := Cancelled);
  }

  /** A call that times out here is a timeout; a reply that cannot be read is an error naming it. */
  lemma OwnOutcomes<V>(des: seq<byte> -> Option<V>, sid: u64, late: u64, g: Frame)
    ensures Outcome(des, sid, Expired(late)) == Err(PeerErr.Timeout(Ctx(Some(sid), None)))
    ensures Outcome(des, sid, Cancelled) == Err(ConnectionClosed(Ctx(Some(sid), None)))
    ensures Outcome(des, sid, Refused) == Err(ConnectionClosed(Ctx(Some(sid), None)))
    ensures des(g.payload) == None ==>
              Outcome(des, sid, Answered(g)) == Err(PeerErr.Deserialize(Ctx(Some(sid), Some(g.cid))))
  {
  }

  // ---------------------------------------------------------------- such chains exist, at any depth

  function NewHop(codec: Codec, sm: ServiceMap, sid: u64): Hop {
    Hop(Fresh(codec, false, false, 0, map[]), Fresh(codec, false, false, 0, map[sid := sm]), User,
        Env(None, None, true, true, 0), [], [])
  }

  function NewChain(codec: Codec, sid: u64, relays: nat): (hops: seq<Hop>)
    ensures |hops| == relays + 1
  {
    if relays == 0 then [NewHop(codec, Services({sid}), sid)]
    else [NewHop(codec, RelayMap(Address(0)), sid)] + NewChain(codec, sid, relays - 1)
  }

  lemma NewHopIsUp(codec: Codec, sm: ServiceMap, wf: Frame)
    requires !IsReply(wf) && Serves(sm, wf.sid)
    ensures Up(NewHop(codec, sm, wf.sid), wf, codec)
  {
    var h := NewHop(codec, sm, wf.sid);
    CallShape(h.near, wf, h.caller, h.env);
    assert !Taken(h, Renumbered(h, wf)).closed;
  }

  lemma {:induction false} NewChainIsUp(codec: Codec, wf: Frame, relays: nat)
    requires !IsReply(wf)
    ensures AllUp(NewChain(codec, wf.sid, relays), wf, codec)
    decreases relays
  {
    var hops := NewChain(codec, wf.sid, relays);
    NewHopIsUp(codec, hops[0].far.services[wf.sid], wf);
    if relays > 0 {
      NewChainIsUp(codec, Renumbered(hops[0], wf), relays - 1);
      assert hops[1..] == NewChain(codec, wf.sid, relays - 1);
    }
  }
}
