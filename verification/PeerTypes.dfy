/** Errors, messages, tasks and service maps of a peer. */
module PeerTypes {
  import opened Wrappers
  import opened LittleEndian
  import opened WireFormat

  /** The part of an error context that decides what happens next. */
  datatype ErrCtx = Ctx(sid: Option<u64>, cid: Option<u64>)

  /** Errors that travel to the other process. */
  datatype ConnectionError =
    | Deserialize(ctx: ErrCtx)
    | DeserializeWireFormat(source: WireErr)
    | InternalServerError(ctx: ErrCtx)
    | Timeout(sid: u64)
    | UnknownService(ctx: ErrCtx)
    | PubSubNoCall(ctx: ErrCtx)

  /** Serialization of connection errors, any that reads back what it wrote. */
  datatype Codec = Codec(enc: ConnectionError -> seq<byte>, dec: seq<byte> -> Option<ConnectionError>) {
    ghost predicate RoundTrips() {
      forall e :: dec(enc(e)) == Some(e)
    }
  }

  /** Errors of this process. */
  datatype PeerErr =
    | ConnectionClosed(ctx: ErrCtx)
    | Deserialize(ctx: ErrCtx)
    | HandlerDead(ctx: ErrCtx)
    | NoHandler(ctx: ErrCtx)
    | PeerGone(ctx: ErrCtx)
    | RelayGone(ctx: ErrCtx)
    | Remote(ctx: ErrCtx, err: ConnectionError)
    | Serialize(ctx: ErrCtx)
    | Spawn(ctx: ErrCtx)
    | ThesErr(ctx: ErrCtx)
    | Timeout(ctx: ErrCtx)
    | UnknownService(ctx: ErrCtx)
    | WireFormat(ctx: ErrCtx, source: WireErr)
    | PubSubNoCall(ctx: ErrCtx)

  datatype PeerEvent =
    | Closed
    | ClosedByRemote
    | Error(err: PeerErr)
    | RemoteError(remote: ConnectionError)

  /** Who holds the receiving end of an outgoing call: a user, or a relay task serving call `cid` at `peer`. */
  datatype Caller = User | Relay(peer: nat, cid: u64)

  /** Everything a peer handles, one after another. */
  datatype Message =
    | Incoming(msg: Result<Frame, WireErr>)
    | Call(wf: Frame, caller: Caller)
    | Send(wf: Frame)
    | CallResponse(wf: Frame)
    | RequestError(error: PeerErr)
    | TimedOut(cid: u64, sid: u64)
    | CloseConnection(remote: bool)

  /** What a task in the nursery works on. */
  datatype Task =
    | LocalCall(req: Frame)
    | RelayCall(req: Frame, target: nat)      // has yet to ask the relay
    | RelayWait(req: Frame, target: nat)      // waits for the receiver the relay handed out
    | Deliver(wf: Frame)
    | RelaySend(wf: Frame, target: nat)
    | Broadcast(wf: Frame)
    | Timer(cid: u64, sid: u64)

  /** What a task ends with, besides an error: a frame, a reply that frees a slot, or nothing. */
  datatype Response =
    | Forward(wf: Frame)
    | Answer(wf: Frame)
    | Nothing

  datatype ServiceHandler = Address(peer: nat) | Closure

  datatype ServiceMap =
    | Services(handlers: set<u64>)
    | RelayMap(handler: ServiceHandler)
    | PubSub

  /** The state of the channel that a call handed out, with what the sender put in. */
  datatype Status =
    | Refused                                   // the call failed, no receiver was handed out
    | Waiting
    | Answered(reply: Frame)
    | Failed(err: ConnectionError, reply: Frame)
    | Expired(sid: u64)
    | Cancelled

  /** A call as it was put on the wire, who made it and how it stands. */
  datatype CallRecord = CallRecord(frame: Frame, caller: Caller, status: Status)

  /** Answers of the surroundings while one message is handled. */
  datatype Env = Env(
    sendErr: Option<WireErr>,    // of the sink, when a frame is sent
    closeErr: Option<WireErr>,   // of the sink, when it is closed
    spawnOk: bool,               // whether the nursery takes a new task
    decodes: bool,               // whether a service can read its message
    route: nat)                  // the peer a relay closure picks

  function CallCtx(f: Frame): ErrCtx {
    Ctx(Some(f.sid), Some(f.cid))
  }

  function SendCtx(f: Frame): ErrCtx {
    Ctx(Some(f.sid), None)
  }

  // ---------------------------------------------------------------- service maps

  /** The relay that a map leads to. */
  function Relayer(handler: ServiceHandler, env: Env): nat {
    if handler.Address? then handler.peer else env.route
  }

  function CallService(sm: ServiceMap, f: Frame, ctx: ErrCtx, env: Env): Result<Task, PeerErr> {
    match sm
    case Services(handlers) =>
      if f.sid !in handlers then Err(PeerErr.NoHandler(ctx))
      else if !env.decodes then Err(PeerErr.Deserialize(ctx))
      else Ok(LocalCall(f))
    case RelayMap(handler) => Ok(RelayCall(f, Relayer(handler, env)))
    case PubSub => Err(PeerErr.PubSubNoCall(ctx))
  }

  function SendService(sm: ServiceMap, f: Frame, ctx: ErrCtx, env: Env): Result<Task, PeerErr> {
    match sm
    case Services(handlers) =>
      if f.sid !in handlers then Err(PeerErr.NoHandler(ctx))
      else if !env.decodes then Err(PeerErr.Deserialize(ctx))
      else Ok(Deliver(f))
    case RelayMap(handler) => Ok(RelaySend(f, Relayer(handler, env)))
    case PubSub => Ok(Broadcast(f))
  }

  function PrepError(codec: Codec, cid: u64, err: ConnectionError): Frame {
    Frame(NULL_ID, cid, codec.enc(err))
  }

  /** What the other process is told of an error, and whether the connection ends; none for `unreachable!`. */
  function RemoteView(e: PeerErr): Option<(ConnectionError, bool)> {
    match e
    case WireFormat(_, source) => Some((DeserializeWireFormat(source), true))
    case Deserialize(ctx) => Some((ConnectionError.Deserialize(ctx), false))
    case Spawn(ctx) => Some((InternalServerError(ctx), true))
    case RelayGone(ctx) => Some((InternalServerError(ctx), false))
    case NoHandler(ctx) => Some((InternalServerError(ctx), false))
    case HandlerDead(ctx) => Some((InternalServerError(ctx), false))
    case Serialize(ctx) => Some((InternalServerError(ctx), false))
    case UnknownService(ctx) => Some((ConnectionError.UnknownService(ctx), false))
    case PubSubNoCall(ctx) => Some((ConnectionError.PubSubNoCall(ctx), false))
    case _ => None
  }

  /** What the receiver of a decided call yields; none when its sender was dropped or it never was handed out. */
  function Told(outcome: Status): Option<Result<Frame, ConnectionError>>
    requires !outcome.Waiting?
  {
    match outcome
    case Answered(reply) => Some(Ok(reply))
    case Failed(err, _) => Some(Err(err))
    case Expired(sid) => Some(Err(ConnectionError.Timeout(sid)))
    case _ => None
  }

  /** What a relay task ends with once its call is decided: the reply gets the old cid back. */
  function AnswerFrom(codec: Codec, req: Frame, told: Option<Result<Frame, ConnectionError>>)
    : Result<Response, PeerErr>
  {
    match told
    case Some(Ok(reply)) => Ok(Answer(reply.(cid := req.cid)))
    case Some(Err(err)) => Ok(Forward(PrepError(codec, req.cid, err)))
    case None => Err(PeerErr.RelayGone(CallCtx(req)))
  }

  function RelayAnswer(codec: Codec, req: Frame, outcome: Status): Result<Response, PeerErr>
    requires !outcome.Waiting?
  {
    AnswerFrom(codec, req, Told(outcome))
  }

  /** How a task other than a timer may end. */
  predicate CanYield(codec: Codec, t: Task, r: Result<Response, PeerErr>) {
    match t
    case LocalCall(req) =>
      || (r.Ok? && r.value.Answer? && r.value.wf == Frame(FULL_ID, req.cid, r.value.wf.payload))
      || r in {Err(PeerErr.HandlerDead(CallCtx(req))), Err(PeerErr.Serialize(CallCtx(req)))}
    case RelayCall(req, _) => r == Err(PeerErr.RelayGone(CallCtx(req)))
    case RelayWait(req, _) =>
      || (r.Ok? && r.value.Answer? && r.value.wf == Frame(FULL_ID, req.cid, r.value.wf.payload))
      || (r.Ok? && r.value.Forward? && r.value.wf == Frame(NULL_ID, req.cid, r.value.wf.payload))
      || r == Err(PeerErr.RelayGone(CallCtx(req)))
    case Deliver(wf) => r in {Ok(Nothing), Err(PeerErr.HandlerDead(SendCtx(wf)))}
    case RelaySend(wf, _) => r in {Ok(Nothing), Err(PeerErr.HandlerDead(SendCtx(wf)))}
    case Broadcast(_) => r == Ok(Nothing)
    case Timer(_, _) => false
  }

  /** `listen_request_results`: the message a task's result becomes. */
  function ResultMessages(r: Result<Response, PeerErr>): seq<Message> {
    match r
    case Ok(Nothing) => []
    case Ok(Forward(wf)) => [Send(wf)]
    case Ok(Answer(wf)) => [CallResponse(wf)]
    case Err(e) => [RequestError(e)]
  }
}
