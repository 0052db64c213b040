/** The peer as a state and one function per handler: the specification of the class `Peer`. */
module PeerSpec {
  import opened Wrappers
  import opened LittleEndian
  import opened WireFormat
  import opened PeerTypes

  datatype PeerState = PeerState(
    codec: Codec,
    grace: bool,                      // whether closing waits for running tasks
    gated: bool,                      // whether there is a back pressure
    outgoing: bool,                   // whether the sink is there
    addr: bool,                       // whether the own address is there
    closed: bool,
    counter: u64,                     // the next connection id
    services: map<u64, ServiceMap>,
    responses: map<u64, nat>,         // cid to the number of the call whose sender is kept
    tasks: seq<Task>,                 // the nursery
    slots: int,                       // the shared slot counter
    events: seq<PeerEvent>,           // what observers were told
    panicked: bool,                   // an `unreachable!` arm was reached
    wire: seq<Frame>,                 // every frame the sink took
    calls: seq<CallRecord>,           // every call handled while open
    admitted: seq<u64>,               // cids of the incoming calls taken on
    lost: seq<u64>)                   // cids of those whose reply could not be sent any more

  function Fresh(codec: Codec, grace: bool, gated: bool, slots: int, services: map<u64, ServiceMap>): PeerState {
    PeerState(codec, grace, gated, true, true, false, 1, services, map[], [], slots, [], false, [], [],
              [], [])
  }

  predicate IsReply(f: Frame) {
    f.sid == NULL_ID || f.sid == FULL_ID
  }

  /** The calls that tasks are still working on. */
  function TaskCalls(t: Task): seq<u64> {
    match t
    case LocalCall(req) => [req.cid]
    case RelayCall(req, _) => [req.cid]
    case RelayWait(req, _) => [req.cid]
    case _ => []
  }

  function Running(tasks: seq<Task>): seq<u64> {
    if tasks == [] then [] else Running(tasks[..|tasks| - 1]) + TaskCalls(tasks[|tasks| - 1])
  }

  predicate Sends(s: PeerState, env: Env) {
    s.outgoing && env.sendErr.None?
  }

  /** A frame goes out, or, if it is a reply, is lost. */
  function Put(s: PeerState, wf: Frame, env: Env): PeerState {
    if Sends(s, env) then s.(wire := s.wire + [wf])
    else if IsReply(wf) then s.(lost := s.lost + [wf.cid])
    else s
  }

  function PutResult(s: PeerState, wf: Frame, env: Env): Result<(), PeerErr> {
    if !s.outgoing then Err(PeerErr.ConnectionClosed(Ctx(None, None)))
    else match env.sendErr
         case Some(e) => Err(PeerErr.WireFormat(CallCtx(wf), e))
         case None => Ok(())
  }

  /** Only a waiting receiver can still be told something. */
  function SetStatus(calls: seq<CallRecord>, k: nat, status: Status): seq<CallRecord> {
    if k < |calls| && calls[k].status.Waiting? then calls[k := calls[k].(status := status)] else calls
  }

  /** Takes the sender kept under `cid` and uses it. */
  function Resolve(s: PeerState, cid: u64, status: Status): PeerState {
    if cid !in s.responses then s
    else s.(responses := s.responses - {cid}, calls := SetStatus(s.calls, s.responses[cid], status))
  }

  /** Dropping senders wakes their receivers with an error. */
  function Drop(calls: seq<CallRecord>, senders: set<nat>): (r: seq<CallRecord>)
    ensures |r| == |calls|
    ensures forall k | 0 <= k < |calls| ::
              r[k] == if k in senders && calls[k].status.Waiting? then calls[k].(status := Cancelled) else calls[k]
  {
    if calls == [] then []
    else
      var n := |calls| - 1;
      Drop(calls[..n], senders)
      + [if n in senders && calls[n].status.Waiting? then calls[n].(status := Cancelled) else calls[n]]
  }

  // ---------------------------------------------------------------- handlers

  /** Observers are told, and the sink is closed. */
  function CloseSink(s: PeerState, remote: bool, env: Env): PeerState {
    var told := s.events + [if remote then ClosedByRemote else Closed];
    s.(closed := true,
       outgoing := false,
       events := if s.outgoing && env.closeErr.Some?
                 then told + [PeerEvent.Error(PeerErr.WireFormat(Ctx(None, None), env.closeErr.value))]
                 else told)
  }

  /** Without a grace period the running tasks are dropped at once. */
  function DropTasks(s: PeerState): PeerState {
    if s.grace then s.(addr := false)
    else s.(addr := false, tasks := [], lost := s.lost + Running(s.tasks))
  }

  function ClearTables(s: PeerState): PeerState {
    s.(services := map[], responses := map[], calls := Drop(s.calls, s.responses.Values))
  }

  function HandleClose(s: PeerState, remote: bool, env: Env): PeerState {
    ClearTables(DropTasks(CloseSink(s, remote, env)))
  }

  function SendErr(s: PeerState, cid: u64, err: ConnectionError, close: bool, env: Env): PeerState {
    var s' := Put(s, PrepError(s.codec, cid, err), env);
    if s.outgoing && close then HandleClose(s', false, env) else s'
  }

  function HandleRequestError(s: PeerState, e: PeerErr, env: Env): PeerState {
    var told := s.(events := s.events + [PeerEvent.Error(e)]);
    match e.ctx.cid
    case None => told
    case Some(cid) =>
      match RemoteView(e)
      case Some((err, close)) => SendErr(told, cid, err, close, env)
      case None => told.(panicked := true)
  }

  function HandleSend(s: PeerState, wf: Frame, env: Env): PeerState {
    Put(s, wf, env)
  }

  function HandleCallResponse(s: PeerState, wf: Frame, env: Env): PeerState {
    var s' := Put(s, wf, env);
    if s.gated then s'.(slots := s'.slots + 1) else s'
  }

  function HandleTimeout(s: PeerState, cid: u64, sid: u64): PeerState {
    Resolve(s, cid, Expired(sid))
  }

  /** `fetch_add` wraps; a zero is taken and thrown away. */
  function NextCid(counter: u64): u64 {
    if counter == NULL_ID then 1 else counter
  }

  function Increment(counter: u64): u64 {
    if counter == FULL_ID then 0 else counter + 1
  }

  /** The sender that an entry for `cid` would displace. */
  function Displaced(responses: map<u64, nat>, cid: u64): set<nat> {
    if cid in responses then {responses[cid]} else {}
  }

  /** A timer is started and the sender kept; an entry in its way is dropped. */
  function Register(s: PeerState, frame: Frame, caller: Caller): (PeerState, nat) {
    (s.(tasks := s.tasks + [Timer(frame.cid, frame.sid)],
        calls := Drop(s.calls, Displaced(s.responses, frame.cid)) + [CallRecord(frame, caller, Waiting)],
        responses := s.responses[frame.cid := |s.calls|]),
     |s.calls|)
  }

  function HandleCall(s: PeerState, wf: Frame, caller: Caller, env: Env): (PeerState, Result<nat, PeerErr>) {
    if s.closed then (s, Err(PeerErr.ConnectionClosed(Ctx(None, None))))
    else
      var cid := NextCid(s.counter);
      var frame := wf.(cid := cid);
      var s1 := s.(counter := Increment(cid));
      match PutResult(s1, frame, env)
      case Err(e) => (s1.(calls := s1.calls + [CallRecord(frame, caller, Refused)]), Err(e))
      case Ok(_) =>
        var s2 := s1.(wire := s1.wire + [frame]);
        if !env.spawnOk then
          (s2.(calls := s2.calls + [CallRecord(frame, caller, Refused)]), Err(PeerErr.Spawn(SendCtx(wf))))
        else
          var (s3, receiver) := Register(s2, frame, caller);
          (s3, Ok(receiver))
  }

  function RemoteConnErr(s: PeerState, f: Frame): PeerState {
    match s.codec.dec(f.payload)
    case Some(err) =>
      if f.cid in s.responses then Resolve(s, f.cid, Failed(err, f))
      else s.(events := s.events + [RemoteError(err)])
    case None =>
      s.(events := s.events + [PeerEvent.Error(PeerErr.Deserialize(Ctx(None, Some(f.cid))))])
  }

  /** The task for an incoming send, or the error that is reported; none where the source has `unreachable!`. */
  function StartSend(services: map<u64, ServiceMap>, f: Frame, env: Env): Option<Result<Task, PeerErr>> {
    if f.sid !in services then Some(Err(PeerErr.UnknownService(SendCtx(f))))
    else
      match SendService(services[f.sid], f, SendCtx(f), env)
      case Ok(task) => Some(if env.spawnOk then Ok(task) else Err(PeerErr.Spawn(SendCtx(f))))
      case Err(NoHandler(_)) => Some(Err(PeerErr.NoHandler(SendCtx(f))))
      case Err(Deserialize(_)) => Some(Err(PeerErr.Deserialize(SendCtx(f))))
      case Err(_) => None
  }

  /** The task for an incoming call, or the error that is reported. */
  function StartCall(services: map<u64, ServiceMap>, f: Frame, env: Env): Result<Task, PeerErr> {
    if f.sid !in services then Err(PeerErr.UnknownService(CallCtx(f)))
    else
      match CallService(services[f.sid], f, CallCtx(f), env)
      case Ok(task) => if env.spawnOk then Ok(task) else Err(PeerErr.Spawn(CallCtx(f)))
      case Err(e) => Err(e)
  }

  function HandleIncomingSend(s: PeerState, f: Frame, env: Env): PeerState {
    match StartSend(s.services, f, env)
    case Some(Ok(task)) => s.(tasks := s.tasks + [task])
    case Some(Err(e)) => HandleRequestError(s, e, env)
    case None => s.(panicked := true)
  }

  /** An incoming call takes a slot. */
  function Admit(s: PeerState, cid: u64): PeerState {
    s.(slots := if s.gated then s.slots - 1 else s.slots, admitted := s.admitted + [cid])
  }

  function HandleIncomingCall(s: PeerState, f: Frame, env: Env): PeerState {
    var s' := Admit(s, f.cid);
    match StartCall(s'.services, f, env)
    case Ok(task) => s'.(tasks := s'.tasks + [task])
    case Err(e) => HandleRequestError(s', e, env)
  }

  function HandleIncoming(s: PeerState, msg: Result<Frame, WireErr>, env: Env): PeerState {
    if s.closed then s
    else
      match msg
      case Err(e) => HandleRequestError(s, PeerErr.WireFormat(Ctx(None, None), e), env)
      case Ok(f) =>
        match Kind(f)
        case ErrorReply => RemoteConnErr(s, f)
        case IncomingSend => HandleIncomingSend(s, f, env)
        case IncomingCall => HandleIncomingCall(s, f, env)
        case CallReply => Resolve(s, f.cid, Answered(f))
  }

  function Handle(s: PeerState, m: Message, env: Env): PeerState {
    match m
    case Incoming(msg) => HandleIncoming(s, msg, env)
    case Call(wf, caller) => HandleCall(s, wf, caller, env).0
    case Send(wf) => HandleSend(s, wf, env)
    case CallResponse(wf) => HandleCallResponse(s, wf, env)
    case RequestError(e) => HandleRequestError(s, e, env)
    case TimedOut(cid, sid) => HandleTimeout(s, cid, sid)
    case CloseConnection(remote) => HandleClose(s, remote, env)
  }
}
