/** What one handled message changes, in the few shapes that the later proofs distinguish. */
module PeerShape {
  import opened Wrappers
  import opened LittleEndian
  import opened WireFormat
  import opened PeerTypes
  import opened PeerSpec

  // ---------------------------------------------------------------- the table of calls

  /** Nothing about calls and connection changes. */
  predicate Calm(s: PeerState, s': PeerState) {
    && s'.calls == s.calls && s'.responses == s.responses && s'.counter == s.counter
    && s'.closed == s.closed && s'.outgoing == s.outgoing && s'.addr == s.addr && s'.services == s.services
  }

  /** The connection ends. */
  predicate Closing(s: PeerState, s': PeerState) {
    && s'.calls == Drop(s.calls, s.responses.Values) && s'.responses == map[] && s'.counter == s.counter
    && s'.closed && !s'.outgoing && !s'.addr && s'.services == map[]
  }

  /** The connection stays as it is. */
  predicate SameConnection(s: PeerState, s': PeerState) {
    s'.closed == s.closed && s'.outgoing == s.outgoing && s'.addr == s.addr && s'.services == s.services
  }

  /** The sender kept under `cid`, if there is one, is used. */
  predicate Resolving(s: PeerState, s': PeerState, cid: u64, status: Status) {
    if cid !in s.responses then Calm(s, s')
    else
      && s'.responses == s.responses - {cid}
      && s'.calls == SetStatus(s.calls, s.responses[cid], status)
      && s'.counter == s.counter && SameConnection(s, s')
  }

  /** A call failed: it is on record, but no receiver is handed out. */
  predicate Refusing(s: PeerState, s': PeerState, frame: Frame, caller: Caller) {
    s'.calls == s.calls + [CallRecord(frame, caller, Refused)] && s'.responses == s.responses
  }

  /** A call went out and its sender is kept; an entry in its way is dropped. */
  predicate Registering(s: PeerState, s': PeerState, frame: Frame, caller: Caller) {
    && s'.calls == Drop(s.calls, Displaced(s.responses, frame.cid)) + [CallRecord(frame, caller, Waiting)]
    && s'.responses == s.responses[frame.cid := |s.calls|]
  }

  /** An open peer handles a call. */
  predicate Calling(s: PeerState, s': PeerState, wf: Frame, caller: Caller) {
    var frame := wf.(cid := NextCid(s.counter));
    && s'.counter == Increment(frame.cid) && SameConnection(s, s')
    && (|| Refusing(s, s', frame, caller)
        || (&& Registering(s, s', frame, caller)
            && s'.wire == s.wire + [frame]
            && s'.tasks == s.tasks + [Timer(frame.cid, frame.sid)]))
  }

  datatype Shape = Steady | Resolves(cid: u64, status: Status) | Calls

  /** Which of the shapes a message has. */
  function ShapeOf(s: PeerState, m: Message): Shape {
    match m
    case Incoming(Ok(f)) =>
      if s.closed then Steady
      else if Kind(f).CallReply? then Resolves(f.cid, Answered(f))
      else if Kind(f).ErrorReply? && s.codec.dec(f.payload).Some? && f.cid in s.responses
      then Resolves(f.cid, Failed(s.codec.dec(f.payload).value, f))
      else Steady
    case TimedOut(cid, sid) => Resolves(cid, Expired(sid))
    case Call(_, _) => if s.closed then Steady else Calls
    case _ => Steady
  }

  predicate HasShape(s: PeerState, m: Message, s': PeerState) {
    match ShapeOf(s, m)
    case Steady => Calm(s, s') || Closing(s, s')
    case Resolves(cid, status) => Resolving(s, s', cid, status)
    case Calls => m.Call? && Calling(s, s', m.wf, m.caller)
  }

  // ---------------------------------------------------------------- wire, tasks, slots

  /** The call that a message asks an open peer to take on. */
  predicate TakesCall(s: PeerState, m: Message) {
    m.Incoming? && m.msg.Ok? && !s.closed && Kind(m.msg.value).IncomingCall?
  }

  /** `g` tells the other end of an error about call `f`. */
  ghost predicate TellsError(codec: Codec, f: Frame, g: Frame) {
    exists e: PeerErr ::
      e.ctx == CallCtx(f) && RemoteView(e).Some? && g == PrepError(codec, f.cid, RemoteView(e).value.0)
  }

  /** The only frame that handling `m` can put on the wire. */
  ghost predicate MayPut(s: PeerState, m: Message, g: Frame) {
    match m
    case Send(wf) => g == wf
    case CallResponse(wf) => g == wf
    case RequestError(e) =>
      e.ctx.cid.Some? && RemoteView(e).Some? && g == PrepError(s.codec, e.ctx.cid.value, RemoteView(e).value.0)
    case Call(wf, _) => !s.closed && g == wf.(cid := NextCid(s.counter))
    case Incoming(_) => TakesCall(s, m) && TellsError(s.codec, m.msg.value, g)
    case _ => false
  }

  ghost predicate WireGrows(s: PeerState, m: Message, s': PeerState) {
    || s'.wire == s.wire
    || (s.outgoing && |s'.wire| > 0
        && var g := s'.wire[|s'.wire| - 1];
           s'.wire == s.wire + [g] && MayPut(s, m, g))
  }

  /** `q` is a relay for service `sid`: the one its map names, or any, if the map leaves that to a closure. */
  predicate Routes(services: map<u64, ServiceMap>, sid: u64, q: nat) {
    && sid in services && services[sid].RelayMap?
    && (services[sid].handler.Address? ==> services[sid].handler.peer == q)
  }

  /** A task for call `f`. */
  predicate WorksOn(services: map<u64, ServiceMap>, f: Frame, t: Task) {
    t == LocalCall(f) || (t.RelayCall? && t.req == f && Routes(services, f.sid, t.target))
  }

  /** A task for send `f`. */
  predicate PassesOn(services: map<u64, ServiceMap>, f: Frame, t: Task) {
    t in {Deliver(f), Broadcast(f)} || (t.RelaySend? && t.wf == f && Routes(services, f.sid, t.target))
  }

  /** The only task that handling `m` can start. */
  predicate MayStart(s: PeerState, m: Message, t: Task) {
    match m
    case Incoming(Ok(f)) =>
      || (Kind(f).IncomingCall? && WorksOn(s.services, f, t))
      || (Kind(f).IncomingSend? && PassesOn(s.services, f, t))
    case Call(wf, _) => t == Timer(NextCid(s.counter), wf.sid)
    case _ => false
  }

  predicate TasksGrow(s: PeerState, m: Message, s': PeerState) {
    || s'.tasks == s.tasks
    || (s'.closed && s'.tasks == [])
    || (!s.closed && |s'.tasks| > 0
        && var t := s'.tasks[|s'.tasks| - 1];
           s'.tasks == s.tasks + [t] && MayStart(s, m, t))
  }

  /** The counters and settings of a handler that only reports: errors, sends and closing. */
  ghost predicate Aside(s: PeerState, s': PeerState) {
    && s'.codec == s.codec && s'.gated == s.gated && s'.grace == s.grace
    && s'.slots == s.slots && s'.admitted == s.admitted
  }

  /** No reply was lost and no arm was missing. */
  predicate Quiet(s: PeerState, s': PeerState) {
    s'.lost == s.lost && s'.panicked == s.panicked
  }

  lemma PutShape(s: PeerState, wf: Frame, env: Env)
    ensures var s' := Put(s, wf, env);
            && Calm(s, s') && Aside(s, s') && s'.tasks == s.tasks
            && (s'.wire == s.wire || (s.outgoing && s'.wire == s.wire + [wf]))
  {
    if Sends(s, env) {
      assert Put(s, wf, env) == s.(wire := s.wire + [wf]);
    } else if IsReply(wf) {
      assert Put(s, wf, env) == s.(lost := s.lost + [wf.cid]);
    }
  }

  lemma CloseShape(s: PeerState, remote: bool, env: Env)
    ensures var s' := HandleClose(s, remote, env);
            Closing(s, s') && Aside(s, s') && s'.tasks == (if s.grace then s.tasks else []) && s'.wire == s.wire
  {
  }

  /** What sending an error reply can do: the reply goes out or not, and the connection ends or not. */
  ghost predicate Reporting(s: PeerState, s': PeerState, msg: Frame) {
    && (Calm(s, s') || Closing(s, s')) && Aside(s, s')
    && (s'.tasks == s.tasks || (s'.closed && s'.tasks == []))
    && (s'.wire == s.wire || (s.outgoing && s'.wire == s.wire + [msg]))
  }

  lemma SendErrShape(s: PeerState, cid: u64, err: ConnectionError, close: bool, env: Env)
    ensures Reporting(s, SendErr(s, cid, err, close, env), PrepError(s.codec, cid, err))
  {
    var msg := PrepError(s.codec, cid, err);
    PutShape(s, msg, env);
    CloseShape(Put(s, msg, env), false, env);
  }

  lemma ReportingAfterEvent(s: PeerState, told: PeerState, s': PeerState, e: PeerErr, err: ConnectionError)
    requires told == s.(events := told.events) && e.ctx.cid.Some? && RemoteView(e).Some?
    requires err == RemoteView(e).value.0
    requires Reporting(told, s', PrepError(told.codec, e.ctx.cid.value, err))
    ensures Reporting(s, s', PrepError(s.codec, e.ctx.cid.value, err))
    ensures WireGrows(s, RequestError(e), s')
  {
  }

  lemma RequestErrorShape(s: PeerState, e: PeerErr, env: Env)
    ensures var s' := HandleRequestError(s, e, env);
            && (Calm(s, s') || Closing(s, s')) && Aside(s, s')
            && (s'.tasks == s.tasks || (s'.closed && s'.tasks == []))
            && WireGrows(s, RequestError(e), s')
            && (e.ctx.cid.None? ==> Calm(s, s') && s'.wire == s.wire)
  {
    var told := s.(events := s.events + [PeerEvent.Error(e)]);
    if e.ctx.cid.Some? && RemoteView(e).Some? {
      var (err, close) := RemoteView(e).value;
      var s' := SendErr(told, e.ctx.cid.value, err, close, env);
      SendErrShape(told, e.ctx.cid.value, err, close, env);
      ReportingAfterEvent(s, told, s', e, err);
      assert HandleRequestError(s, e, env) == s';
    } else {
      assert HandleRequestError(s, e, env) == told.(panicked := s.panicked || e.ctx.cid.Some?);
    }
  }

  lemma StartSendShape(services: map<u64, ServiceMap>, f: Frame, env: Env)
    requires Kind(f).IncomingSend?
    ensures match StartSend(services, f, env)
            case Some(Ok(t)) => PassesOn(services, f, t)
            case Some(Err(e)) => e.ctx.cid.None?
            case None => false
  {
  }

  lemma StartCallShape(services: map<u64, ServiceMap>, f: Frame, env: Env)
    ensures match StartCall(services, f, env)
            case Ok(t) => WorksOn(services, f, t)
            case Err(e) => e.ctx == CallCtx(f) && RemoteView(e).Some?
  {
  }

  lemma TaskStarted(s: PeerState, m: Message, t: Task)
    requires !s.closed && MayStart(s, m, t)
    ensures var s' := s.(tasks := s.tasks + [t]);
            Calm(s, s') && Aside(s, s') && s'.wire == s.wire && TasksGrow(s, m, s')
  {
  }

  lemma IncomingSendShape(s: PeerState, f: Frame, env: Env)
    requires !s.closed && Kind(f).IncomingSend?
    ensures var s' := HandleIncomingSend(s, f, env);
            Calm(s, s') && Aside(s, s') && s'.wire == s.wire && TasksGrow(s, Incoming(Ok(f)), s')
  {
    StartSendShape(s.services, f, env);
    match StartSend(s.services, f, env)
    case Some(Ok(t)) => TaskStarted(s, Incoming(Ok(f)), t);
    case Some(Err(e)) => RequestErrorShape(s, e, env);
  }

  /** An error reply to an incoming call is what handling the call may put on the wire. */
  lemma ErrorReplyToCall(s: PeerState, f: Frame, e: PeerErr, s': PeerState)
    requires !s.closed && Kind(f).IncomingCall? && e.ctx == CallCtx(f)
    requires WireGrows(s, RequestError(e), s')
    ensures WireGrows(s, Incoming(Ok(f)), s')
  {
  }

  lemma IncomingCallShape(s: PeerState, f: Frame, env: Env)
    requires !s.closed && Kind(f).IncomingCall?
    ensures var s' := HandleIncomingCall(s, f, env);
            && (Calm(s, s') || Closing(s, s'))
            && Aside(Admit(s, f.cid), s')
            && WireGrows(s, Incoming(Ok(f)), s') && TasksGrow(s, Incoming(Ok(f)), s')
  {
    var a := Admit(s, f.cid);
    StartCallShape(s.services, f, env);
    match StartCall(s.services, f, env)
    case Ok(t) => TaskStarted(a, Incoming(Ok(f)), t);
    case Err(e) =>
      RequestErrorShape(a, e, env);
      ErrorReplyToCall(a, f, e, HandleRequestError(a, e, env));
  }

  /** What one handled message does to the connection, the calls, the wire, the tasks and the slots. */
  ghost predicate Effects(s: PeerState, m: Message, s': PeerState) {
    var taken := if TakesCall(s, m) then 1 else 0;
    var freed := if m.CallResponse? then 1 else 0;
    && HasShape(s, m, s')
    && WireGrows(s, m, s')
    && TasksGrow(s, m, s')
    && s'.codec == s.codec && s'.gated == s.gated && s'.grace == s.grace
    && s'.slots == (if s.gated then s.slots - taken + freed else s.slots)
    && s'.admitted == (if TakesCall(s, m) then s.admitted + [m.msg.value.cid] else s.admitted)
  }

  lemma RegisterShape(s: PeerState, frame: Frame, caller: Caller)
    ensures var s' := Register(s, frame, caller).0;
            && s'.tasks == s.tasks + [Timer(frame.cid, frame.sid)]
            && Registering(s, s', frame, caller)
            && s' == s.(tasks := s'.tasks, calls := s'.calls, responses := s'.responses)
  {
  }

  lemma CallShape(s: PeerState, wf: Frame, caller: Caller, env: Env)
    requires !s.closed
    ensures var cid := NextCid(s.counter);
            var s' := HandleCall(s, wf, caller, env).0;
            && Aside(s, s') && Quiet(s, s') && Calling(s, s', wf, caller)
            && (s'.wire == s.wire || (s.outgoing && s'.wire == s.wire + [wf.(cid := cid)]))
            && (s'.tasks == s.tasks || s'.tasks == s.tasks + [Timer(cid, wf.sid)])
  {
    var frame := wf.(cid := NextCid(s.counter));
    var s1 := s.(counter := Increment(frame.cid));
    var s' := HandleCall(s, wf, caller, env).0;
    if PutResult(s1, frame, env).Err? {
      assert s' == s1.(calls := s.calls + [CallRecord(frame, caller, Refused)]);
    } else {
      var s2 := s1.(wire := s.wire + [frame]);
      if env.spawnOk {
        RegisterShape(s2, frame, caller);
        assert s' == Register(s2, frame, caller).0;
      } else {
        assert s' == s2.(calls := s.calls + [CallRecord(frame, caller, Refused)]);
      }
    }
  }

  lemma CallEffects(s: PeerState, wf: Frame, caller: Caller, env: Env)
    ensures Effects(s, Call(wf, caller), HandleCall(s, wf, caller, env).0)
  {
    if !s.closed {
      CallShape(s, wf, caller, env);
    }
  }

  lemma SendEffects(s: PeerState, wf: Frame, env: Env)
    ensures Effects(s, Send(wf), HandleSend(s, wf, env))
  {
    PutShape(s, wf, env);
  }

  lemma CallResponseEffects(s: PeerState, wf: Frame, env: Env)
    ensures Effects(s, CallResponse(wf), HandleCallResponse(s, wf, env))
  {
    PutShape(s, wf, env);
  }

  lemma RequestErrorEffects(s: PeerState, e: PeerErr, env: Env)
    ensures Effects(s, RequestError(e), HandleRequestError(s, e, env))
  {
    RequestErrorShape(s, e, env);
  }

  lemma CloseEffects(s: PeerState, remote: bool, env: Env)
    ensures Effects(s, CloseConnection(remote), HandleClose(s, remote, env))
  {
    CloseShape(s, remote, env);
  }

  lemma ResolveShape(s: PeerState, cid: u64, status: Status)
    ensures var s' := Resolve(s, cid, status);
            Resolving(s, s', cid, status) && Aside(s, s') && Quiet(s, s') && s'.wire == s.wire && s'.tasks == s.tasks
  {
  }

  lemma ErrorReplyShape(s: PeerState, f: Frame)
    ensures var s' := RemoteConnErr(s, f);
            && Aside(s, s') && Quiet(s, s') && s'.wire == s.wire && s'.tasks == s.tasks
            && (if s.codec.dec(f.payload).Some? && f.cid in s.responses
                then Resolving(s, s', f.cid, Failed(s.codec.dec(f.payload).value, f)) else Calm(s, s'))
  {
    if s.codec.dec(f.payload).Some? && f.cid in s.responses {
      ResolveShape(s, f.cid, Failed(s.codec.dec(f.payload).value, f));
    } else {
      assert RemoteConnErr(s, f) == s.(events := RemoteConnErr(s, f).events);
    }
  }

  lemma ReplyEffects(s: PeerState, f: Frame, env: Env)
    requires !s.closed && (Kind(f).ErrorReply? || Kind(f).CallReply?)
    ensures Effects(s, Incoming(Ok(f)), HandleIncoming(s, Ok(f), env))
  {
    if Kind(f).CallReply? {
      ResolveShape(s, f.cid, Answered(f));
    } else {
      ErrorReplyShape(s, f);
    }
  }

  lemma CodecErrorEffects(s: PeerState, source: WireErr, env: Env)
    requires !s.closed
    ensures Effects(s, Incoming(Err(source)), HandleIncoming(s, Err(source), env))
  {
    var e := PeerErr.WireFormat(Ctx(None, None), source);
    RequestErrorShape(s, e, env);
    assert HandleIncoming(s, Err(source), env) == HandleRequestError(s, e, env);
  }

  lemma IncomingSendEffects(s: PeerState, f: Frame, env: Env)
    requires !s.closed && Kind(f).IncomingSend?
    ensures Effects(s, Incoming(Ok(f)), HandleIncoming(s, Ok(f), env))
  {
    IncomingSendShape(s, f, env);
    assert HandleIncoming(s, Ok(f), env) == HandleIncomingSend(s, f, env);
  }

  lemma IncomingCallEffects(s: PeerState, f: Frame, env: Env)
    requires !s.closed && Kind(f).IncomingCall?
    ensures Effects(s, Incoming(Ok(f)), HandleIncoming(s, Ok(f), env))
  {
    IncomingCallShape(s, f, env);
    assert HandleIncoming(s, Ok(f), env) == HandleIncomingCall(s, f, env);
  }

  lemma IncomingEffects(s: PeerState, msg: Result<Frame, WireErr>, env: Env)
    ensures Effects(s, Incoming(msg), HandleIncoming(s, msg, env))
  {
    if s.closed {
      assert HandleIncoming(s, msg, env) == s;
    } else if msg.Err? {
      CodecErrorEffects(s, msg.error, env);
    } else {
      var f := msg.value;
      match Kind(f)
      case IncomingSend => IncomingSendEffects(s, f, env);
      case IncomingCall => IncomingCallEffects(s, f, env);
      case _ => ReplyEffects(s, f, env);
    }
  }

  lemma HandleEffects(s: PeerState, m: Message, env: Env)
    ensures Effects(s, m, Handle(s, m, env))
  {
    match m
    case Incoming(msg) => IncomingEffects(s, msg, env);
    case Call(wf, caller) => CallEffects(s, wf, caller, env);
    case Send(wf) => SendEffects(s, wf, env);
    case CallResponse(wf) => CallResponseEffects(s, wf, env);
    case RequestError(e) => RequestErrorEffects(s, e, env);
    case TimedOut(cid, sid) => ResolveShape(s, cid, Expired(sid));
    case CloseConnection(remote) => CloseEffects(s, remote, env);
  }

  lemma FailingErrorSendsNothing(s: PeerState, e: PeerErr, env: Env)
    requires env.sendErr.Some?
    ensures HandleRequestError(s, e, env).wire == s.wire
  {
    var told := s.(events := s.events + [PeerEvent.Error(e)]);
    if e.ctx.cid.Some? && RemoteView(e).Some? {
      var (err, close) := RemoteView(e).value;
      var s1 := Put(told, PrepError(s.codec, e.ctx.cid.value, err), env);
      CloseShape(s1, false, env);
      assert HandleRequestError(s, e, env) == if s.outgoing && close then HandleClose(s1, false, env) else s1;
    }
  }

  lemma FailingIncomingSendsNothing(s: PeerState, msg: Result<Frame, WireErr>, env: Env)
    requires env.sendErr.Some?
    ensures HandleIncoming(s, msg, env).wire == s.wire
  {
    if !s.closed && msg.Ok? {
      var f := msg.value;
      match Kind(f)
      case IncomingSend => IncomingSendShape(s, f, env);
      case IncomingCall =>
        var a := Admit(s, f.cid);
        var start := StartCall(s.services, f, env);
        if start.Err? {
          FailingErrorSendsNothing(a, start.error, env);
        }
      case CallReply => ResolveShape(s, f.cid, Answered(f));
      case ErrorReply => ErrorReplyShape(s, f);
    } else if !s.closed {
      FailingErrorSendsNothing(s, PeerErr.WireFormat(Ctx(None, None), msg.error), env);
    }
  }

  /** A message handled while the sink fails puts nothing on the wire. */
  lemma FailingSendsNothing(s: PeerState, m: Message, env: Env)
    requires env.sendErr.Some?
    ensures Handle(s, m, env).wire == s.wire
  {
    match m
    case Incoming(msg) => FailingIncomingSendsNothing(s, msg, env);
    case Call(wf, caller) =>
      if !s.closed {
        assert PutResult(s.(counter := Increment(NextCid(s.counter))), wf.(cid := NextCid(s.counter)), env).Err?;
      }
    case RequestError(e) => FailingErrorSendsNothing(s, e, env);
    case TimedOut(cid, sid) => ResolveShape(s, cid, Expired(sid));
    case CloseConnection(remote) => CloseShape(s, remote, env);
    case _ =>
  }
}
