/** What one message comes to, case by case, in terms of what arrived and what is registered. */
module PeerOutcomes {
  import opened Wrappers
  import opened LittleEndian
  import opened WireFormat
  import opened PeerTypes
  import opened PeerSpec
  import opened PeerShape
  import opened PeerProps

  // ---------------------------------------------------------------- incoming calls

  /** An open peer with a working sink gets a call. */
  predicate GetsCall(s: PeerState, f: Frame, env: Env) {
    && Inv(s) && !s.closed && env.sendErr.None?
    && f.sid != NULL_ID && f.sid != FULL_ID && f.cid != NULL_ID
  }

  /** The call was taken on, failed with `e`, and the other end is told `err` about it. */
  ghost predicate FailsWith(s: PeerState, s': PeerState, f: Frame, e: PeerErr, err: ConnectionError) {
    && s'.wire == s.wire + [Frame(NULL_ID, f.cid, s.codec.enc(err))]
    && |s'.events| > |s.events| && s'.events[..|s.events| + 1] == s.events + [PeerEvent.Error(e)]
    && s'.admitted == s.admitted + [f.cid]
  }

  /** Nothing else came of it. */
  predicate StaysOpen(s: PeerState, s': PeerState) {
    && s'.tasks == s.tasks && s'.calls == s.calls && s'.responses == s.responses && s'.services == s.services
    && !s'.closed && |s'.events| == |s.events| + 1
  }

  lemma CallFails(s: PeerState, f: Frame, env: Env, e: PeerErr, err: ConnectionError, close: bool)
    requires GetsCall(s, f, env) && StartCall(s.services, f, env) == Err(e)
    requires e.ctx == CallCtx(f) && RemoteView(e) == Some((err, close))
    ensures var s' := Handle(s, Incoming(Ok(f)), env);
            && FailsWith(s, s', f, e, err)
            && (if close then Shut(s') else StaysOpen(s, s'))
  {
    var a := Admit(s, f.cid);
    var told := a.(events := s.events + [PeerEvent.Error(e)]);
    var sent := told.(wire := s.wire + [Frame(NULL_ID, f.cid, s.codec.enc(err))]);
    assert Put(told, PrepError(s.codec, f.cid, err), env) == sent;
    if close {
      assert Handle(s, Incoming(Ok(f)), env) == HandleClose(sent, false, env);
      CloseShape(sent, false, env);
      CloseEvents(sent, false, env);
    } else {
      assert Handle(s, Incoming(Ok(f)), env) == sent;
    }
  }

  lemma CallStarts(s: PeerState, f: Frame, env: Env, t: Task)
    requires GetsCall(s, f, env) && StartCall(s.services, f, env) == Ok(t)
    ensures var s' := Handle(s, Incoming(Ok(f)), env);
            && s'.tasks == s.tasks + [t] && s'.admitted == s.admitted + [f.cid]
            && s'.wire == s.wire && s'.events == s.events && !s'.closed
  {
  }

  lemma CallToUnknownService(s: PeerState, f: Frame, env: Env)
    requires GetsCall(s, f, env) && f.sid !in s.services
    ensures var s' := Handle(s, Incoming(Ok(f)), env);
            && FailsWith(s, s', f, PeerErr.UnknownService(CallCtx(f)), ConnectionError.UnknownService(CallCtx(f)))
            && StaysOpen(s, s')
  {
    CallFails(s, f, env, PeerErr.UnknownService(CallCtx(f)), ConnectionError.UnknownService(CallCtx(f)), false);
  }

  lemma CallWithoutHandler(s: PeerState, f: Frame, env: Env)
    requires GetsCall(s, f, env) && f.sid in s.services
    requires s.services[f.sid].Services? && f.sid !in s.services[f.sid].handlers
    ensures var s' := Handle(s, Incoming(Ok(f)), env);
            && FailsWith(s, s', f, PeerErr.NoHandler(CallCtx(f)), InternalServerError(CallCtx(f)))
            && StaysOpen(s, s')
  {
    CallFails(s, f, env, PeerErr.NoHandler(CallCtx(f)), InternalServerError(CallCtx(f)), false);
  }

  lemma CallUnreadable(s: PeerState, f: Frame, env: Env)
    requires GetsCall(s, f, env) && f.sid in s.services && !env.decodes
    requires s.services[f.sid].Services? && f.sid in s.services[f.sid].handlers
    ensures var s' := Handle(s, Incoming(Ok(f)), env);
            && FailsWith(s, s', f, PeerErr.Deserialize(CallCtx(f)), ConnectionError.Deserialize(CallCtx(f)))
            && StaysOpen(s, s')
  {
    CallFails(s, f, env, PeerErr.Deserialize(CallCtx(f)), ConnectionError.Deserialize(CallCtx(f)), false);
  }

  lemma CallToPubSub(s: PeerState, f: Frame, env: Env)
    requires GetsCall(s, f, env) && f.sid in s.services && s.services[f.sid].PubSub?
    ensures var s' := Handle(s, Incoming(Ok(f)), env);
            && FailsWith(s, s', f, PeerErr.PubSubNoCall(CallCtx(f)), ConnectionError.PubSubNoCall(CallCtx(f)))
            && StaysOpen(s, s')
  {
    CallFails(s, f, env, PeerErr.PubSubNoCall(CallCtx(f)), ConnectionError.PubSubNoCall(CallCtx(f)), false);
  }

  /** A service that would take the call: a handler that can read it, or a relay. */
  predicate Willing(sm: ServiceMap, sid: u64, env: Env) {
    match sm
    case Services(handlers) => sid in handlers && env.decodes
    case RelayMap(_) => true
    case PubSub => false
  }

  /** When no task can be spawned the other end is told, and then the connection ends. */
  lemma CallUnspawned(s: PeerState, f: Frame, env: Env)
    requires GetsCall(s, f, env) && f.sid in s.services && Willing(s.services[f.sid], f.sid, env) && !env.spawnOk
    ensures var s' := Handle(s, Incoming(Ok(f)), env);
            && FailsWith(s, s', f, PeerErr.Spawn(CallCtx(f)), InternalServerError(CallCtx(f)))
            && Shut(s')
  {
    CallFails(s, f, env, PeerErr.Spawn(CallCtx(f)), InternalServerError(CallCtx(f)), true);
  }

  lemma CallServed(s: PeerState, f: Frame, env: Env)
    requires GetsCall(s, f, env) && f.sid in s.services && Willing(s.services[f.sid], f.sid, env) && env.spawnOk
    requires s.services[f.sid].Services?
    ensures var s' := Handle(s, Incoming(Ok(f)), env);
            && s'.tasks == s.tasks + [LocalCall(f)] && s'.admitted == s.admitted + [f.cid]
            && s'.wire == s.wire && s'.events == s.events && !s'.closed
  {
    CallStarts(s, f, env, LocalCall(f));
  }

  /** The address in the map, or what its closure answers. */
  function Picked(handler: ServiceHandler, env: Env): nat {
    match handler
    case Address(q) => q
    case Closure => env.route
  }

  /** A call to a relayed service goes to the relay its map names, or the one the closure of the map picks. */
  lemma CallRelayed(s: PeerState, f: Frame, env: Env)
    requires GetsCall(s, f, env) && f.sid in s.services && env.spawnOk && s.services[f.sid].RelayMap?
    ensures var s' := Handle(s, Incoming(Ok(f)), env);
            && s'.tasks == s.tasks + [RelayCall(f, Picked(s.services[f.sid].handler, env))]
            && s'.admitted == s.admitted + [f.cid]
            && s'.wire == s.wire && s'.events == s.events && !s'.closed
  {
    CallStarts(s, f, env, RelayCall(f, Picked(s.services[f.sid].handler, env)));
  }

  // ---------------------------------------------------------------- incoming sends

  /** A send that can be delivered: its service is here, can read it and can be given a task. */
  predicate Deliverable(services: map<u64, ServiceMap>, f: Frame, env: Env) {
    && f.sid in services && env.spawnOk
    && (services[f.sid].Services? ==> f.sid in services[f.sid].handlers && env.decodes)
  }

  /** The error of a send that cannot be delivered. */
  predicate IsSendError(services: map<u64, ServiceMap>, f: Frame, env: Env, e: PeerErr) {
    var ctx := Ctx(Some(f.sid), None);
    if f.sid !in services then e == PeerErr.UnknownService(ctx)
    else if services[f.sid].Services? && f.sid !in services[f.sid].handlers then e == PeerErr.NoHandler(ctx)
    else if services[f.sid].Services? && !env.decodes then e == PeerErr.Deserialize(ctx)
    else e == PeerErr.Spawn(ctx)
  }

  /**
   * A frame without a connection id is a send: it goes to its handler, its relay or all subscribers if and
   * only if it can be delivered; otherwise the error is an event, and nothing else comes of it.
   */
  lemma SendOutcome(s: PeerState, f: Frame, env: Env)
    requires !s.closed && f.sid != NULL_ID && f.sid != FULL_ID && f.cid == NULL_ID
    ensures var s' := Handle(s, Incoming(Ok(f)), env);
            if Deliverable(s.services, f, env)
            then s' == s.(tasks := s.tasks + [match s.services[f.sid]
                                              case Services(_) => Deliver(f)
                                              case RelayMap(handler) => RelaySend(f, Picked(handler, env))
                                              case PubSub => Broadcast(f)])
            else exists e :: IsSendError(s.services, f, env, e) && s' == s.(events := s.events + [PeerEvent.Error(e)])
  {
    var start := StartSend(s.services, f, env);
    if Deliverable(s.services, f, env) {
      assert start.Some? && start.value.Ok?;
    } else {
      var e := start.value.error;
      assert IsSendError(s.services, f, env, e);
      assert Handle(s, Incoming(Ok(f)), env) == HandleRequestError(s, e, env);
    }
  }

  // ---------------------------------------------------------------- errors of tasks

  /**
   * What the other end is told when the task of a call fails, and whether the connection ends; for five
   * errors the source has no arm.
   */
  lemma TaskErrorOutcome(s: PeerState, e: PeerErr, env: Env, cid: u64)
    requires Inv(s) && !s.closed && env.sendErr.None? && e.ctx.cid == Some(cid)
    ensures var s' := Handle(s, RequestError(e), env);
            && (e.WireFormat? ==> Tells(s, s', cid, DeserializeWireFormat(e.source)) && s'.closed)
            && (e.Spawn? ==> Tells(s, s', cid, InternalServerError(e.ctx)) && s'.closed)
            && (e.Deserialize? ==> Tells(s, s', cid, ConnectionError.Deserialize(e.ctx)) && !s'.closed)
            && (e.RelayGone? || e.NoHandler? || e.HandlerDead? || e.Serialize? ==>
                  Tells(s, s', cid, InternalServerError(e.ctx)) && !s'.closed)
            && (e.UnknownService? ==> Tells(s, s', cid, ConnectionError.UnknownService(e.ctx)) && !s'.closed)
            && (e.PubSubNoCall? ==> Tells(s, s', cid, ConnectionError.PubSubNoCall(e.ctx)) && !s'.closed)
            && (e.ConnectionClosed? || e.PeerGone? || e.Remote? || e.ThesErr? || e.Timeout? ==>
                  s'.panicked && s'.wire == s.wire && !s'.closed)
            && (s'.panicked && !s.panicked ==>
                  e.ConnectionClosed? || e.PeerGone? || e.Remote? || e.ThesErr? || e.Timeout?)
            && |s'.events| > |s.events| && s'.events[..|s.events| + 1] == s.events + [PeerEvent.Error(e)]
  {
    var told := s.(events := s.events + [PeerEvent.Error(e)]);
    if RemoteView(e).Some? {
      var (err, close) := RemoteView(e).value;
      var sent := told.(wire := s.wire + [Frame(NULL_ID, cid, s.codec.enc(err))]);
      assert Put(told, PrepError(s.codec, cid, err), env) == sent;
      if close {
        assert Handle(s, RequestError(e), env) == HandleClose(sent, false, env);
        CloseShape(sent, false, env);
        CloseEvents(sent, false, env);
      } else {
        assert Handle(s, RequestError(e), env) == sent;
      }
    } else {
      assert Handle(s, RequestError(e), env) == told.(panicked := true);
    }
  }

  predicate Tells(s: PeerState, s': PeerState, cid: u64, err: ConnectionError) {
    s'.wire == s.wire + [Frame(NULL_ID, cid, s.codec.enc(err))]
  }

  // ---------------------------------------------------------------- closing

  /** Observers learn who closed, and of an error of the sink. */
  lemma CloseEvents(s: PeerState, remote: bool, env: Env)
    ensures Handle(s, CloseConnection(remote), env) == HandleClose(s, remote, env)
    ensures HandleClose(s, remote, env).events ==
            s.events + [if remote then ClosedByRemote else Closed]
            + match env.closeErr
              case Some(e) => if s.outgoing then [PeerEvent.Error(PeerErr.WireFormat(Ctx(None, None), e))] else []
              case None => []
  {
  }

  /** Running tasks go on in a grace period; without one their calls are lost. */
  lemma CloseTasks(s: PeerState, remote: bool, env: Env)
    ensures var s' := Handle(s, CloseConnection(remote), env);
            if s.grace then s'.tasks == s.tasks && s'.lost == s.lost
            else s'.tasks == [] && s'.lost == s.lost + Running(s.tasks)
  {
  }

  // ---------------------------------------------------------------- replies

  /** An error reply: to the call that waits under its id, else to observers; an unreadable one decides nothing. */
  lemma ErrorReplyOutcome(s: PeerState, f: Frame, env: Env)
    requires Inv(s) && !s.closed && f.sid == NULL_ID
    ensures var s' := Handle(s, Incoming(Ok(f)), env);
            match s.codec.dec(f.payload)
            case Some(err) =>
              if f.cid in s.responses then
                var k := s.responses[f.cid];
                s' == s.(responses := s.responses - {f.cid},
                         calls := s.calls[k := s.calls[k].(status := Failed(err, f))])
              else s' == s.(events := s.events + [RemoteError(err)])
            case None =>
              s' == s.(events := s.events + [PeerEvent.Error(PeerErr.Deserialize(Ctx(None, Some(f.cid))))])
  {
    assert Handle(s, Incoming(Ok(f)), env) == RemoteConnErr(s, f);
  }

  /** A reply: to the call that waits under its id; a late one is dropped. */
  lemma CallReplyOutcome(s: PeerState, f: Frame, env: Env)
    requires Inv(s) && !s.closed && f.sid == FULL_ID
    ensures var s' := Handle(s, Incoming(Ok(f)), env);
            if f.cid in s.responses then
              var k := s.responses[f.cid];
              s' == s.(responses := s.responses - {f.cid}, calls := s.calls[k := s.calls[k].(status := Answered(f))])
            else s' == s
  {
    assert Handle(s, Incoming(Ok(f)), env) == Resolve(s, f.cid, Answered(f));
  }

  // ---------------------------------------------------------------- frames going out

  /** A frame handed to the peer goes out as it is, or the sender learns why not. */
  lemma ForwardOutcome(s: PeerState, wf: Frame, env: Env)
    ensures var s' := Handle(s, Send(wf), env);
            var r := PutResult(s, wf, env);
            if s.outgoing && env.sendErr.None? then r == Ok(()) && s' == s.(wire := s.wire + [wf])
            else
              && s'.wire == s.wire && s'.calls == s.calls && s'.events == s.events && s'.tasks == s.tasks
              && r == if !s.outgoing then Err(ConnectionClosed(Ctx(None, None)))
                      else Err(PeerErr.WireFormat(Ctx(Some(wf.sid), Some(wf.cid)), env.sendErr.value))
  {
  }

  /** The errors of a call: the connection is closed, the frame could not be sent, no timer could be started. */
  lemma CallErrors(s: PeerState, wf: Frame, caller: Caller, env: Env)
    requires Inv(s)
    ensures var (s', r) := HandleCall(s, wf, caller, env);
            && (s.closed ==> r == Err(ConnectionClosed(Ctx(None, None))) && s' == s)
            && (!s.closed && env.sendErr.Some? ==>
                  r == Err(PeerErr.WireFormat(Ctx(Some(wf.sid), Some(CidOf(|s.calls|))), env.sendErr.value))
                  && s'.wire == s.wire && s'.tasks == s.tasks)
            && (!s.closed && env.sendErr.None? && !env.spawnOk ==>
                  r == Err(PeerErr.Spawn(Ctx(Some(wf.sid), None))) && s'.tasks == s.tasks
                  && s'.wire == s.wire + [wf.(cid := CidOf(|s.calls|))])
            && (!s.closed && env.sendErr.None? && env.spawnOk ==>
                  r == Ok(|s.calls|) && s'.tasks == s.tasks + [Timer(CidOf(|s.calls|), wf.sid)])
  {
    if !s.closed {
      CounterSteps(|s.calls|);
    }
  }
}
