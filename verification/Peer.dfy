/** The peer actor: its fields and its handlers, one message at a time. */
module PeerActor {
  import opened Wrappers
  import opened LittleEndian
  import opened WireFormat
  import opened PeerTypes
  import opened BackPressureSlots
  import Spec = PeerSpec
  import Shape = PeerShape
  import Props = PeerProps

  /** The framed sink; `sent` is what it took. */
  class Sink {
    var sent: seq<Frame>

    constructor ()
      ensures sent == []
    {
      sent := [];
    }

    method Send(wf: Frame, env: Env) returns (r: Result<(), WireErr>)
      modifies this
      ensures r == match env.sendErr case Some(e) => Err(e) case None => Ok(())
      ensures sent == if r.Ok? then old(sent) + [wf] else old(sent)
    {
      match env.sendErr
      case Some(e) => r := Err(e);
      case None =>
        sent := sent + [wf];
        r := Ok(());
    }

    method Close(env: Env) returns (r: Result<(), WireErr>)
      ensures r == match env.closeErr case Some(e) => Err(e) case None => Ok(())
    {
      r := match env.closeErr case Some(e) => Err(e) case None => Ok(());
    }
  }

  class Peer {
    const codec: Codec
    const grace: bool
    const sink: Sink
    const backpressure: BackPressure?
    var outgoing: Sink?
    var addr: bool
    var closed: bool
    var connIdCounter: u64
    var services: map<u64, ServiceMap>
    var responses: map<u64, nat>
    var nursery: seq<Task>
    var events: seq<PeerEvent>
    var panicked: bool
    /** The pool of one-shot channels, one for each call handled while open. */
    var channels: seq<CallRecord>
    ghost var admitted: seq<u64>
    ghost var lost: seq<u64>

    ghost predicate Wired()
      reads this
    {
      outgoing != null ==> outgoing == sink
    }

    /** Between messages, besides, what every run keeps: an exact table of outstanding calls above all. */
    ghost predicate Valid()
      reads this, sink, backpressure
    {
      Wired() && Props.Inv(State())
    }

    ghost function Repr(): set<object> {
      {this, sink} + if backpressure == null then {} else {backpressure}
    }

    ghost function State(): Spec.PeerState
      requires Wired()
      reads this, sink, backpressure
    {
      Spec.PeerState(codec, grace, backpressure != null, outgoing != null, addr, closed, connIdCounter, services,
                     responses, nursery, if backpressure != null then backpressure.available else 0, events,
                     panicked, sink.sent, channels, admitted, lost)
    }

    constructor (codec: Codec, grace: bool, sink: Sink, backpressure: BackPressure?)
      requires sink.sent == []
      ensures Valid()
      ensures State() == Spec.Fresh(codec, grace, backpressure != null,
                                    if backpressure != null then backpressure.available else 0, map[])
    {
      this.codec, this.grace, this.sink, this.backpressure := codec, grace, sink, backpressure;
      outgoing, addr, closed := sink, true, false;
      // Zero has a special meaning.
      connIdCounter := 1;
      services, responses, nursery, events := map[], map[], [], [];
      panicked, channels, admitted, lost := false, [], [], [];
    }

    /** The source asserts, in debug mode, that no service is registered twice. */
    method RegisterServices(sids: seq<u64>, sm: ServiceMap)
      requires Wired()
      requires forall i | 0 <= i < |sids| :: sids[i] !in services && sids[i] !in sids[..i]
      modifies this`services
      ensures Wired() && (old(Valid()) && !closed ==> Valid())
      ensures services.Keys == old(services.Keys) + set sid | sid in sids
      ensures forall sid | sid in services :: services[sid] == if sid in sids then sm else old(services)[sid]
    {
      for n := 0 to |sids|
        invariant services.Keys == old(services.Keys) + set sid | sid in sids[..n]
        invariant forall sid | sid in services ::
                    services[sid] == if sid in sids[..n] then sm else old(services)[sid]
      {
        services := services[sids[n] := sm];
        assert sids[..n + 1] == sids[..n] + [sids[n]];
      }
      assert sids[..|sids|] == sids;
    }

    method SendMsg(wf: Frame, env: Env) returns (r: Result<(), PeerErr>)
      requires Wired()
      modifies sink
      ensures Wired()
      ensures State() == if r.Ok? then old(State()).(wire := old(State()).wire + [wf]) else old(State())
      ensures r == Spec.PutResult(old(State()), wf, env)
    {
      if outgoing != null {
        var sent := outgoing.Send(wf, env);
        r := match sent
          case Ok(_) => Ok(())
          case Err(e) => Err(PeerErr.WireFormat(CallCtx(wf), e));
      } else {
        r := Err(PeerErr.ConnectionClosed(Ctx(None, None)));
      }
    }

    /** Sends, and notes when that failed for a reply. */
    method Put(wf: Frame, env: Env) returns (r: Result<(), PeerErr>)
      requires Wired()
      modifies this`lost, sink
      ensures Wired()
      ensures State() == Spec.Put(old(State()), wf, env)
      ensures r == Spec.PutResult(old(State()), wf, env)
    {
      r := SendMsg(wf, env);
      if r.Err? && Spec.IsReply(wf) {
        lost := lost + [wf.cid];
      }
    }

    method SendErr(cid: u64, err: ConnectionError, close: bool, env: Env)
      requires Valid()
      modifies Repr()
      ensures Valid()
      ensures State() == Spec.SendErr(old(State()), cid, err, close, env)
    {
      var msg := PrepError(codec, cid, err);
      if outgoing == null {
        lost := lost + [cid];
        return;
      }
      // If it cannot be sent, give up.
      Shape.PutShape(State(), msg, env);
      Props.AsideKeepsInv(State(), Spec.Put(State(), msg, env));
      var _ := Put(msg, env);
      if close {
        HandleCloseConnection(false, env);
      }
    }

    method HandleCloseConnection(remote: bool, env: Env)
      requires Valid()
      modifies this
      ensures Valid()
      ensures State() == Spec.HandleClose(old(State()), remote, env)
      ensures Props.Shut(State())
      ensures forall k | 0 <= k < |channels| :: !channels[k].status.Waiting?
    {
      Props.CloseOutcome(State(), remote, env);
      CloseSink(remote, env);
      DropTasks();
      ClearTables();
    }

    method CloseSink(remote: bool, env: Env)
      requires Wired()
      modifies this`closed, this`events, this`outgoing
      ensures Wired()
      ensures State() == Spec.CloseSink(old(State()), remote, env)
    {
      closed := true;
      if remote {
        events := events + [ClosedByRemote];
      } else {
        events := events + [Closed];
      }
      if outgoing != null {
        var r := outgoing.Close(env);
        if r.Err? {
          events := events + [PeerEvent.Error(PeerErr.WireFormat(Ctx(None, None), r.error))];
        }
        outgoing := null;
      }
    }

    /** Without the own address the mailbox can stop; a grace period lets running tasks go on. */
    method DropTasks()
      requires Wired()
      modifies this`addr, this`nursery, this`lost
      ensures Wired()
      ensures State() == Spec.DropTasks(old(State()))
    {
      addr := false;
      if !grace {
        lost := lost + Spec.Running(nursery);
        nursery := [];
      }
    }

    /** Services might hold our address, so they go too; dropping the senders wakes their receivers. */
    method ClearTables()
      requires Wired()
      modifies this`services, this`responses, this`channels
      ensures Wired()
      ensures State() == Spec.ClearTables(old(State()))
    {
      services := map[];
      channels := Spec.Drop(channels, responses.Values);
      responses := map[];
    }

    method HandleRequestError(error: PeerErr, env: Env)
      requires Valid()
      modifies Repr()
      ensures Valid()
      ensures State() == Spec.HandleRequestError(old(State()), error, env)
    {
      Props.HandleKeepsInv(State(), RequestError(error), env);
      events := events + [PeerEvent.Error(error)];
      Props.AsideKeepsInv(old(State()), State());
      if error.ctx.cid.None? {
        return;
      }
      var cid := error.ctx.cid.value;
      match RemoteView(error)
      case Some((err, close)) => SendErr(cid, err, close, env);
      case None => panicked := true;
    }

    /** The next connection id; a wrap-around skips the reserved zero. */
    method NewCid() returns (cid: u64)
      modifies this`connIdCounter
      ensures cid == Spec.NextCid(old(connIdCounter)) && connIdCounter == Spec.Increment(cid)
    {
      cid := FetchAdd();
      if cid == NULL_ID {
        cid := FetchAdd();
      }
    }

    method FetchAdd() returns (n: u64)
      modifies this`connIdCounter
      ensures n == old(connIdCounter) && connIdCounter == (n + 1) % 0x1_0000_0000_0000_0000
    {
      n := connIdCounter;
      connIdCounter := (n + 1) % 0x1_0000_0000_0000_0000;
    }

    /** The receiver handed out is named by the number of its channel. */
    method HandleCall(wf: Frame, caller: Caller, env: Env) returns (r: Result<nat, PeerErr>)
      requires Valid()
      modifies this, sink
      ensures Valid()
      ensures (State(), r) == Spec.HandleCall(old(State()), wf, caller, env)
      ensures r.Ok? ==>
                && r.value == |old(channels)| && |channels| == r.value + 1
                && var frame := channels[r.value].frame;
                   && frame == wf.(cid := Props.CidOf(r.value)) && channels[r.value].status.Waiting?
                   && sink.sent == old(sink.sent) + [frame]
                   && responses == old(responses)[frame.cid := r.value]
                   && (r.value < Props.CYCLE ==> frame.cid !in old(responses))
      ensures r.Err? ==> responses == old(responses)
      ensures old(closed) ==> r.Err?
    {
      Props.HandleKeepsInv(State(), Call(wf, caller), env);
      Props.CallOutcome(State(), wf, caller, env);
      if closed {
        return Err(PeerErr.ConnectionClosed(Ctx(None, None)));
      }
      var cid := NewCid();
      var sid := wf.sid;
      var frame := wf.(cid := cid);
      var sent := SendMsg(frame, env);
      if sent.Err? {
        channels := channels + [CallRecord(frame, caller, Refused)];
        return Err(sent.error);
      }
      if !env.spawnOk {
        channels := channels + [CallRecord(frame, caller, Refused)];
        return Err(PeerErr.Spawn(Ctx(Some(sid), None)));
      }
      var receiver := Register(frame, caller);
      r := Ok(receiver);
    }

    /** Starts the timer of a call that went out and keeps the sender; an entry in its way is dropped. */
    method Register(frame: Frame, caller: Caller) returns (receiver: nat)
      requires Wired()
      modifies this`nursery, this`channels, this`responses
      ensures Wired()
      ensures (State(), receiver) == Spec.Register(old(State()), frame, caller)
    {
      nursery := nursery + [Timer(frame.cid, frame.sid)];
      Displace(frame.cid);
      receiver := |channels|;
      channels := channels + [CallRecord(frame, caller, Waiting)];
      responses := responses[frame.cid := receiver];
    }

    /** What inserting an entry for `cid` does to the sender it displaces. */
    method Displace(cid: u64)
      modifies this`channels
      ensures channels == Spec.Drop(old(channels), Spec.Displaced(responses, cid))
    {
      if cid in responses {
        channels := Spec.Drop(channels, {responses[cid]});
      } else {
        assert channels == Spec.Drop(channels, {});
      }
    }

    /** The handler of plain frames: sends, and errors coming back through a relay. */
    method HandleSend(wf: Frame, env: Env) returns (r: Result<(), PeerErr>)
      requires Valid()
      modifies this`lost, sink
      ensures Valid()
      ensures State() == Spec.HandleSend(old(State()), wf, env)
      ensures r == Spec.PutResult(old(State()), wf, env)
    {
      Props.HandleKeepsInv(State(), Send(wf), env);
      r := Put(wf, env);
    }

    method HandleCallResponse(wf: Frame, env: Env) returns (r: Result<(), PeerErr>)
      requires Valid()
      modifies Repr()
      ensures Valid()
      ensures State() == Spec.HandleCallResponse(old(State()), wf, env)
      ensures r == Spec.PutResult(old(State()), wf, env)
    {
      Props.HandleKeepsInv(State(), CallResponse(wf), env);
      r := Put(wf, env);
      ghost var s1 := State();
      if backpressure != null {
        backpressure.Add(1);
        assert State() == s1.(slots := s1.slots + 1);
      }
    }

    method HandleTimeout(cid: u64, sid: u64)
      requires Valid()
      modifies this
      ensures Valid()
      ensures State() == Spec.HandleTimeout(old(State()), cid, sid)
      ensures cid !in responses
      ensures cid in old(responses) ==>
                var k := old(responses)[cid];
                channels == old(channels)[k := old(channels)[k].(status := Expired(sid))]
      ensures cid !in old(responses) ==> State() == old(State())
    {
      Props.ResolveOutcome(State(), cid, Expired(sid));
      if cid in responses {
        Tell(cid, Expired(sid));
      }
    }

    /** `responses.remove` and a send on the channel found there. */
    method Tell(cid: u64, status: Status)
      requires Wired() && cid in responses
      modifies this`responses, this`channels
      ensures Wired()
      ensures State() == Spec.Resolve(old(State()), cid, status)
    {
      var k := responses[cid];
      responses := responses - {cid};
      if k < |channels| && channels[k].status.Waiting? {
        channels := channels[k := channels[k].(status := status)];
      }
    }

    method RemoteConnErr(f: Frame)
      requires Wired()
      modifies this
      ensures Wired()
      ensures State() == Spec.RemoteConnErr(old(State()), f)
    {
      var decoded := codec.dec(f.payload);
      match decoded
      case Some(err) =>
        if f.cid in responses {
          Tell(f.cid, Failed(err, f));
        } else {
          events := events + [RemoteError(err)];
        }
      case None =>
        events := events + [PeerEvent.Error(PeerErr.Deserialize(Ctx(None, Some(f.cid))))];
    }

    method IncomingSend(f: Frame, env: Env)
      requires Valid()
      modifies Repr()
      ensures Valid()
      ensures State() == Spec.HandleIncomingSend(old(State()), f, env)
    {
      if f.sid !in services {
        HandleRequestError(PeerErr.UnknownService(SendCtx(f)), env);
        return;
      }
      var fut := SendService(services[f.sid], f, SendCtx(f), env);
      if fut.Err? {
        var err := match fut.error
          case NoHandler(_) => PeerErr.NoHandler(SendCtx(f))
          case Deserialize(_) => PeerErr.Deserialize(SendCtx(f));
        HandleRequestError(err, env);
        return;
      }
      if env.spawnOk {
        nursery := nursery + [fut.value];
        Props.AsideKeepsInv(old(State()), State());
      } else {
        HandleRequestError(PeerErr.Spawn(SendCtx(f)), env);
      }
    }

    method Admit(cid: u64)
      requires Wired()
      modifies this`admitted, if backpressure == null then {} else {backpressure}
      ensures Wired()
      ensures State() == Spec.Admit(old(State()), cid)
    {
      if backpressure != null {
        backpressure.Remove(1);
      }
      admitted := admitted + [cid];
    }

    method IncomingCall(f: Frame, env: Env)
      requires Valid() && !closed
      modifies Repr()
      ensures Valid()
      ensures State() == Spec.HandleIncomingCall(old(State()), f, env)
    {
      Admit(f.cid);
      Props.AsideKeepsInv(old(State()), State());
      if f.sid !in services {
        HandleRequestError(PeerErr.UnknownService(CallCtx(f)), env);
        return;
      }
      var fut := CallService(services[f.sid], f, CallCtx(f), env);
      match fut
      case Err(e) =>
        HandleRequestError(e, env);
      case Ok(task) =>
        if env.spawnOk {
          nursery := nursery + [task];
          Props.AsideKeepsInv(old(State()), State());
        } else {
          HandleRequestError(PeerErr.Spawn(CallCtx(f)), env);
        }
    }

    method HandleIncoming(msg: Result<Frame, WireErr>, env: Env)
      requires Valid()
      modifies Repr()
      ensures Valid()
      ensures State() == Spec.HandleIncoming(old(State()), msg, env)
      ensures old(closed) ==> State() == old(State())
      ensures !old(closed) && msg.Ok? && Kind(msg.value).CallReply? && msg.value.cid in old(responses) ==>
                var k := old(responses)[msg.value.cid];
                && msg.value.cid !in responses
                && channels == old(channels)[k := old(channels)[k].(status := Answered(msg.value))]
    {
      Props.HandleKeepsInv(State(), Incoming(msg), env);
      if msg.Ok? {
        Props.ResolveOutcome(State(), msg.value.cid, Answered(msg.value));
      }
      if closed {
        return;
      }
      if msg.Err? {
        HandleRequestError(PeerErr.WireFormat(Ctx(None, None), msg.error), env);
        return;
      }
      var f := msg.value;
      var kind := Kind(f);
      match kind
      case ErrorReply => RemoteConnErr(f);
      case IncomingSend => IncomingSend(f, env);
      case IncomingCall => IncomingCall(f, env);
      case CallReply =>
        if f.cid in responses {
          Tell(f.cid, Answered(f));
        }
    }
  }
}
