/** Counting, connection id by connection id, what becomes of the calls a peer takes on. */
module Accounts {
  import opened Wrappers
  import opened LittleEndian
  import opened WireFormat
  import opened PeerTypes
  import opened PeerSpec
  import opened PeerShape

  function Sum<T>(s: seq<T>, f: T -> nat): nat {
    if s == [] then 0 else Sum(s[..|s| - 1], f) + f(s[|s| - 1])
  }

  lemma SumAppend<T>(s: seq<T>, x: T, f: T -> nat)
    ensures Sum(s + [x], f) == Sum(s, f) + f(x)
  {
    assert (s + [x])[..|s|] == s;
  }

  lemma SumOne<T>(x: T, f: T -> nat)
    ensures Sum([x], f) == f(x)
  {
    var none: seq<T> := [];
    assert [x] == none + [x];
    SumAppend(none, x, f);
  }

  lemma {:induction false} SumConcat<T>(s: seq<T>, t: seq<T>, f: T -> nat)
    ensures Sum(s + t, f) == Sum(s, f) + Sum(t, f)
    decreases |t|
  {
    if t == [] {
      assert s + t == s;
    } else {
      var n := |t| - 1;
      assert s + t == (s + t[..n]) + [t[n]];
      SumAppend(s + t[..n], t[n], f);
      SumConcat(s, t[..n], f);
    }
  }

  lemma SumRemove<T>(s: seq<T>, i: nat, f: T -> nat)
    requires i < |s|
    ensures Sum(s, f) == Sum(s[..i] + s[i + 1..], f) + f(s[i])
  {
    assert s == s[..i] + ([s[i]] + s[i + 1..]);
    SumConcat(s[..i], [s[i]] + s[i + 1..], f);
    SumConcat([s[i]], s[i + 1..], f);
    assert Sum([s[i]], f) == f(s[i]);
    SumConcat(s[..i], s[i + 1..], f);
  }

  lemma SumUpdate<T>(s: seq<T>, i: nat, x: T, f: T -> nat)
    requires i < |s|
    ensures Sum(s[i := x], f) + f(s[i]) == Sum(s, f) + f(x)
  {
    SumRemove(s, i, f);
    SumRemove(s[i := x], i, f);
    assert s[i := x][..i] + s[i := x][i + 1..] == s[..i] + s[i + 1..];
  }

  // ---------------------------------------------------------------- what counts for connection id `c`

  function IdWeight(d: u64, c: u64): nat {
    if d == c then 1 else 0
  }

  /** A reply frame. */
  function FrameWeight(f: Frame, c: u64): nat {
    if IsReply(f) then IdWeight(f.cid, c) else 0
  }

  /** A task working on a call. */
  function TaskWeight(t: Task, c: u64): nat {
    if t.LocalCall? || t.RelayCall? || t.RelayWait? then IdWeight(t.req.cid, c) else 0
  }

  /** A queued message that settles a call. */
  function MailWeight(m: Message, c: u64): nat {
    match m
    case Send(wf) => FrameWeight(wf, c)
    case CallResponse(wf) => FrameWeight(wf, c)
    case RequestError(e) => if e.ctx.cid.Some? then IdWeight(e.ctx.cid.value, c) else 0
    case _ => 0
  }

  function Is(c: u64): u64 -> nat {
    (d: u64) => IdWeight(d, c)
  }

  function OnWire(c: u64): Frame -> nat {
    (f: Frame) => FrameWeight(f, c)
  }

  function OnTask(c: u64): Task -> nat {
    (t: Task) => TaskWeight(t, c)
  }

  function OnMail(c: u64): Message -> nat {
    (m: Message) => MailWeight(m, c)
  }

  /** Calls with id `c` that were replied to, are being worked on, or whose reply is lost. */
  function Settled(s: PeerState, c: u64): nat {
    Sum(s.wire, OnWire(c)) + Sum(s.tasks, OnTask(c)) + Sum(s.lost, Is(c))
  }

  lemma {:induction false} RunningCounts(tasks: seq<Task>, c: u64)
    ensures Sum(Running(tasks), Is(c)) == Sum(tasks, OnTask(c))
  {
    if tasks == [] {
    } else {
      var n := |tasks| - 1;
      RunningCounts(tasks[..n], c);
      SumConcat(Running(tasks[..n]), TaskCalls(tasks[n]), Is(c));
    }
  }

  lemma PutSettles(s: PeerState, wf: Frame, env: Env, c: u64)
    ensures Settled(Put(s, wf, env), c) == Settled(s, c) + OnWire(c)(wf)
  {
    if Sends(s, env) {
      SumAppend(s.wire, wf, OnWire(c));
      assert Put(s, wf, env) == s.(wire := s.wire + [wf]);
    } else if IsReply(wf) {
      SumAppend(s.lost, wf.cid, Is(c));
      assert Put(s, wf, env) == s.(lost := s.lost + [wf.cid]);
    } else {
      assert Put(s, wf, env) == s;
    }
  }

  lemma CloseSettles(s: PeerState, remote: bool, env: Env, c: u64)
    ensures Settled(HandleClose(s, remote, env), c) == Settled(s, c)
  {
    RunningCounts(s.tasks, c);
    SumConcat(s.lost, Running(s.tasks), Is(c));
  }

  lemma SendErrSettles(s: PeerState, cid: u64, err: ConnectionError, close: bool, env: Env, c: u64)
    ensures var s' := SendErr(s, cid, err, close, env);
            s'.panicked == s.panicked && Settled(s', c) == Settled(s, c) + Is(c)(cid)
  {
    var msg := PrepError(s.codec, cid, err);
    var s1 := Put(s, msg, env);
    PutSettles(s, msg, env, c);
    if s.outgoing && close {
      assert SendErr(s, cid, err, close, env) == HandleClose(s1, false, env);
      CloseSettles(s1, false, env, c);
    } else {
      assert SendErr(s, cid, err, close, env) == s1;
    }
  }

  lemma RequestErrorSettles(s: PeerState, e: PeerErr, env: Env, c: u64)
    requires e.ctx.cid.Some? ==> RemoteView(e).Some?
    ensures var s' := HandleRequestError(s, e, env);
            s'.panicked == s.panicked && Settled(s', c) == Settled(s, c) + OnMail(c)(RequestError(e))
  {
    var told := s.(events := s.events + [PeerEvent.Error(e)]);
    assert Settled(told, c) == Settled(s, c);
    if e.ctx.cid.Some? {
      var (err, close) := RemoteView(e).value;
      assert HandleRequestError(s, e, env) == SendErr(told, e.ctx.cid.value, err, close, env);
      SendErrSettles(told, e.ctx.cid.value, err, close, env, c);
    } else {
      assert HandleRequestError(s, e, env) == told;
    }
  }

  lemma SlotsAside(s: PeerState, slots: int, c: u64)
    ensures var s' := s.(slots := slots); s'.panicked == s.panicked && Settled(s', c) == Settled(s, c)
  {
  }

  lemma CallResponseSettles(s: PeerState, wf: Frame, env: Env, c: u64)
    ensures var s' := HandleCallResponse(s, wf, env);
            s'.panicked == s.panicked && Settled(s', c) == Settled(s, c) + OnMail(c)(CallResponse(wf))
  {
    assert OnMail(c)(CallResponse(wf)) == OnWire(c)(wf);
    var s1 := Put(s, wf, env);
    PutSettles(s, wf, env, c);
    SlotsAside(s1, s1.slots + 1, c);
    if s.gated {
      assert HandleCallResponse(s, wf, env) == s1.(slots := s1.slots + 1);
    } else {
      assert HandleCallResponse(s, wf, env) == s1;
    }
  }

  lemma StartSettles(s: PeerState, t: Task, c: u64)
    ensures Settled(s.(tasks := s.tasks + [t]), c) == Settled(s, c) + OnTask(c)(t)
  {
    SumAppend(s.tasks, t, OnTask(c));
  }

  lemma IncomingSendSettles(s: PeerState, f: Frame, env: Env, c: u64)
    requires Kind(f).IncomingSend?
    ensures var s' := HandleIncomingSend(s, f, env);
            s'.panicked == s.panicked && Settled(s', c) == Settled(s, c)
  {
    StartSendShape(s.services, f, env);
    var start := StartSend(s.services, f, env).value;
    if start.Ok? {
      StartSettles(s, start.value, c);
      assert HandleIncomingSend(s, f, env) == s.(tasks := s.tasks + [start.value]);
    } else {
      assert OnMail(c)(RequestError(start.error)) == 0;
      RequestErrorSettles(s, start.error, env, c);
      assert HandleIncomingSend(s, f, env) == HandleRequestError(s, start.error, env);
    }
  }

  lemma AdmitSettles(s: PeerState, cid: u64, c: u64)
    ensures var s' := Admit(s, cid);
            s'.panicked == s.panicked && s'.services == s.services && Settled(s', c) == Settled(s, c)
  {
  }

  lemma CallFailedSettles(s: PeerState, f: Frame, e: PeerErr, env: Env, c: u64)
    requires e.ctx == CallCtx(f) && RemoteView(e).Some?
    ensures var s' := HandleRequestError(s, e, env);
            s'.panicked == s.panicked && Settled(s', c) == Settled(s, c) + Is(c)(f.cid)
  {
    assert OnMail(c)(RequestError(e)) == Is(c)(f.cid);
    assert e.ctx.cid == Some(f.cid);
    var w := Is(c)(f.cid);
    var s' := HandleRequestError(s, e, env);
    assert Settled(s', c) == Settled(s, c) + w && s'.panicked == s.panicked by {
      RequestErrorSettles(s, e, env, c);
    }
  }

  lemma IncomingCallSettles(s: PeerState, f: Frame, env: Env, c: u64)
    ensures var s' := HandleIncomingCall(s, f, env);
            s'.panicked == s.panicked && Settled(s', c) == Settled(s, c) + Is(c)(f.cid)
  {
    var a := Admit(s, f.cid);
    AdmitSettles(s, f.cid, c);
    StartCallShape(s.services, f, env);
    var start := StartCall(s.services, f, env);
    if start.Ok? {
      StartSettles(a, start.value, c);
      assert HandleIncomingCall(s, f, env) == a.(tasks := a.tasks + [start.value]);
    } else {
      CallFailedSettles(a, f, start.error, env, c);
      assert HandleIncomingCall(s, f, env) == HandleRequestError(a, start.error, env);
    }
  }

  lemma IncomingSettles(s: PeerState, msg: Result<Frame, WireErr>, env: Env, c: u64)
    ensures var s' := HandleIncoming(s, msg, env);
            s'.panicked == s.panicked &&
            Settled(s', c) == Settled(s, c) + if TakesCall(s, Incoming(msg)) then Is(c)(msg.value.cid) else 0
  {
    if !s.closed {
      match msg
      case Err(e) => RequestErrorSettles(s, PeerErr.WireFormat(Ctx(None, None), e), env, c);
      case Ok(f) =>
        match Kind(f)
        case IncomingSend => IncomingSendSettles(s, f, env, c);
        case IncomingCall => IncomingCallSettles(s, f, env, c);
        case ErrorReply => ErrorReplyShape(s, f);
        case CallReply => ResolveShape(s, f.cid, Answered(f));
    }
  }

  lemma CallSettles(s: PeerState, wf: Frame, caller: Caller, env: Env, c: u64)
    requires !IsReply(wf)
    ensures var s' := HandleCall(s, wf, caller, env).0;
            s'.panicked == s.panicked && Settled(s', c) == Settled(s, c)
  {
    if !s.closed {
      CallShape(s, wf, caller, env);
      CallLogs(s, HandleCall(s, wf, caller, env).0, wf.(cid := NextCid(s.counter)), c);
    }
  }

  lemma CallLogs(s: PeerState, s': PeerState, frame: Frame, c: u64)
    requires !IsReply(frame) && Quiet(s, s')
    requires s'.wire == s.wire || s'.wire == s.wire + [frame]
    requires s'.tasks == s.tasks || s'.tasks == s.tasks + [Timer(frame.cid, frame.sid)]
    ensures Settled(s', c) == Settled(s, c)
  {
    SumAppend(s.wire, frame, OnWire(c));
    SumAppend(s.tasks, Timer(frame.cid, frame.sid), OnTask(c));
  }

  /** Messages that no arm is missing for and that use the reserved ids only as the peer itself does. */
  predicate Proper(m: Message) {
    match m
    case RequestError(e) => e.ctx.cid.Some? ==> RemoteView(e).Some?
    case Call(wf, _) => !IsReply(wf)
    case _ => true
  }

  lemma HandleSettles(s: PeerState, m: Message, env: Env, c: u64)
    requires Proper(m)
    ensures var s' := Handle(s, m, env);
            s'.panicked == s.panicked &&
            Settled(s', c) ==
            Settled(s, c) + OnMail(c)(m) + if TakesCall(s, m) then Is(c)(m.msg.value.cid) else 0
  {
    match m
    case Incoming(msg) => IncomingSettles(s, msg, env, c);
    case Call(wf, caller) => CallSettles(s, wf, caller, env, c);
    case Send(wf) => PutSettles(s, wf, env, c);
    case CallResponse(wf) => CallResponseSettles(s, wf, env, c);
    case RequestError(e) => RequestErrorSettles(s, e, env, c);
    case TimedOut(cid, sid) => ResolveShape(s, cid, Expired(sid));
    case CloseConnection(remote) => CloseSettles(s, remote, env, c);
  }

  /** Handling a message settles the call it was about, and takes on the one it brought. */
  lemma HandleBalances(s: PeerState, m: Message, env: Env, c: u64)
    requires Proper(m)
    ensures var s' := Handle(s, m, env);
            && s'.panicked == s.panicked
            && Settled(s', c) - Sum(s'.admitted, Is(c)) == Settled(s, c) - Sum(s.admitted, Is(c)) + OnMail(c)(m)
  {
    HandleSettles(s, m, env, c);
    HandleEffects(s, m, env);
    if TakesCall(s, m) {
      SumAppend(s.admitted, m.msg.value.cid, Is(c));
    }
  }
}
