/** What becomes of the slots that the calls of a connection take, over every run. */
module SlotAccounts {
  import opened Wrappers
  import opened WireFormat
  import opened PeerTypes
  import opened PeerSpec
  import opened PeerShape
  import opened Accounts
  import opened PeerNode
  import Gate

  predicate Works(t: Task) {
    t.LocalCall? || t.RelayCall? || t.RelayWait?
  }

  function OfWork(): Task -> nat {
    (t: Task) => if Works(t) then 1 else 0
  }

  function OfAnswers(): Message -> nat {
    (m: Message) => if m.CallResponse? then 1 else 0
  }

  /** Calls being worked on, and answers that wait to be handled: each of them will free its slot or fail. */
  function Pending(n: Node): nat {
    Sum(n.peer.tasks, OfWork()) + Sum(n.mailbox, OfAnswers())
  }

  /** How many calls a handled message takes on. */
  function Taken(s: PeerState, m: Message): nat {
    if TakesCall(s, m) then 1 else 0
  }

  /** An incoming call that no task is started for. */
  predicate StartFails(s: PeerState, m: Message, env: Env) {
    TakesCall(s, m) && StartCall(s.services, m.msg.value, env).Err?
  }

  predicate ErrorCloses(s: PeerState, e: PeerErr) {
    s.outgoing && e.ctx.cid.Some? && (e.WireFormat? || e.Spawn?)
  }

  /** A message that ends the connection. */
  predicate Closes(s: PeerState, m: Message, env: Env) {
    match m
    case CloseConnection(_) => true
    case RequestError(e) => ErrorCloses(s, e)
    case Incoming(Ok(f)) => StartFails(s, m, env) && ErrorCloses(s, StartCall(s.services, f, env).error)
    case _ => false
  }

  /**
   * How many calls end in this step without an answer: the one a message brings when it cannot be started,
   * all that are worked on when a message ends the connection without a grace period, and one whose task
   * ends with something else than an answer or is dropped.
   */
  function EndsUnanswered(n: Node, h: Happening): nat
    requires CanHappen(n, h)
  {
    match h
    case Handles(env) =>
      var s, m := n.peer, n.mailbox[0];
      (if StartFails(s, m, env) then 1 else 0)
      + if Closes(s, m, env) && !s.grace then Sum(s.tasks, OfWork()) else 0
    case Ends(i, r) => if Works(n.peer.tasks[i]) && !(r.Ok? && r.value.Answer?) then 1 else 0
    case Dropped(i) => if Works(n.peer.tasks[i]) then 1 else 0
    case _ => 0
  }

  function Unanswered(n: Node, hs: seq<Happening>): nat
    requires History(n, hs)
    decreases |hs|
  {
    if hs == [] then 0 else EndsUnanswered(n, hs[0]) + Unanswered(Happen(n, hs[0]), hs[1..])
  }

  /** How many calls ended with an answer that was handled, whether or not it could be sent. */
  function Answered(n: Node, hs: seq<Happening>): nat
    requires History(n, hs)
    decreases |hs|
  {
    if hs == [] then 0 else AnswersOne(n, hs[0]) + Answered(Happen(n, hs[0]), hs[1..])
  }

  // ---------------------------------------------------------------- one step

  lemma HandleMovesSlots(s: PeerState, m: Message, env: Env)
    ensures var s' := Handle(s, m, env);
            var freed := if m.CallResponse? then 1 else 0;
            && |s'.admitted| == |s.admitted| + Taken(s, m)
            && s'.gated == s.gated && (s.gated ==> s'.slots == s.slots - Taken(s, m) + freed)
  {
    HandleEffects(s, m, env);
  }

  lemma ErrorTasks(s: PeerState, e: PeerErr, env: Env)
    ensures HandleRequestError(s, e, env).tasks == if ErrorCloses(s, e) && !s.grace then [] else s.tasks
  {
    var told := s.(events := s.events + [PeerEvent.Error(e)]);
    if e.ctx.cid.Some? && RemoteView(e).Some? {
      var (err, close) := RemoteView(e).value;
      var msg := PrepError(s.codec, e.ctx.cid.value, err);
      var s1 := Put(told, msg, env);
      PutShape(told, msg, env);
      if s.outgoing && close {
        CloseShape(s1, false, env);
        assert HandleRequestError(s, e, env) == HandleClose(s1, false, env);
      } else {
        assert HandleRequestError(s, e, env) == s1;
      }
    } else {
      assert HandleRequestError(s, e, env).tasks == s.tasks;
    }
  }

  lemma IncomingSendTasks(s: PeerState, f: Frame, env: Env)
    requires !s.closed && Kind(f).IncomingSend?
    ensures Sum(HandleIncoming(s, Ok(f), env).tasks, OfWork()) == Sum(s.tasks, OfWork())
  {
    IncomingSendShape(s, f, env);
    var s' := HandleIncomingSend(s, f, env);
    assert HandleIncoming(s, Ok(f), env) == s';
    if s'.tasks != s.tasks {
      SumAppend(s.tasks, s'.tasks[|s'.tasks| - 1], OfWork());
    }
  }

  lemma IncomingCallTasks(s: PeerState, f: Frame, env: Env)
    requires !s.closed && Kind(f).IncomingCall?
    ensures var tasks := HandleIncoming(s, Ok(f), env).tasks;
            match StartCall(s.services, f, env)
            case Ok(_) => Sum(tasks, OfWork()) == Sum(s.tasks, OfWork()) + 1
            case Err(e) => tasks == if ErrorCloses(s, e) && !s.grace then [] else s.tasks
  {
    var a, start := Admit(s, f.cid), StartCall(s.services, f, env);
    if start.Ok? {
      StartCallShape(s.services, f, env);
      SumAppend(s.tasks, start.value, OfWork());
      assert HandleIncoming(s, Ok(f), env) == a.(tasks := s.tasks + [start.value]);
    } else {
      ErrorTasks(a, start.error, env);
      assert HandleIncoming(s, Ok(f), env) == HandleRequestError(a, start.error, env);
    }
  }

  /** The tasks after a message that an open peer gets off the wire. */
  lemma IncomingTasks(s: PeerState, f: Frame, env: Env)
    requires !s.closed
    ensures var m := Incoming(Ok(f));
            var tasks := HandleIncoming(s, Ok(f), env).tasks;
            Sum(tasks, OfWork()) ==
            if Closes(s, m, env) && !s.grace then 0
            else Sum(s.tasks, OfWork()) + if TakesCall(s, m) && !StartFails(s, m, env) then 1 else 0
  {
    match Kind(f)
    case IncomingSend => IncomingSendTasks(s, f, env);
    case IncomingCall => IncomingCallTasks(s, f, env);
    case ErrorReply => ErrorReplyShape(s, f);
    case CallReply => ResolveShape(s, f.cid, Status.Answered(f));
  }

  lemma HandleMovesWork(s: PeerState, m: Message, env: Env)
    ensures Sum(Handle(s, m, env).tasks, OfWork()) ==
            if Closes(s, m, env) && !s.grace then 0
            else Sum(s.tasks, OfWork()) + if TakesCall(s, m) && !StartFails(s, m, env) then 1 else 0
  {
    match m
    case Incoming(Ok(f)) =>
      if !s.closed {
        IncomingTasks(s, f, env);
      }
    case Incoming(Err(e)) =>
      if !s.closed {
        ErrorTasks(s, PeerErr.WireFormat(Ctx(None, None), e), env);
      }
    case Call(wf, caller) =>
      if !s.closed {
        CallShape(s, wf, caller, env);
        SumAppend(s.tasks, Timer(NextCid(s.counter), wf.sid), OfWork());
      }
    case Send(wf) => PutShape(s, wf, env);
    case CallResponse(wf) => PutShape(s, wf, env);
    case RequestError(e) => ErrorTasks(s, e, env);
    case TimedOut(cid, sid) => ResolveShape(s, cid, Expired(sid));
    case CloseConnection(remote) => CloseShape(s, remote, env);
  }

  lemma MailRemoved(mailbox: seq<Message>)
    requires mailbox != []
    ensures Sum(mailbox, OfAnswers()) == Sum(mailbox[1..], OfAnswers()) + OfAnswers()(mailbox[0])
  {
    SumRemove(mailbox, 0, OfAnswers());
    assert mailbox[..0] + mailbox[1..] == mailbox[1..];
  }

  lemma ResultAnswers(codec: Codec, t: Task, r: Result<Response, PeerErr>)
    requires CanYield(codec, t, r)
    ensures Sum(ResultMessages(r), OfAnswers()) == if Works(t) && r.Ok? && r.value.Answer? then 1 else 0
  {
    var ms := ResultMessages(r);
    if ms != [] {
      assert ms == [ms[0]];
      SumOne(ms[0], OfAnswers());
    }
  }

  /** 1 for a handled answer. */
  function AnswersOne(n: Node, h: Happening): nat
    requires CanHappen(n, h)
  {
    if h.Handles? && n.mailbox[0].CallResponse? then 1 else 0
  }

  /** A call taken on is pending until it is answered or ends unanswered; only an answer gives its slot back. */
  predicate Moves(n: Node, n': Node, unanswered: nat, answered: nat) {
    && |n'.peer.admitted| + Pending(n) == |n.peer.admitted| + Pending(n') + unanswered + answered
    && n'.peer.gated == n.peer.gated
    && (n.peer.gated ==> n.peer.slots + Pending(n) == n'.peer.slots + Pending(n') + unanswered)
  }

  lemma HandlingMoves(n: Node, env: Env)
    requires n.mailbox != []
    ensures var h := Handles(env); Moves(n, Happen(n, h), EndsUnanswered(n, h), AnswersOne(n, h))
  {
    HandleMovesSlots(n.peer, n.mailbox[0], env);
    HandleMovesWork(n.peer, n.mailbox[0], env);
    MailRemoved(n.mailbox);
  }

  lemma EndingMoves(n: Node, i: nat, r: Result<Response, PeerErr>)
    requires CanHappen(n, Ends(i, r))
    ensures var h := Ends(i, r); Moves(n, Happen(n, h), EndsUnanswered(n, h), AnswersOne(n, h))
  {
    SumRemove(n.peer.tasks, i, OfWork());
    ResultAnswers(n.peer.codec, n.peer.tasks[i], r);
    SumConcat(n.mailbox, ResultMessages(r), OfAnswers());
  }

  lemma StepMoves(n: Node, h: Happening)
    requires CanHappen(n, h)
    ensures Moves(n, Happen(n, h), EndsUnanswered(n, h), AnswersOne(n, h))
  {
    match h
    case Arrives(m) => SumAppend(n.mailbox, m, OfAnswers());
    case Handles(env) => HandlingMoves(n, env);
    case Ends(i, r) => EndingMoves(n, i, r);
    case Asks(i) =>
      SumUpdate(n.peer.tasks, i, RelayWait(n.peer.tasks[i].req, n.peer.tasks[i].target), OfWork());
    case Fires(i) =>
      SumRemove(n.peer.tasks, i, OfWork());
      SumAppend(n.mailbox, TimedOut(n.peer.tasks[i].cid, n.peer.tasks[i].sid), OfAnswers());
    case Dropped(i) =>
      SumRemove(n.peer.tasks, i, OfWork());
  }

  // ---------------------------------------------------------------- runs

  lemma {:induction false} RunMoves(n: Node, hs: seq<Happening>)
    requires History(n, hs)
    ensures Moves(n, Final(n, hs), Unanswered(n, hs), Answered(n, hs))
    decreases |hs|
  {
    if hs == [] {
    } else {
      StepMoves(n, hs[0]);
      RunMoves(Happen(n, hs[0]), hs[1..]);
    }
  }

  /** A peer just created behind a gate of so many slots. */
  predicate Starts(n0: Node, slots: int) {
    && n0.peer.gated && n0.peer.slots == slots
    && n0.peer.tasks == [] && n0.mailbox == [] && n0.peer.admitted == []
  }

  /**
   * Slots over every run: those missing are the calls pending and those that ended in any other way than
   * with a handled answer. So once nothing is pending, all slots are back if and only if every call
   * taken on ended with a handled answer.
   */
  lemma SlotsComeBack(n0: Node, slots: int, hs: seq<Happening>)
    requires Starts(n0, slots) && History(n0, hs)
    ensures var n := Final(n0, hs);
            && slots - n.peer.slots == Pending(n) + Unanswered(n0, hs)
            && |n.peer.admitted| == Answered(n0, hs) + Pending(n) + Unanswered(n0, hs)
            && (Pending(n) == 0 ==> (n.peer.slots == slots <==> |n.peer.admitted| == Answered(n0, hs)))
  {
    RunMoves(n0, hs);
  }

  /**
   * The gate can shut for ever: as soon as as many calls as there are slots have ended without an answer,
   * nothing that happens later makes a slot free, so no message, not even a reply, passes any more.
   */
  lemma GateShutsForEver(n0: Node, slots: int, hs: seq<Happening>, more: seq<Happening>)
    requires Starts(n0, slots) && History(n0, hs) && History(Final(n0, hs), more)
    requires Unanswered(n0, hs) >= slots
    ensures var n := Final(Final(n0, hs), more);
            && n.peer.slots <= 0
            && forall msg, room: nat ::
                 !Gate.CanMove(Gate.Hub(n.peer.slots, [Gate.Conn(n.peer, [])], 0, 0), 0, Gate.Pass(msg), room)
  {
    RunMoves(n0, hs);
    RunMoves(Final(n0, hs), more);
  }
}
