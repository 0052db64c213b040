/** A peer with its mailbox and its nursery, in any surroundings: what every run keeps. */
module PeerNode {
  import opened Wrappers
  import opened LittleEndian
  import opened WireFormat
  import opened PeerTypes
  import opened PeerSpec
  import opened PeerShape
  import opened Accounts
  import Props = PeerProps

  datatype Node = Node(peer: PeerState, mailbox: seq<Message>)

  datatype Happening =
    | Arrives(m: Message)                                        // others put a message in the mailbox
    | Handles(env: Env)                                          // the next message is handled
    | Ends(task: nat, result: Result<Response, PeerErr>)         // a task ends and its result is forwarded
    | Asks(task: nat)                                            // a relay task asked its relay
    | Fires(task: nat)                                           // a timer runs out
    | Dropped(task: nat)                                         // closing ends a task early

  /**
   * What others can put in the mailbox: frames off the wire, outgoing calls, frames to send that are no
   * replies, closing. The other messages are made by the peer's own tasks.
   */
  predicate Outside(m: Message) {
    match m
    case Incoming(_) => true
    case Call(wf, _) => !IsReply(wf)
    case Send(wf) => !IsReply(wf)
    case CloseConnection(_) => true
    case _ => false
  }

  predicate CanHappen(n: Node, h: Happening) {
    match h
    case Arrives(m) => Outside(m)
    case Handles(_) => n.mailbox != []
    case Ends(i, r) => i < |n.peer.tasks| && CanYield(n.peer.codec, n.peer.tasks[i], r)
    case Asks(i) => i < |n.peer.tasks| && n.peer.tasks[i].RelayCall?
    case Fires(i) => i < |n.peer.tasks| && n.peer.tasks[i].Timer?
    case Dropped(i) => i < |n.peer.tasks| && n.peer.closed
  }

  function Without<T>(s: seq<T>, i: nat): seq<T>
    requires i < |s|
  {
    s[..i] + s[i + 1..]
  }

  function Happen(n: Node, h: Happening): Node
    requires CanHappen(n, h)
  {
    match h
    case Arrives(m) => n.(mailbox := n.mailbox + [m])
    case Handles(env) => Node(Handle(n.peer, n.mailbox[0], env), n.mailbox[1..])
    case Ends(i, r) => Node(n.peer.(tasks := Without(n.peer.tasks, i)), n.mailbox + ResultMessages(r))
    case Asks(i) =>
      var t := n.peer.tasks[i];
      n.(peer := n.peer.(tasks := n.peer.tasks[i := RelayWait(t.req, t.target)]))
    case Fires(i) =>
      var t := n.peer.tasks[i];
      Node(n.peer.(tasks := Without(n.peer.tasks, i)), n.mailbox + [TimedOut(t.cid, t.sid)])
    case Dropped(i) =>
      Node(n.peer.(tasks := Without(n.peer.tasks, i), lost := n.peer.lost + TaskCalls(n.peer.tasks[i])), n.mailbox)
  }

  predicate History(n: Node, hs: seq<Happening>)
    decreases |hs|
  {
    hs == [] || (CanHappen(n, hs[0]) && History(Happen(n, hs[0]), hs[1..]))
  }

  function Final(n: Node, hs: seq<Happening>): Node
    requires History(n, hs)
    decreases |hs|
  {
    if hs == [] then n else Final(Happen(n, hs[0]), hs[1..])
  }

  function Fresh(codec: Codec, grace: bool, gated: bool, slots: int, services: map<u64, ServiceMap>): Node {
    Node(PeerSpec.Fresh(codec, grace, gated, slots, services), [])
  }

  // ---------------------------------------------------------------- reply accounting and missing arms

  predicate ProperMail(mailbox: seq<Message>) {
    forall i | 0 <= i < |mailbox| :: Proper(mailbox[i])
  }

  ghost predicate Balanced(n: Node) {
    forall c: u64 :: Settled(n.peer, c) + Sum(n.mailbox, OnMail(c)) == Sum(n.peer.admitted, Is(c))
  }

  ghost predicate Sound(n: Node) {
    !n.peer.panicked && ProperMail(n.mailbox) && Balanced(n)
  }

  lemma ResultIsProper(codec: Codec, t: Task, r: Result<Response, PeerErr>, c: u64)
    requires CanYield(codec, t, r)
    ensures ProperMail(ResultMessages(r))
    ensures Sum(ResultMessages(r), OnMail(c)) == OnTask(c)(t)
  {
    var ms := ResultMessages(r);
    if ms != [] {
      assert ms == [ms[0]];
      assert Sum(ms[..0], OnMail(c)) == 0;
    }
  }

  lemma Rebalanced(n: Node, s': PeerState, c: u64)
    requires n.mailbox != []
    requires Settled(n.peer, c) + Sum(n.mailbox, OnMail(c)) == Sum(n.peer.admitted, Is(c))
    requires Settled(s', c) - Sum(s'.admitted, Is(c)) ==
             Settled(n.peer, c) - Sum(n.peer.admitted, Is(c)) + OnMail(c)(n.mailbox[0])
    ensures Settled(s', c) + Sum(n.mailbox[1..], OnMail(c)) == Sum(s'.admitted, Is(c))
  {
    SumRemove(n.mailbox, 0, OnMail(c));
    assert n.mailbox[..0] + n.mailbox[1..] == n.mailbox[1..];
  }

  lemma HandlesKeepsBalance(n: Node, env: Env, c: u64)
    requires n.mailbox != [] && Proper(n.mailbox[0])
    requires Settled(n.peer, c) + Sum(n.mailbox, OnMail(c)) == Sum(n.peer.admitted, Is(c))
    ensures var n' := Happen(n, Handles(env));
            Settled(n'.peer, c) + Sum(n'.mailbox, OnMail(c)) == Sum(n'.peer.admitted, Is(c))
  {
    HandleBalances(n.peer, n.mailbox[0], env, c);
    Rebalanced(n, Handle(n.peer, n.mailbox[0], env), c);
  }

  lemma TaskCallsCount(t: Task, c: u64)
    ensures Sum(TaskCalls(t), Is(c)) == OnTask(c)(t)
  {
    RunningCounts([t], c);
    assert Running([t]) == [] + TaskCalls(t) == TaskCalls(t);
    assert Sum([t], OnTask(c)) == OnTask(c)(t);
  }

  /** A task ends with messages that count for as much as the task did. */
  lemma EndKeepsBalance(n: Node, n': Node, i: nat, ms: seq<Message>, c: u64)
    requires i < |n.peer.tasks| && Sum(ms, OnMail(c)) == OnTask(c)(n.peer.tasks[i])
    requires n' == n.(peer := n.peer.(tasks := n.peer.tasks[..i] + n.peer.tasks[i + 1..]), mailbox := n.mailbox + ms)
    ensures Settled(n'.peer, c) + Sum(n'.mailbox, OnMail(c)) == Settled(n.peer, c) + Sum(n.mailbox, OnMail(c))
  {
    SumRemove(n.peer.tasks, i, OnTask(c));
    SumConcat(n.mailbox, ms, OnMail(c));
  }

  lemma DropKeepsBalance(n: Node, i: nat, c: u64)
    requires CanHappen(n, Dropped(i))
    ensures Settled(Happen(n, Dropped(i)).peer, c) == Settled(n.peer, c)
  {
    var t := n.peer.tasks[i];
    SumRemove(n.peer.tasks, i, OnTask(c));
    SumConcat(n.peer.lost, TaskCalls(t), Is(c));
    TaskCallsCount(t, c);
  }

  lemma TaskGoneKeepsBalance(n: Node, h: Happening, c: u64)
    requires CanHappen(n, h) && (h.Ends? || h.Fires? || h.Dropped?)
    requires Settled(n.peer, c) + Sum(n.mailbox, OnMail(c)) == Sum(n.peer.admitted, Is(c))
    ensures var n' := Happen(n, h);
            Settled(n'.peer, c) + Sum(n'.mailbox, OnMail(c)) == Sum(n'.peer.admitted, Is(c))
  {
    match h
    case Ends(i, r) =>
      ResultIsProper(n.peer.codec, n.peer.tasks[i], r, c);
      EndKeepsBalance(n, Happen(n, h), i, ResultMessages(r), c);
    case Fires(i) =>
      var m := TimedOut(n.peer.tasks[i].cid, n.peer.tasks[i].sid);
      SumOne(m, OnMail(c));
      EndKeepsBalance(n, Happen(n, h), i, [m], c);
    case Dropped(i) =>
      DropKeepsBalance(n, i, c);
  }

  lemma AskingKeepsBalance(n: Node, i: nat, c: u64)
    requires CanHappen(n, Asks(i))
    ensures Settled(Happen(n, Asks(i)).peer, c) == Settled(n.peer, c)
  {
    var asked := RelayWait(n.peer.tasks[i].req, n.peer.tasks[i].target);
    SumUpdate(n.peer.tasks, i, asked, OnTask(c));
    assert OnTask(c)(asked) == OnTask(c)(n.peer.tasks[i]);
  }

  lemma ArrivalKeepsBalance(n: Node, m: Message, c: u64)
    requires CanHappen(n, Arrives(m))
    ensures Sum(Happen(n, Arrives(m)).mailbox, OnMail(c)) == Sum(n.mailbox, OnMail(c))
  {
    SumAppend(n.mailbox, m, OnMail(c));
    assert OnMail(c)(m) == 0;
  }

  lemma HappenKeepsBalance(n: Node, h: Happening, c: u64)
    requires CanHappen(n, h) && ProperMail(n.mailbox)
    requires Settled(n.peer, c) + Sum(n.mailbox, OnMail(c)) == Sum(n.peer.admitted, Is(c))
    ensures var n' := Happen(n, h);
            Settled(n'.peer, c) + Sum(n'.mailbox, OnMail(c)) == Sum(n'.peer.admitted, Is(c))
  {
    match h
    case Arrives(m) => ArrivalKeepsBalance(n, m, c);
    case Handles(env) => HandlesKeepsBalance(n, env, c);
    case Asks(i) => AskingKeepsBalance(n, i, c);
    case _ => TaskGoneKeepsBalance(n, h, c);
  }

  lemma HappenKeepsProper(n: Node, h: Happening)
    requires CanHappen(n, h) && ProperMail(n.mailbox) && !n.peer.panicked
    ensures ProperMail(Happen(n, h).mailbox) && !Happen(n, h).peer.panicked
  {
    match h
    case Handles(env) => HandleSettles(n.peer, n.mailbox[0], env, 0);
    case Ends(i, r) => ResultIsProper(n.peer.codec, n.peer.tasks[i], r, 0);
    case _ =>
  }

  lemma HappenKeepsSound(n: Node, h: Happening)
    requires Sound(n) && CanHappen(n, h)
    ensures Sound(Happen(n, h))
  {
    HappenKeepsProper(n, h);
    forall c: u64
      ensures Settled(Happen(n, h).peer, c) + Sum(Happen(n, h).mailbox, OnMail(c)) ==
              Sum(Happen(n, h).peer.admitted, Is(c))
    {
      HappenKeepsBalance(n, h, c);
    }
  }

  lemma {:induction false} HistoryKeepsSound(n: Node, hs: seq<Happening>)
    requires Sound(n) && History(n, hs)
    ensures Sound(Final(n, hs))
    decreases |hs|
  {
    if hs == [] {
    } else {
      HappenKeepsSound(n, hs[0]);
      HistoryKeepsSound(Happen(n, hs[0]), hs[1..]);
    }
  }

  /**
   * Reply accounting: over every run and for every connection id, the incoming calls taken on are
   * exactly those replied to on the wire, being worked on, queued as a result, or lost because
   * sending failed or the connection closed; so replies never outnumber calls. And no error ever
   * reaches an arm that is not there.
   */
  lemma ReplyAccounting(codec: Codec, grace: bool, gated: bool, slots: int, services: map<u64, ServiceMap>,
                        hs: seq<Happening>, c: u64)
    requires History(Fresh(codec, grace, gated, slots, services), hs)
    ensures var n := Final(Fresh(codec, grace, gated, slots, services), hs);
            && Sum(n.peer.wire, OnWire(c)) + Sum(n.peer.tasks, OnTask(c)) + Sum(n.mailbox, OnMail(c))
               + Sum(n.peer.lost, Is(c)) == Sum(n.peer.admitted, Is(c))
            && Sum(n.peer.wire, OnWire(c)) <= Sum(n.peer.admitted, Is(c))
            && !n.peer.panicked
  {
    var n0 := Fresh(codec, grace, gated, slots, services);
    forall d: u64
      ensures Settled(n0.peer, d) + Sum(n0.mailbox, OnMail(d)) == Sum(n0.peer.admitted, Is(d))
    {
    }
    HistoryKeepsSound(n0, hs);
    var n := Final(n0, hs);
    assert Settled(n.peer, c) + Sum(n.mailbox, OnMail(c)) == Sum(n.peer.admitted, Is(c));
  }

  /** The tasks of a send end with nothing, or with an error that nobody is told. */
  lemma DeliveryIsSilent(codec: Codec, t: Task, r: Result<Response, PeerErr>)
    requires (t.Deliver? || t.Broadcast? || t.RelaySend?) && CanYield(codec, t, r)
    ensures ResultMessages(r) == [] || (r.Err? && r.error.ctx.cid.None? && ResultMessages(r) == [RequestError(r.error)])
  {
  }

  lemma StartedTask(tasks: seq<Task>, tasks': seq<Task>, t: Task)
    requires tasks' == tasks + [t]
    ensures tasks' != tasks && tasks' != [] && tasks'[|tasks'| - 1] == t
  {
  }

  /** No incoming send ever leads to a frame, neither at once nor when its task ends. */
  lemma SendsAreSilent(s: PeerState, f: Frame, env: Env, t: Task, r: Result<Response, PeerErr>,
                       later: PeerState, env': Env)
    requires Kind(f).IncomingSend?
    ensures var s' := Handle(s, Incoming(Ok(f)), env);
            && s'.wire == s.wire && s'.closed == s.closed && s'.calls == s.calls
            && (s'.tasks == s.tasks + [t] && CanYield(s.codec, t, r) ==>
                  ResultMessages(r) == [] ||
                  (&& |ResultMessages(r)| == 1
                   && var after := Handle(later, ResultMessages(r)[0], env');
                      after.wire == later.wire && after.closed == later.closed && after.calls == later.calls))
  {
    var s' := Handle(s, Incoming(Ok(f)), env);
    if !s.closed {
      IncomingSendShape(s, f, env);
    }
    if s'.tasks == s.tasks + [t] && CanYield(s.codec, t, r) {
      StartedTask(s.tasks, s'.tasks, t);
      DeliveryIsSilent(s.codec, t, r);
      if r.Err? {
        RequestErrorShape(later, r.error, env');
      }
    }
  }

  // ---------------------------------------------------------------- timers

  predicate HasTimer(tasks: seq<Task>, c: u64) {
    exists i | 0 <= i < |tasks| :: tasks[i].Timer? && tasks[i].cid == c
  }

  predicate HasTimeout(mailbox: seq<Message>, c: u64) {
    exists i | 0 <= i < |mailbox| :: mailbox[i].TimedOut? && mailbox[i].cid == c
  }

  /** Every outstanding call has a timer running or a timeout queued. */
  predicate Covered(n: Node) {
    forall c | c in n.peer.responses :: HasTimer(n.peer.tasks, c) || HasTimeout(n.mailbox, c)
  }

  lemma TimerKept(tasks: seq<Task>, t: Task, c: u64)
    requires HasTimer(tasks, c) || (t.Timer? && t.cid == c)
    ensures HasTimer(tasks + [t], c)
  {
    if HasTimer(tasks, c) {
      var i :| 0 <= i < |tasks| && tasks[i].Timer? && tasks[i].cid == c;
      assert (tasks + [t])[i] == tasks[i];
    } else {
      assert (tasks + [t])[|tasks|] == t;
    }
  }

  lemma TimerGone(tasks: seq<Task>, i: nat, c: u64)
    requires HasTimer(tasks, c) && i < |tasks|
    ensures HasTimer(Without(tasks, i), c) || (tasks[i].Timer? && tasks[i].cid == c)
  {
    var j :| 0 <= j < |tasks| && tasks[j].Timer? && tasks[j].cid == c;
    if j < i {
      assert Without(tasks, i)[j] == tasks[j];
    } else if j > i {
      assert Without(tasks, i)[j - 1] == tasks[j];
    }
  }

  lemma TimeoutKept(mailbox: seq<Message>, ms: seq<Message>, c: u64)
    requires HasTimeout(mailbox, c) || HasTimeout(ms, c)
    ensures HasTimeout(mailbox + ms, c)
  {
    if HasTimeout(mailbox, c) {
      var i :| 0 <= i < |mailbox| && mailbox[i].TimedOut? && mailbox[i].cid == c;
      assert (mailbox + ms)[i] == mailbox[i];
    } else {
      var i :| 0 <= i < |ms| && ms[i].TimedOut? && ms[i].cid == c;
      assert (mailbox + ms)[|mailbox| + i] == ms[i];
    }
  }

  /** Handling a message starts a timer for a new entry and forgets only the entry that timed out. */
  lemma EffectsOnTimers(s: PeerState, m: Message, s': PeerState, c: u64)
    requires Effects(s, m, s') && c in s'.responses && (s'.closed ==> s'.responses == map[])
    ensures HasTimer(s'.tasks, c) || (c in s.responses && !HasTimer(s.tasks, c) && (m.TimedOut? ==> m.cid != c))
  {
    if s'.tasks != s.tasks {
      var t := s'.tasks[|s'.tasks| - 1];
      if HasTimer(s.tasks, c) || (t.Timer? && t.cid == c) {
        TimerKept(s.tasks, t, c);
      }
    }
  }

  lemma HappenKeepsCover(n: Node, h: Happening)
    requires Covered(n) && Props.Inv(n.peer) && CanHappen(n, h)
    ensures Covered(Happen(n, h)) && Props.Inv(Happen(n, h).peer)
  {
    var n' := Happen(n, h);
    if h.Handles? {
      Props.HandleKeepsInv(n.peer, n.mailbox[0], h.env);
    }
    forall c | c in n'.peer.responses
      ensures HasTimer(n'.peer.tasks, c) || HasTimeout(n'.mailbox, c)
    {
      match h
      case Arrives(m) =>
        if HasTimeout(n.mailbox, c) {
          TimeoutKept(n.mailbox, [m], c);
        }
      case Handles(env) =>
        HandleEffects(n.peer, n.mailbox[0], env);
        EffectsOnTimers(n.peer, n.mailbox[0], n'.peer, c);
        if HasTimeout(n.mailbox, c) {
          var i :| 0 <= i < |n.mailbox| && n.mailbox[i].TimedOut? && n.mailbox[i].cid == c;
          if i > 0 {
            assert n.mailbox[1..][i - 1] == n.mailbox[i];
          }
        }
      case Ends(i, r) =>
        if HasTimer(n.peer.tasks, c) {
          TimerGone(n.peer.tasks, i, c);
        } else {
          TimeoutKept(n.mailbox, ResultMessages(r), c);
        }
      case Asks(i) =>
        if HasTimer(n.peer.tasks, c) {
          var j :| 0 <= j < |n.peer.tasks| && n.peer.tasks[j].Timer? && n.peer.tasks[j].cid == c;
          assert n'.peer.tasks[j] == n.peer.tasks[j];
        }
      case Fires(i) =>
        var fired := [TimedOut(n.peer.tasks[i].cid, n.peer.tasks[i].sid)];
        if HasTimer(n.peer.tasks, c) {
          TimerGone(n.peer.tasks, i, c);
          if n.peer.tasks[i].cid == c {
            assert fired[0].TimedOut? && fired[0].cid == c;
            TimeoutKept(n.mailbox, fired, c);
          }
        } else {
          TimeoutKept(n.mailbox, fired, c);
        }
      case Dropped(_) =>
    }
  }

  lemma {:induction false} HistoryKeepsCover(n: Node, hs: seq<Happening>)
    requires Covered(n) && Props.Inv(n.peer) && History(n, hs)
    ensures Covered(Final(n, hs)) && Props.Inv(Final(n, hs).peer)
    decreases |hs|
  {
    if hs == [] {
    } else {
      HappenKeepsCover(n, hs[0]);
      HistoryKeepsCover(Happen(n, hs[0]), hs[1..]);
    }
  }

  /** Handling timeouts only. */
  function Expire(s: PeerState, ts: seq<(u64, u64)>): PeerState {
    if ts == [] then s else HandleTimeout(Expire(s, ts[..|ts| - 1]), ts[|ts| - 1].0, ts[|ts| - 1].1)
  }

  /** Timeouts remove their own entries and nothing else; a stale one changes nothing. */
  lemma {:induction false} ExpireRemoves(s: PeerState, ts: seq<(u64, u64)>)
    ensures var s' := Expire(s, ts);
            && s'.responses == s.responses - (set i | 0 <= i < |ts| :: ts[i].0)
            && (s'.responses == s.responses ==> s' == s)
  {
    if ts == [] {
    } else {
      var n := |ts| - 1;
      ExpireRemoves(s, ts[..n]);
      var all := set i | 0 <= i < |ts| :: ts[i].0;
      var most := set i | 0 <= i < n :: ts[..n][i].0;
      assert all == most + {ts[n].0} by {
        forall i | 0 <= i < n
          ensures ts[i].0 in most
        {
          assert ts[..n][i].0 == ts[i].0;
        }
        assert ts[n].0 in all;
      }
    }
  }

  /** The timeouts still to come: queued ones, then those of running timers. */
  function QueuedTimeouts(mailbox: seq<Message>): seq<(u64, u64)> {
    if mailbox == [] then []
    else (if mailbox[0].TimedOut? then [(mailbox[0].cid, mailbox[0].sid)] else []) + QueuedTimeouts(mailbox[1..])
  }

  function RunningTimers(tasks: seq<Task>): seq<(u64, u64)> {
    if tasks == [] then []
    else (if tasks[0].Timer? then [(tasks[0].cid, tasks[0].sid)] else []) + RunningTimers(tasks[1..])
  }

  lemma {:induction false} QueuedIsListed(mailbox: seq<Message>, c: u64)
    requires HasTimeout(mailbox, c)
    ensures exists i | 0 <= i < |QueuedTimeouts(mailbox)| :: QueuedTimeouts(mailbox)[i].0 == c
  {
    var head := if mailbox[0].TimedOut? then [(mailbox[0].cid, mailbox[0].sid)] else [];
    if mailbox[0].TimedOut? && mailbox[0].cid == c {
      assert QueuedTimeouts(mailbox)[0].0 == c;
    } else {
      var j :| 0 <= j < |mailbox| && mailbox[j].TimedOut? && mailbox[j].cid == c;
      assert mailbox[1..][j - 1] == mailbox[j];
      QueuedIsListed(mailbox[1..], c);
      var i :| 0 <= i < |QueuedTimeouts(mailbox[1..])| && QueuedTimeouts(mailbox[1..])[i].0 == c;
      assert QueuedTimeouts(mailbox)[|head| + i].0 == c;
    }
  }

  lemma {:induction false} RunningIsListed(tasks: seq<Task>, c: u64)
    requires HasTimer(tasks, c)
    ensures exists i | 0 <= i < |RunningTimers(tasks)| :: RunningTimers(tasks)[i].0 == c
  {
    var head := if tasks[0].Timer? then [(tasks[0].cid, tasks[0].sid)] else [];
    if tasks[0].Timer? && tasks[0].cid == c {
      assert RunningTimers(tasks)[0].0 == c;
    } else {
      var j :| 0 <= j < |tasks| && tasks[j].Timer? && tasks[j].cid == c;
      assert tasks[1..][j - 1] == tasks[j];
      RunningIsListed(tasks[1..], c);
      var i :| 0 <= i < |RunningTimers(tasks[1..])| && RunningTimers(tasks[1..])[i].0 == c;
      assert RunningTimers(tasks)[|head| + i].0 == c;
    }
  }

  /**
   * Timer cover and drain: in every reachable state each outstanding call has a timer running or a
   * timeout queued, so once all of these have been handled the table is empty.
   */
  lemma TimersDrain(codec: Codec, grace: bool, gated: bool, slots: int, services: map<u64, ServiceMap>,
                    hs: seq<Happening>)
    requires History(Fresh(codec, grace, gated, slots, services), hs)
    ensures var n := Final(Fresh(codec, grace, gated, slots, services), hs);
            && Covered(n)
            && Expire(n.peer, QueuedTimeouts(n.mailbox) + RunningTimers(n.peer.tasks)).responses == map[]
  {
    var n0 := Fresh(codec, grace, gated, slots, services);
    HistoryKeepsCover(n0, hs);
    var n := Final(n0, hs);
    var queued, running := QueuedTimeouts(n.mailbox), RunningTimers(n.peer.tasks);
    var ts := queued + running;
    ExpireRemoves(n.peer, ts);
    forall c | c in n.peer.responses
      ensures c in set i | 0 <= i < |ts| :: ts[i].0
    {
      if HasTimeout(n.mailbox, c) {
        QueuedIsListed(n.mailbox, c);
        var i :| 0 <= i < |queued| && queued[i].0 == c;
        assert ts[i].0 == c;
      } else {
        RunningIsListed(n.peer.tasks, c);
        var i :| 0 <= i < |running| && running[i].0 == c;
        assert ts[|queued| + i].0 == c;
      }
    }
  }
}
