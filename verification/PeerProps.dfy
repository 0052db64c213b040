/** What every run of a peer keeps, whatever messages it handles and however its surroundings answer. */
module PeerProps {
  import opened Wrappers
  import opened LittleEndian
  import opened WireFormat
  import opened PeerTypes
  import opened PeerSpec
  import opened PeerShape

  // ---------------------------------------------------------------- connection ids

  /** How many calls share no connection id: one less than the 64-bit range, zero being reserved. */
  const CYCLE: nat := 0xFFFF_FFFF_FFFF_FFFF

  /** The id of call number `k`. */
  function CidOf(k: nat): u64 {
    k % CYCLE + 1
  }

  /** The counter after `n` calls. */
  function CounterAfter(n: nat): u64 {
    if n > 0 && n % CYCLE == 0 then 0 else n % CYCLE + 1
  }

  lemma CounterSteps(n: nat)
    ensures NextCid(CounterAfter(n)) == CidOf(n)
    ensures Increment(CidOf(n)) == CounterAfter(n + 1)
  {
    var q, r := n / CYCLE, n % CYCLE;
    assert n == q * CYCLE + r;
    if r == CYCLE - 1 {
      ModUnique(n + 1, q + 1, 0);
    } else {
      ModUnique(n + 1, q, r + 1);
    }
  }

  lemma ModUnique(n: nat, q: nat, r: nat)
    requires n == q * CYCLE + r && r < CYCLE
    ensures n % CYCLE == r
  {
  }

  lemma CidsDiffer(j: nat, k: nat)
    requires j < k && CidOf(j) == CidOf(k)
    ensures k - j >= CYCLE
  {
    var n := k / CYCLE - j / CYCLE;
    assert k - j == n * CYCLE;
    assert n >= 1;
  }

  // ---------------------------------------------------------------- the table of outstanding calls

  /** A sender is kept exactly for the calls whose receiver still waits, under their connection id. */
  predicate Table(calls: seq<CallRecord>, responses: map<u64, nat>) {
    && (forall c | c in responses ::
          responses[c] < |calls| && calls[responses[c]].status.Waiting? && calls[responses[c]].frame.cid == c)
    && (forall k | 0 <= k < |calls| && calls[k].status.Waiting? ::
          calls[k].frame.cid in responses && responses[calls[k].frame.cid] == k)
  }

  predicate Numbered(calls: seq<CallRecord>) {
    forall k | 0 <= k < |calls| :: calls[k].frame.cid == CidOf(k)
  }

  /** Nothing is left of the connection. */
  predicate Shut(s: PeerState) {
    s.closed && !s.outgoing && !s.addr && s.services == map[] && s.responses == map[]
  }

  /** Within one cycle a receiver is cancelled by closing only. */
  predicate CancelledByClose(s: PeerState) {
    !s.closed && |s.calls| <= CYCLE ==> forall k | 0 <= k < |s.calls| :: !s.calls[k].status.Cancelled?
  }

  predicate Inv(s: PeerState) {
    && Table(s.calls, s.responses)
    && Numbered(s.calls)
    && s.counter == CounterAfter(|s.calls|)
    && (if s.closed then Shut(s) else s.outgoing && s.addr)
    && CancelledByClose(s)
  }

  lemma ResolvingKeepsInv(s: PeerState, s': PeerState, cid: u64, status: Status)
    requires Inv(s) && Resolving(s, s', cid, status) && !status.Waiting? && !status.Cancelled?
    ensures Inv(s')
  {
  }

  lemma ClosingKeepsInv(s: PeerState, s': PeerState)
    requires Inv(s) && Closing(s, s')
    ensures Inv(s')
  {
    forall k | 0 <= k < |s'.calls|
      ensures !s'.calls[k].status.Waiting?
    {
      if s.calls[k].status.Waiting? {
        assert s.calls[k].frame.cid in s.responses;
      }
    }
  }

  lemma RefusingKeepsTable(s: PeerState, s': PeerState, frame: Frame, caller: Caller)
    requires Table(s.calls, s.responses) && Numbered(s.calls) && frame.cid == CidOf(|s.calls|)
    requires Refusing(s, s', frame, caller)
    ensures Table(s'.calls, s'.responses) && Numbered(s'.calls)
  {
  }

  lemma RegisteringKeepsTable(s: PeerState, s': PeerState, frame: Frame, caller: Caller)
    requires Table(s.calls, s.responses) && Numbered(s.calls) && frame.cid == CidOf(|s.calls|)
    requires Registering(s, s', frame, caller)
    ensures Table(s'.calls, s'.responses) && Numbered(s'.calls)
    ensures |s.calls| < CYCLE ==> frame.cid !in s.responses
  {
    var n := |s.calls|;
    if frame.cid in s.responses {
      CidsDiffer(s.responses[frame.cid], n);
    }
    assert s'.calls[n] == CallRecord(frame, caller, Waiting);
    forall c | c in s'.responses
      ensures var k := s'.responses[c]; k < n + 1 && s'.calls[k].status.Waiting? && s'.calls[k].frame.cid == c
    {
      if c != frame.cid {
        assert c in s.responses;
      }
    }
    forall k | 0 <= k < n && s'.calls[k].status.Waiting?
      ensures s'.calls[k].frame.cid in s'.responses && s'.responses[s'.calls[k].frame.cid] == k
    {
      assert s.calls[k].status.Waiting?;
    }
  }

  lemma CallingKeepsInv(s: PeerState, s': PeerState, wf: Frame, caller: Caller)
    requires Inv(s) && !s.closed && Calling(s, s', wf, caller)
    ensures Inv(s')
  {
    CounterSteps(|s.calls|);
    var frame := wf.(cid := CidOf(|s.calls|));
    if Refusing(s, s', frame, caller) {
      RefusingKeepsTable(s, s', frame, caller);
    } else {
      RegisteringKeepsTable(s, s', frame, caller);
    }
  }

  lemma EffectsKeepInv(s: PeerState, m: Message, s': PeerState)
    requires Inv(s) && Effects(s, m, s')
    ensures Inv(s')
  {
    match ShapeOf(s, m)
    case Steady =>
      if Closing(s, s') {
        ClosingKeepsInv(s, s');
      }
    case Resolves(cid, status) => ResolvingKeepsInv(s, s', cid, status);
    case Calls => CallingKeepsInv(s, s', m.wf, m.caller);
  }

  lemma AsideKeepsInv(s: PeerState, s': PeerState)
    requires Inv(s) && (Calm(s, s') || Closing(s, s'))
    ensures Inv(s')
  {
    if Closing(s, s') {
      ClosingKeepsInv(s, s');
    }
  }

  lemma HandleKeepsInv(s: PeerState, m: Message, env: Env)
    requires Inv(s)
    ensures Inv(Handle(s, m, env))
  {
    HandleEffects(s, m, env);
    EffectsKeepInv(s, m, Handle(s, m, env));
  }

  // ---------------------------------------------------------------- runs

  /** One thing that happens to a peer: a message is handled, or a task of the nursery ends. */
  datatype Input = Handled(m: Message, env: Env) | Ended(task: nat)

  function Next(s: PeerState, i: Input): PeerState {
    match i
    case Handled(m, env) => Handle(s, m, env)
    case Ended(n) => if n < |s.tasks| then s.(tasks := s.tasks[..n] + s.tasks[n + 1..]) else s
  }

  function After(s: PeerState, inputs: seq<Input>): PeerState {
    if inputs == [] then s else Next(After(s, inputs[..|inputs| - 1]), inputs[|inputs| - 1])
  }

  lemma {:induction false} RunKeepsInv(s: PeerState, inputs: seq<Input>)
    requires Inv(s)
    ensures Inv(After(s, inputs))
  {
    if inputs == [] {
    } else {
      var n := |inputs| - 1;
      RunKeepsInv(s, inputs[..n]);
      if inputs[n].Handled? {
        HandleKeepsInv(After(s, inputs[..n]), inputs[n].m, inputs[n].env);
      }
    }
  }

  /** Calls are only added, and only a waiting receiver is ever told something. */
  predicate Evolves(calls: seq<CallRecord>, calls': seq<CallRecord>) {
    && |calls| <= |calls'|
    && forall k | 0 <= k < |calls| ::
         && calls'[k].frame == calls[k].frame && calls'[k].caller == calls[k].caller
         && (!calls[k].status.Waiting? ==> calls'[k].status == calls[k].status)
  }

  lemma EffectsEvolve(s: PeerState, m: Message, s': PeerState)
    requires Effects(s, m, s')
    ensures Evolves(s.calls, s'.calls) && s.wire <= s'.wire
  {
  }

  lemma HandleEvolves(s: PeerState, m: Message, env: Env)
    ensures Evolves(s.calls, Handle(s, m, env).calls)
    ensures s.wire <= Handle(s, m, env).wire
  {
    HandleEffects(s, m, env);
    EffectsEvolve(s, m, Handle(s, m, env));
  }

  lemma {:induction false} RunEvolves(s: PeerState, inputs: seq<Input>)
    ensures Evolves(s.calls, After(s, inputs).calls)
    ensures s.wire <= After(s, inputs).wire
  {
    if inputs == [] {
    } else {
      var n := |inputs| - 1;
      RunEvolves(s, inputs[..n]);
      if inputs[n].Handled? {
        HandleEvolves(After(s, inputs[..n]), inputs[n].m, inputs[n].env);
      }
    }
  }

  // ---------------------------------------------------------------- main results

  /**
   * Cid arithmetic: in every run the k-th call handled while open carries (k mod 2^64-1) + 1, never
   * zero, and an entry that a new call displaces is at least 2^64-1 calls old.
   */
  lemma CidArithmetic(s0: PeerState, inputs: seq<Input>)
    requires Inv(s0)
    ensures var s := After(s0, inputs);
            && (forall k | 0 <= k < |s.calls| ::
                  s.calls[k].frame.cid == k % 0xFFFF_FFFF_FFFF_FFFF + 1 && s.calls[k].frame.cid != NULL_ID)
            && NextCid(s.counter) == |s.calls| % 0xFFFF_FFFF_FFFF_FFFF + 1
            && (NextCid(s.counter) in s.responses ==>
                  |s.calls| - s.responses[NextCid(s.counter)] >= 0xFFFF_FFFF_FFFF_FFFF)
  {
    RunKeepsInv(s0, inputs);
    var s := After(s0, inputs);
    CounterSteps(|s.calls|);
    if NextCid(s.counter) in s.responses {
      CidsDiffer(s.responses[NextCid(s.counter)], |s.calls|);
    }
  }

  /** What became of a receiver. */
  datatype Fate = NeverIssued | Outstanding | GotReply | GotError | TimedOutWaiting | GotCancelled

  function FateOf(st: Status): Fate {
    match st
    case Refused => NeverIssued
    case Waiting => Outstanding
    case Answered(_) => GotReply
    case Failed(_, _) => GotError
    case Expired(_) => TimedOutWaiting
    case Cancelled => GotCancelled
  }

  function Count(calls: seq<CallRecord>, fate: Fate): nat {
    if calls == [] then 0
    else Count(calls[..|calls| - 1], fate) + if FateOf(calls[|calls| - 1].status) == fate then 1 else 0
  }

  lemma {:induction false} FatesArePartition(calls: seq<CallRecord>)
    ensures |calls| - Count(calls, NeverIssued) ==
            Count(calls, Outstanding) + Count(calls, GotReply) + Count(calls, GotError)
            + Count(calls, TimedOutWaiting) + Count(calls, GotCancelled)
  {
    if calls != [] {
      FatesArePartition(calls[..|calls| - 1]);
    }
  }

  /** The cids whose sender belongs to one of the first `n` calls. */
  function Below(responses: map<u64, nat>, n: nat): set<u64> {
    set c | c in responses && responses[c] < n
  }

  /** The waiting receivers are counted by the table. */
  lemma {:induction false} WaitingIsOutstanding(calls: seq<CallRecord>, responses: map<u64, nat>, n: nat)
    requires Table(calls, responses) && n <= |calls|
    ensures Count(calls[..n], Outstanding) == |Below(responses, n)|
    decreases n
  {
    if n == 0 {
      assert Below(responses, n) == {};
    } else {
      WaitingIsOutstanding(calls, responses, n - 1);
      var last := calls[n - 1];
      assert calls[..n][..n - 1] == calls[..n - 1] && calls[..n][n - 1] == last;
      var before := Below(responses, n - 1);
      if last.status.Waiting? {
        assert last.frame.cid !in before;
        assert Below(responses, n) == before + {last.frame.cid};
      } else {
        assert Below(responses, n) == before;
      }
    }
  }

  /**
   * Exactly-once resolution: in every reachable state the receivers issued are those outstanding,
   * answered, failed by the remote, timed out and cancelled; what one was told never changes; and
   * within one cycle of connection ids closing alone cancels.
   */
  lemma ExactlyOnce(s0: PeerState, inputs: seq<Input>, more: seq<Input>)
    requires Inv(s0)
    ensures var s := After(s0, inputs);
            var t := After(s, more);
            && |s.calls| - Count(s.calls, NeverIssued) ==
                 |s.responses| + Count(s.calls, GotReply) + Count(s.calls, GotError)
                 + Count(s.calls, TimedOutWaiting) + Count(s.calls, GotCancelled)
            && (forall k | 0 <= k < |s.calls| && !s.calls[k].status.Waiting? ::
                  k < |t.calls| && t.calls[k].status == s.calls[k].status)
            && (!s.closed && |s.calls| <= CYCLE ==> forall k | 0 <= k < |s.calls| :: !s.calls[k].status.Cancelled?)
  {
    RunKeepsInv(s0, inputs);
    var s := After(s0, inputs);
    RunEvolves(s, more);
    FatesArePartition(s.calls);
    WaitingIsOutstanding(s.calls, s.responses, |s.calls|);
    assert s.calls[..|s.calls|] == s.calls;
    assert Below(s.responses, |s.calls|) == s.responses.Keys;
  }

  lemma ShutEffects(s: PeerState, m: Message, s': PeerState)
    requires Shut(s) && Effects(s, m, s')
    ensures Shut(s') && s'.wire == s.wire && s'.calls == s.calls && s'.admitted == s.admitted
  {
    assert Drop(s.calls, {}) == s.calls;
  }

  lemma ShutStaysShut(s: PeerState, i: Input)
    requires Shut(s)
    ensures var s' := Next(s, i);
            Shut(s') && s'.wire == s.wire && s'.calls == s.calls && s'.admitted == s.admitted
  {
    if i.Handled? {
      HandleEffects(s, i.m, i.env);
      ShutEffects(s, i.m, Next(s, i));
    }
  }

  /**
   * Closed is absorbing: however the connection was closed, nothing that happens later brings back
   * the sink, the address, a service or an outstanding call, puts a frame on the wire, hands out a
   * receiver or takes on a call.
   */
  lemma {:induction false} ClosedIsAbsorbing(s0: PeerState, inputs: seq<Input>, more: seq<Input>)
    requires Inv(s0) && After(s0, inputs).closed
    ensures var s := After(s0, inputs);
            var t := After(s, more);
            && !t.outgoing && !t.addr && t.services == map[] && t.responses == map[] && t.closed
            && t.wire == s.wire && t.calls == s.calls && t.admitted == s.admitted
            && (forall k | 0 <= k < |t.calls| :: !t.calls[k].status.Waiting?)
            && (forall wf, caller, env :: HandleCall(t, wf, caller, env).1 == Err(ConnectionClosed(Ctx(None, None))))
    decreases |more|
  {
    RunKeepsInv(s0, inputs);
    if more == [] {
    } else {
      var n := |more| - 1;
      ClosedIsAbsorbing(s0, inputs, more[..n]);
      ShutStaysShut(After(After(s0, inputs), more[..n]), more[n]);
    }
  }

  /**
   * What the caller of a call gets: a receiver that waits under the id of the frame that just went out, an
   * id that within a cycle no other call is waiting under; or an error, and nothing waits.
   */
  lemma CallOutcome(s: PeerState, wf: Frame, caller: Caller, env: Env)
    requires Inv(s)
    ensures var (s', r) := HandleCall(s, wf, caller, env);
            match r
            case Ok(k) =>
              && k == |s.calls| && |s'.calls| == k + 1
              && var f := s'.calls[k].frame;
                 && f == wf.(cid := CidOf(k)) && s'.calls[k].status.Waiting?
                 && s'.wire == s.wire + [f] && s'.responses == s.responses[f.cid := k]
                 && (k < CYCLE ==> f.cid !in s.responses)
            case Err(_) => s'.responses == s.responses
    ensures s.closed ==> HandleCall(s, wf, caller, env).1.Err?
  {
    if !s.closed {
      var n := |s.calls|;
      CounterSteps(n);
      var frame := wf.(cid := CidOf(n));
      var s1 := s.(counter := Increment(frame.cid), wire := s.wire + [frame]);
      if Sends(s, env) && env.spawnOk {
        assert HandleCall(s, wf, caller, env) == (Register(s1, frame, caller).0, Ok(n));
        if frame.cid in s.responses {
          CidsDiffer(s.responses[frame.cid], n);
        }
      } else {
        assert HandleCall(s, wf, caller, env).1.Err?;
      }
    }
  }

  /** Telling the receiver kept under `cid`: it is told just that, and no other is. */
  lemma ResolveOutcome(s: PeerState, cid: u64, status: Status)
    requires Inv(s) && !status.Waiting? && !status.Cancelled?
    ensures var s' := Resolve(s, cid, status);
            && Inv(s') && cid !in s'.responses
            && (cid in s.responses ==>
                  s'.calls == s.calls[s.responses[cid] := s.calls[s.responses[cid]].(status := status)])
            && (cid !in s.responses ==> s' == s)
  {
    ResolveShape(s, cid, status);
    ResolvingKeepsInv(s, Resolve(s, cid, status), cid, status);
  }

  /** Closing leaves nothing of the connection and nobody waiting. */
  lemma CloseOutcome(s: PeerState, remote: bool, env: Env)
    requires Inv(s)
    ensures var s' := HandleClose(s, remote, env);
            Inv(s') && Shut(s') && forall k | 0 <= k < |s'.calls| :: !s'.calls[k].status.Waiting?
  {
    CloseShape(s, remote, env);
    ClosingKeepsInv(s, HandleClose(s, remote, env));
  }

  /**
   * An error ends the connection if and only if it names a call and is of the wire or of spawning; it
   * does so from inside the error reply, which goes out first, and nothing of the connection is left.
   */
  lemma FatalErrorCloses(s: PeerState, e: PeerErr, env: Env)
    requires Inv(s) && !s.closed
    ensures var s' := HandleRequestError(s, e, env);
            && (s'.closed <==> e.ctx.cid.Some? && (e.WireFormat? || e.Spawn?))
            && (s'.closed ==> Shut(s'))
            && (if e.ctx.cid.Some? && RemoteView(e).Some? && env.sendErr.None?
                then s'.wire == s.wire + [PrepError(s.codec, e.ctx.cid.value, RemoteView(e).value.0)]
                else s'.wire == s.wire)
  {
    var told := s.(events := s.events + [PeerEvent.Error(e)]);
    if e.ctx.cid.Some? && RemoteView(e).Some? {
      var (err, close) := RemoteView(e).value;
      var msg := PrepError(told.codec, e.ctx.cid.value, err);
      var sent := Put(told, msg, env);
      PutShape(told, msg, env);
      CloseShape(sent, false, env);
      assert HandleRequestError(s, e, env) == if s.outgoing && close then HandleClose(sent, false, env) else sent;
    }
  }

  /** An error of the incoming stream names no call: handling it adds an event and nothing else. */
  lemma StreamErrorIsAnEvent(s: PeerState, e: WireErr, env: Env)
    requires Inv(s) && !s.closed
    ensures Handle(s, Incoming(Err(e)), env) ==
            s.(events := s.events + [PeerEvent.Error(PeerErr.WireFormat(Ctx(None, None), e))])
  {
  }

  lemma CloseShutsNow(s: PeerState, remote: bool, env: Env)
    ensures var s' := Handle(s, CloseConnection(remote), env); Shut(s') && s'.wire == s.wire
  {
    CloseShape(s, remote, env);
    assert Handle(s, CloseConnection(remote), env) == HandleClose(s, remote, env);
  }

  /** A peer that handled a close stays shut, whatever came before and comes after. */
  lemma {:induction false} CloseShuts(s: PeerState, inputs: seq<Input>, i: nat)
    requires i < |inputs| && inputs[i].Handled? && inputs[i].m.CloseConnection?
    ensures Shut(After(s, inputs))
    decreases |inputs|
  {
    var n := |inputs| - 1;
    var before, last := After(s, inputs[..n]), inputs[n];
    assert After(s, inputs) == Next(before, last);
    if i < n {
      CloseShuts(s, inputs[..n], i);
      ShutStaysShut(before, last);
    } else {
      CloseShutsNow(before, last.m.remote, last.env);
    }
  }
}
