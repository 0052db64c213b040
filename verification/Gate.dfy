/** Several connections behind one back pressure: exact slot accounting and the bound it gives. */
module Gate {
  import opened Wrappers
  import opened LittleEndian
  import opened WireFormat
  import opened PeerTypes
  import opened PeerSpec
  import opened PeerShape

  /** A peer and the incoming messages that have passed the gate but are not handled yet. */
  datatype Conn = Conn(peer: PeerState, passed: seq<Result<Frame, WireErr>>)

  /** All connections, the shared counter, the calls taken on and the call responses handled. */
  datatype Hub = Hub(available: int, conns: seq<Conn>, admitted: nat, freed: nat)

  datatype Move =
    | Pass(msg: Result<Frame, WireErr>)     // the reader is let through
    | Take(env: Env)                        // the oldest passed message is handled
    | Other(m: Message, env: Env)           // any other message is handled

  /** At most `room` messages of a connection can be past the gate at once. */
  predicate CanMove(h: Hub, i: nat, move: Move, room: nat)
    requires i < |h.conns|
  {
    match move
    case Pass(_) => h.available > 0 && |h.conns[i].passed| < room
    case Take(_) => h.conns[i].passed != []
    case Other(m, _) => !m.Incoming?
  }

  function HandleShared(h: Hub, i: nat, m: Message, env: Env, passed: seq<Result<Frame, WireErr>>): Hub
    requires i < |h.conns|
  {
    var peer := h.conns[i].peer.(slots := h.available);
    var peer' := Handle(peer, m, env);
    Hub(peer'.slots, h.conns[i := Conn(peer', passed)],
        h.admitted + if TakesCall(peer, m) then 1 else 0,
        h.freed + if m.CallResponse? then 1 else 0)
  }

  function Moved(h: Hub, i: nat, move: Move): Hub
    requires i < |h.conns|
    requires move.Take? ==> h.conns[i].passed != []
  {
    var c := h.conns[i];
    match move
    case Pass(msg) => h.(conns := h.conns[i := c.(passed := c.passed + [msg])])
    case Take(env) => HandleShared(h, i, Incoming(c.passed[0]), env, c.passed[1..])
    case Other(m, env) => HandleShared(h, i, m, env, c.passed)
  }

  function Load(conns: seq<Conn>): nat {
    if conns == [] then 0 else Load(conns[..|conns| - 1]) + |conns[|conns| - 1].passed|
  }

  lemma {:induction false} LoadUpdate(conns: seq<Conn>, i: nat, c: Conn)
    requires i < |conns|
    ensures Load(conns[i := c]) == Load(conns) - |conns[i].passed| + |c.passed|
  {
    var n := |conns| - 1;
    if i < n {
      assert conns[i := c][..n] == conns[..n][i := c];
      LoadUpdate(conns[..n], i, c);
    } else {
      assert conns[i := c][..n] == conns[..n];
    }
  }

  lemma {:induction false} LoadBound(conns: seq<Conn>, room: nat)
    requires forall i | 0 <= i < |conns| :: |conns[i].passed| <= room
    ensures Load(conns) <= |conns| * room
  {
    if conns == [] {
    } else {
      var n := |conns| - 1;
      LoadBound(conns[..n], room);
      assert (n + 1) * room == n * room + room;
    }
  }

  /** `slots` is what the back pressure was made with. */
  predicate HubInv(h: Hub, slots: int, room: nat) {
    && (forall i | 0 <= i < |h.conns| :: |h.conns[i].passed| <= room && h.conns[i].peer.gated)
    && h.available == slots - h.admitted + h.freed
    && h.available - Load(h.conns) >= 1 - |h.conns| * room
  }

  lemma MoveKeepsInv(h: Hub, i: nat, move: Move, slots: int, room: nat)
    requires HubInv(h, slots, room) && i < |h.conns| && CanMove(h, i, move, room)
    ensures HubInv(Moved(h, i, move), slots, room) && |Moved(h, i, move).conns| == |h.conns|
  {
    var c := h.conns[i];
    var h' := Moved(h, i, move);
    LoadUpdate(h.conns, i, h'.conns[i]);
    match move
    case Pass(_) => LoadBound(h'.conns, room);
    case Take(env) => HandleEffects(c.peer.(slots := h.available), Incoming(c.passed[0]), env);
    case Other(m, env) => HandleEffects(c.peer.(slots := h.available), m, env);
  }

  /** A run: who moves how, in order. */
  predicate Moves(h: Hub, moves: seq<(nat, Move)>, room: nat)
    decreases |moves|
  {
    moves == [] ||
    (moves[0].0 < |h.conns| && CanMove(h, moves[0].0, moves[0].1, room)
     && Moves(Moved(h, moves[0].0, moves[0].1), moves[1..], room))
  }

  function AfterMoves(h: Hub, moves: seq<(nat, Move)>, room: nat): Hub
    requires Moves(h, moves, room)
    decreases |moves|
  {
    if moves == [] then h else AfterMoves(Moved(h, moves[0].0, moves[0].1), moves[1..], room)
  }

  lemma {:induction false} RunKeepsInv(h: Hub, moves: seq<(nat, Move)>, slots: int, room: nat)
    requires HubInv(h, slots, room) && Moves(h, moves, room)
    ensures var h' := AfterMoves(h, moves, room); HubInv(h', slots, room) && |h'.conns| == |h.conns|
    decreases |moves|
  {
    if moves == [] {
    } else {
      MoveKeepsInv(h, moves[0].0, moves[0].1, slots, room);
      RunKeepsInv(Moved(h, moves[0].0, moves[0].1), moves[1..], slots, room);
    }
  }

  /**
   * Slot conservation and the bound: over every run the counter is the initial slots, less the calls
   * taken on, plus the call responses handled, sent or not; it never falls below 1 - N * room, so
   * the calls taken on without a handled response never exceed slots + N * room - 1.
   */
  lemma BackpressureBound(conns: seq<Conn>, slots: int, room: nat, moves: seq<(nat, Move)>)
    requires slots >= 1
    requires forall i | 0 <= i < |conns| :: conns[i].passed == [] && conns[i].peer.gated
    requires Moves(Hub(slots, conns, 0, 0), moves, room)
    ensures var h := AfterMoves(Hub(slots, conns, 0, 0), moves, room);
            && h.available == slots - h.admitted + h.freed
            && h.available >= 1 - |conns| * room
            && h.admitted - h.freed <= slots + |conns| * room - 1
  {
    LoadIsZero(conns);
    assert |conns| * room >= 0;
    RunKeepsInv(Hub(slots, conns, 0, 0), moves, slots, room);
  }

  lemma {:induction false} LoadIsZero(conns: seq<Conn>)
    requires forall i | 0 <= i < |conns| :: conns[i].passed == []
    ensures Load(conns) == 0
  {
    if conns != [] {
      LoadIsZero(conns[..|conns| - 1]);
    }
  }

  /** No task can be started for call `f`: it is not served here, or its task cannot be made or run. */
  predicate CannotStart(services: map<u64, ServiceMap>, f: Frame, env: Env) {
    || f.sid !in services
    || !env.spawnOk
    || match services[f.sid]
       case Services(handlers) => f.sid !in handlers || !env.decodes
       case RelayMap(_) => false
       case PubSub => true
  }

  /** Every call taken on takes a slot; for one that cannot be started no task is there to give it back. */
  lemma FailedCallKeepsSlot(s: PeerState, f: Frame, env: Env)
    requires s.gated && !s.closed && Kind(f).IncomingCall?
    ensures var s' := Handle(s, Incoming(Ok(f)), env);
            && s'.slots == s.slots - 1
            && (if CannotStart(s.services, f, env) then s'.tasks == s.tasks || s'.tasks == []
                else |s'.tasks| == |s.tasks| + 1)
  {
    HandleEffects(s, Incoming(Ok(f)), env);
    var a, start := Admit(s, f.cid), StartCall(s.services, f, env);
    if CannotStart(s.services, f, env) {
      RequestErrorShape(a, start.error, env);
      assert Handle(s, Incoming(Ok(f)), env) == HandleRequestError(a, start.error, env);
    } else {
      assert Handle(s, Incoming(Ok(f)), env) == a.(tasks := a.tasks + [start.value]);
    }
  }
}
