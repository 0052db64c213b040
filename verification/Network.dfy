/**
 * Peers joined in pairs by first-in-first-out wires, with relays between peers of one process:
 * which reply a call can get, in every topology and every interleaving.
 */
module Network {
  import opened Wrappers
  import opened LittleEndian
  import opened WireFormat
  import opened PeerTypes
  import opened PeerSpec
  import opened PeerShape
  import opened PeerProps

  /** A request and the reply a handler of this process made for it. */
  datatype Made = Made(req: Frame, reply: Frame)

  /**
   * A peer, its mailbox, how many frames of the other end it has read, what its own handlers answered,
   * whether its transport has failed (then part of a frame may be on the wire and no other follows it),
   * and the services that were registered with it.
   */
  datatype Member = Member(peer: PeerState, mailbox: seq<Message>, read: nat, made: seq<Made>, broken: bool,
                           offers: map<u64, ServiceMap>)

  /** `link[p]` is the other end of the connection of peer `p`; no peer makes more than `limit` calls. */
  datatype Net = Net(members: seq<Member>, link: seq<nat>, limit: nat) {
    predicate Linked() {
      && |link| == |members|
      && forall p | 0 <= p < |link| :: link[p] < |link| && link[link[p]] == p
    }

    function Peer(p: nat): PeerState
      requires p < |members|
    {
      members[p].peer
    }

    /** The peer at the other end. */
    function Far(p: nat): PeerState
      requires Linked() && p < |members|
    {
      members[link[p]].peer
    }
  }

  datatype Act =
    | Receives(m: Message)                                      // from users, from an ending or failing stream
    | Reads                                                     // the next frame off the wire
    | Handles(env: Env)                                         // the next message is handled
    | Ends(task: nat, result: Result<Response, PeerErr>)        // a task of this process ends
    | Asks(task: nat)                                           // a relay task calls its relay
    | Answers(task: nat, call: nat)                             // the relayed call is decided
    | Forwards(task: nat)                                       // a relay task hands a send to its relay
    | Gone(task: nat)                                           // the relay is not there any more
    | Fires(task: nat)                                          // a timer runs out
    | Dropped(task: nat)                                        // closing ends a task early

  /** The connection ids that calls may get. */
  predicate Own(n: Net, c: u64) {
    1 <= c <= n.limit
  }

  /** Users call services, send any frame, and close. */
  predicate FromUsers(m: Message) {
    match m
    case Call(wf, caller) => !IsReply(wf) && caller == User
    case Send(_) => true
    case CloseConnection(_) => true
    case Incoming(Err(_)) => true
    case _ => false
  }

  /** Users send frames only under ids that no call gets. */
  predicate Careful(n: Net, a: Act) {
    a.Receives? && a.m.Send? ==> !Own(n, a.m.wf.cid)
  }

  predicate CanAct(n: Net, p: nat, a: Act)
    requires n.Linked() && p < |n.members|
  {
    var m := n.members[p];
    match a
    case Receives(msg) => FromUsers(msg)
    case Reads => m.read < |n.Far(p).wire|
    case Handles(env) => m.mailbox != [] && (m.broken ==> env.sendErr.Some?)
    case Ends(i, r) =>
      i < |m.peer.tasks| && (m.peer.tasks[i].LocalCall? || m.peer.tasks[i].Deliver? || m.peer.tasks[i].Broadcast?)
      && CanYield(m.peer.codec, m.peer.tasks[i], r)
    case Asks(i) =>
      i < |m.peer.tasks| && m.peer.tasks[i].RelayCall? && m.peer.tasks[i].target < |n.members|
    case Answers(i, k) =>
      && i < |m.peer.tasks| && m.peer.tasks[i].RelayWait?
      && var t := m.peer.tasks[i];
         && t.target < |n.members| && k < |n.Peer(t.target).calls|
         && n.Peer(t.target).calls[k].caller == Relay(p, t.req.cid)
         && !n.Peer(t.target).calls[k].status.Waiting?
    case Forwards(i) =>
      i < |m.peer.tasks| && m.peer.tasks[i].RelaySend? && m.peer.tasks[i].target < |n.members|
    case Gone(i) =>
      i < |m.peer.tasks| && (m.peer.tasks[i].RelayCall? || m.peer.tasks[i].RelayWait? || m.peer.tasks[i].RelaySend?)
    case Fires(i) => i < |m.peer.tasks| && m.peer.tasks[i].Timer?
    case Dropped(i) => i < |m.peer.tasks| && m.peer.closed
  }

  function Put(n: Net, p: nat, m: Member): Net
    requires p < |n.members|
  {
    n.(members := n.members[p := m])
  }

  function EndTask(m: Member, i: nat, r: Result<Response, PeerErr>): Member
    requires i < |m.peer.tasks|
  {
    m.(peer := m.peer.(tasks := m.peer.tasks[..i] + m.peer.tasks[i + 1..]), mailbox := m.mailbox + ResultMessages(r))
  }

  /** What a relay task reports when its relay is not there. */
  function GoneError(t: Task): PeerErr
    requires t.RelayCall? || t.RelayWait? || t.RelaySend?
  {
    if t.RelaySend? then PeerErr.HandlerDead(SendCtx(t.wf)) else PeerErr.RelayGone(CallCtx(t.req))
  }

  /** A local handler's answer is noted. */
  function Noted(m: Member, t: Task, r: Result<Response, PeerErr>): Member {
    if t.LocalCall? && r.Ok? && r.value.Answer? then m.(made := m.made + [Made(t.req, r.value.wf)]) else m
  }

  function Acted(n: Net, p: nat, a: Act): (n': Net)
    requires n.Linked() && p < |n.members| && CanAct(n, p, a)
    ensures n'.link == n.link && n'.limit == n.limit && |n'.members| == |n.members| && n'.Linked()
    ensures forall x | 0 <= x < |n.members| && x != p ::
              || n'.members[x] == n.members[x]
              || ((a.Asks? || a.Forwards?) && x == n.Peer(p).tasks[a.task].target
                  && n'.members[x] == n.members[x].(mailbox := n'.members[x].mailbox))
  {
    var m := n.members[p];
    match a
    case Receives(msg) => Put(n, p, m.(mailbox := m.mailbox + [msg]))
    case Reads => Put(n, p, m.(mailbox := m.mailbox + [Incoming(Ok(n.Far(p).wire[m.read]))], read := m.read + 1))
    case Handles(env) =>
      Put(n, p, m.(peer := Handle(m.peer, m.mailbox[0], env), mailbox := m.mailbox[1..],
                   broken := m.broken || env.sendErr.Some?))
    case Ends(i, r) => Put(n, p, Noted(EndTask(m, i, r), m.peer.tasks[i], r))
    case Asks(i) =>
      var t := m.peer.tasks[i];
      var n' := Put(n, p, Asked(m, i));
      var q := n'.members[t.target];
      Put(n', t.target, q.(mailbox := q.mailbox + [Call(t.req, Relay(p, t.req.cid))]))
    case Answers(i, k) =>
      var t := m.peer.tasks[i];
      Put(n, p, EndTask(m, i, RelayAnswer(m.peer.codec, t.req, n.Peer(t.target).calls[k].status)))
    case Forwards(i) =>
      var t := m.peer.tasks[i];
      var n' := Put(n, p, EndTask(m, i, Ok(Nothing)));
      var q := n'.members[t.target];
      Put(n', t.target, q.(mailbox := q.mailbox + [Send(t.wf)]))
    case Gone(i) => Put(n, p, EndTask(m, i, Err(GoneError(m.peer.tasks[i]))))
    case Fires(i) =>
      var t := m.peer.tasks[i];
      var m' := EndTask(m, i, Ok(Nothing));
      Put(n, p, m'.(mailbox := m'.mailbox + [TimedOut(t.cid, t.sid)]))
    case Dropped(i) => Put(n, p, EndTask(m, i, Ok(Nothing)))
  }

  // ---------------------------------------------------------------- where a reply comes from

  /**
   * The way of a reply: made by a handler of the serving process, told of an error of that process, told
   * of the timeout of call number `call` that a relay task made at peer `via`, or passed on from it.
   */
  datatype Trail = Local | Fault(e: PeerErr) | Late(via: nat, call: nat) | Via(via: nat, call: nat, next: Trail)

  /** The reply that decided a call. */
  function ReplyTo(status: Status): Option<Frame> {
    match status
    case Answered(g) => Some(g)
    case Failed(_, g) => Some(g)
    case _ => None
  }

  /** A relay task serving `req` of peer `p` made this call. */
  predicate MadeFor(n: Net, p: nat, req: Frame, q: nat, k: nat)
    requires n.Linked()
  {
    && q < |n.members| && k < |n.Peer(q).calls|
    && n.Peer(q).calls[k].caller == Relay(p, req.cid)
    && n.Peer(q).calls[k].frame == req.(cid := n.Peer(q).calls[k].frame.cid)
  }

  /** What a relay task of peer `p` serving `req` replies once its call is told `status`. */
  predicate PassedOn(codec: Codec, req: Frame, status: Status, reply: Frame) {
    match status
    case Answered(g) => reply == g.(cid := req.cid)
    case Failed(err, _) => reply == PrepError(codec, req.cid, err)
    case Expired(sid) => reply == PrepError(codec, req.cid, ConnectionError.Timeout(sid))
    case _ => false
  }

  /** `reply` is what the process of peer `p` answers to `req`, and `t` says how it came about. */
  predicate Leads(n: Net, p: nat, req: Frame, reply: Frame, t: Trail)
    requires n.Linked()
    decreases t
  {
    p < |n.members| && IsReply(reply) && reply.cid == req.cid &&
    match t
    case Local => reply.sid == FULL_ID && Made(req, reply) in n.members[p].made
    case Fault(e) =>
      e.ctx == CallCtx(req) && RemoteView(e).Some? &&
      reply == PrepError(n.Peer(p).codec, req.cid, RemoteView(e).value.0)
    case Late(q, k) =>
      && MadeFor(n, p, req, q, k)
      && n.Peer(q).calls[k].status.Expired?
      && PassedOn(n.Peer(p).codec, req, n.Peer(q).calls[k].status, reply)
    case Via(q, k, next) =>
      && MadeFor(n, p, req, q, k)
      && var call := n.Peer(q).calls[k];
         && ReplyTo(call.status).Some?
         && PassedOn(n.Peer(p).codec, req, call.status, reply)
         && Leads(n, n.link[q], call.frame, ReplyTo(call.status).value, next)
  }

  ghost predicate Traced(n: Net, p: nat, req: Frame, reply: Frame)
    requires n.Linked()
  {
    exists t :: Leads(n, p, req, reply, t)
  }

  /** Connection id `c` belongs to a call that the far end of `p` made, which put this frame on its wire. */
  predicate Requested(n: Net, p: nat, c: u64)
    requires n.Linked() && p < |n.members|
  {
    && 1 <= c <= |n.Far(p).calls|
    && n.Far(p).calls[c - 1].frame.cid == c
    && n.Far(p).calls[c - 1].frame in n.Far(p).wire
  }

  function Request(n: Net, p: nat, c: u64): Frame
    requires n.Linked() && p < |n.members| && Requested(n, p, c)
  {
    n.Far(p).calls[c - 1].frame
  }

  // ---------------------------------------------------------------- what holds of every part

  /** `wf` is the frame a relay task passes on for incoming call `c` of peer `s`. */
  predicate Relayed(n: Net, s: nat, c: u64, wf: Frame)
    requires n.Linked()
  {
    s < |n.members| && (Own(n, c) ==> Requested(n, s, c) && wf == Request(n, s, c).(cid := wf.cid))
  }

  /** Peer `q` is a relay that the service map of peer `p` names for service `sid`. */
  predicate Named(n: Net, p: nat, sid: u64, q: nat) {
    p < |n.members| && Routes(n.members[p].offers, sid, q)
  }

  /** A call that `caller` made at peer `q`. */
  predicate CallerOk(n: Net, q: nat, wf: Frame, caller: Caller)
    requires n.Linked()
  {
    && !IsReply(wf)
    && (caller.Relay? ==> Named(n, caller.peer, wf.sid, q) && Relayed(n, caller.peer, caller.cid, wf))
  }

  predicate Serves(n: Net, p: nat, c: u64)
    requires n.Linked() && p < |n.members|
  {
    c in n.Peer(p).admitted && Requested(n, p, c)
  }

  ghost predicate ReplyOk(n: Net, p: nat, g: Frame)
    requires n.Linked() && p < |n.members|
  {
    Own(n, g.cid) ==> Serves(n, p, g.cid) && Traced(n, p, Request(n, p, g.cid), g)
  }

  ghost predicate MessageOk(n: Net, p: nat, m: Message)
    requires n.Linked() && p < |n.members|
  {
    match m
    case Incoming(Ok(f)) => f in n.Far(p).wire
    case Call(wf, caller) => CallerOk(n, p, wf, caller)
    case Send(wf) => if IsReply(wf) then ReplyOk(n, p, wf) else !Own(n, wf.cid)
    case CallResponse(wf) => IsReply(wf) && ReplyOk(n, p, wf)
    case RequestError(e) =>
      e.ctx.cid.Some? && Own(n, e.ctx.cid.value) ==>
        Serves(n, p, e.ctx.cid.value) && e.ctx == CallCtx(Request(n, p, e.ctx.cid.value))
    case _ => true
  }

  predicate TaskOk(n: Net, p: nat, t: Task)
    requires n.Linked() && p < |n.members|
  {
    if t.RelaySend? then !IsReply(t.wf) && t.wf.cid == NULL_ID && Named(n, p, t.wf.sid, t.target)
    else t.LocalCall? || t.RelayCall? || t.RelayWait? ==>
      && !IsReply(t.req)
      && (Own(n, t.req.cid) ==> Serves(n, p, t.req.cid) && t.req == Request(n, p, t.req.cid))
      && (!t.LocalCall? ==> Named(n, p, t.req.sid, t.target))
  }

  ghost predicate WireOk(n: Net, p: nat, g: Frame)
    requires n.Linked() && p < |n.members|
  {
    if IsReply(g) then ReplyOk(n, p, g)
    else Own(n, g.cid) ==> 1 <= g.cid <= |n.Peer(p).calls| && n.Peer(p).calls[g.cid - 1].frame == g
  }

  predicate CallOk(n: Net, p: nat, r: CallRecord)
    requires n.Linked() && p < |n.members|
  {
    && CallerOk(n, p, r.frame, r.caller)
    && match r.status
       case Answered(g) => g in n.Far(p).wire && g.sid == FULL_ID && g.cid == r.frame.cid
       case Failed(e, g) =>
         g in n.Far(p).wire && g.sid == NULL_ID && g.cid == r.frame.cid && n.Peer(p).codec.dec(g.payload) == Some(e)
       case _ => true
  }

  /** Everything at `p`, within one cycle of connection ids. */
  ghost predicate PartsOk(n: Net, p: nat, m: Member)
    requires n.Linked() && p < |n.members|
  {
    && (m.peer.services == m.offers || m.peer.services == map[])
    && (forall i | 0 <= i < |m.mailbox| :: MessageOk(n, p, m.mailbox[i]))
    && (forall i | 0 <= i < |m.peer.tasks| :: TaskOk(n, p, m.peer.tasks[i]))
    && (forall i | 0 <= i < |m.peer.wire| :: WireOk(n, p, m.peer.wire[i]))
    && (forall i | 0 <= i < |m.peer.calls| :: CallOk(n, p, m.peer.calls[i]))
    && (forall i | 0 <= i < |m.peer.admitted| :: Own(n, m.peer.admitted[i]) ==> Requested(n, p, m.peer.admitted[i]))
  }

  ghost predicate NetInv(n: Net) {
    n.Linked() && forall p | 0 <= p < |n.members| :: Inv(n.Peer(p)) && PartsOk(n, p, n.members[p])
  }

  predicate WithinCycle(n: Net) {
    n.limit <= CYCLE && forall p | 0 <= p < |n.members| :: |n.members[p].peer.calls| <= n.limit
  }

  // ---------------------------------------------------------------- nothing recorded is ever unrecorded

  predicate MemberGrows(m: Member, m': Member) {
    && m'.offers == m.offers
    && m.peer.wire <= m'.peer.wire && m.made <= m'.made && m.peer.admitted <= m'.peer.admitted
    && Evolves(m.peer.calls, m'.peer.calls)
  }

  ghost predicate Grows(n: Net, n': Net) {
    && n'.link == n.link && n'.limit == n.limit && |n'.members| == |n.members|
    && forall p | 0 <= p < |n.members| ::
         MemberGrows(n.members[p], n'.members[p]) && n'.members[p].peer.codec == n.members[p].peer.codec
  }

  lemma DecidedStays(n: Net, n': Net, q: nat, k: nat)
    requires n.Linked() && n'.Linked() && Grows(n, n') && q < |n.members| && k < |n.Peer(q).calls|
    requires !n.Peer(q).calls[k].status.Waiting?
    ensures k < |n'.Peer(q).calls| && n'.Peer(q).calls[k] == n.Peer(q).calls[k]
  {
    assert MemberGrows(n.members[q], n'.members[q]);
  }

  lemma {:induction false} LeadsStays(n: Net, n': Net, p: nat, req: Frame, reply: Frame, t: Trail)
    requires n.Linked() && n'.Linked() && Grows(n, n') && Leads(n, p, req, reply, t)
    ensures Leads(n', p, req, reply, t)
    decreases t
  {
    match t
    case Local =>
      assert Made(req, reply) in n'.members[p].made;
    case Fault(_) =>
    case Late(q, k) =>
      DecidedStays(n, n', q, k);
    case Via(q, k, next) =>
      var call := n.Peer(q).calls[k];
      DecidedStays(n, n', q, k);
      LeadsStays(n, n', n.link[q], call.frame, ReplyTo(call.status).value, next);
  }

  lemma RequestedStays(n: Net, n': Net, p: nat, c: u64)
    requires n.Linked() && n'.Linked() && Grows(n, n') && p < |n.members| && Requested(n, p, c)
    ensures Requested(n', p, c) && Request(n', p, c) == Request(n, p, c)
  {
    assert MemberGrows(n.members[n.link[p]], n'.members[n.link[p]]);
  }

  lemma ReplyOkStays(n: Net, n': Net, p: nat, g: Frame)
    requires n.Linked() && n'.Linked() && Grows(n, n') && p < |n.members| && ReplyOk(n, p, g)
    ensures ReplyOk(n', p, g)
  {
    if Own(n, g.cid) {
      RequestedStays(n, n', p, g.cid);
      assert MemberGrows(n.members[p], n'.members[p]);
      var req := Request(n, p, g.cid);
      var t :| Leads(n, p, req, g, t);
      LeadsStays(n, n', p, req, g, t);
    }
  }

  lemma NamedStays(n: Net, n': Net, p: nat, sid: u64, q: nat)
    requires Grows(n, n') && Named(n, p, sid, q)
    ensures Named(n', p, sid, q)
  {
    assert MemberGrows(n.members[p], n'.members[p]);
  }

  lemma CallerOkStays(n: Net, n': Net, q: nat, wf: Frame, caller: Caller)
    requires n.Linked() && n'.Linked() && Grows(n, n') && CallerOk(n, q, wf, caller)
    ensures CallerOk(n', q, wf, caller)
  {
    if caller.Relay? {
      NamedStays(n, n', caller.peer, wf.sid, q);
    }
    if caller.Relay? && Own(n, caller.cid) {
      RequestedStays(n, n', caller.peer, caller.cid);
    }
  }

  lemma ServesStays(n: Net, n': Net, p: nat, c: u64)
    requires n.Linked() && n'.Linked() && Grows(n, n') && p < |n.members| && Serves(n, p, c)
    ensures Serves(n', p, c) && Request(n', p, c) == Request(n, p, c)
  {
    RequestedStays(n, n', p, c);
    assert MemberGrows(n.members[p], n'.members[p]);
  }

  lemma MessageOkStays(n: Net, n': Net, p: nat, m: Message)
    requires n.Linked() && n'.Linked() && Grows(n, n') && p < |n.members| && MessageOk(n, p, m)
    ensures MessageOk(n', p, m)
  {
    match m
    case Incoming(Ok(f)) =>
      assert MemberGrows(n.members[n.link[p]], n'.members[n.link[p]]);
    case Call(wf, caller) => CallerOkStays(n, n', p, wf, caller);
    case Send(wf) =>
      if IsReply(wf) {
        ReplyOkStays(n, n', p, wf);
      }
    case CallResponse(wf) => ReplyOkStays(n, n', p, wf);
    case RequestError(e) =>
      if e.ctx.cid.Some? && Own(n, e.ctx.cid.value) {
        ServesStays(n, n', p, e.ctx.cid.value);
      }
    case _ =>
  }

  lemma WireOkStays(n: Net, n': Net, p: nat, g: Frame)
    requires n.Linked() && n'.Linked() && Grows(n, n') && p < |n.members| && WireOk(n, p, g)
    ensures WireOk(n', p, g)
  {
    assert MemberGrows(n.members[p], n'.members[p]);
    if IsReply(g) {
      ReplyOkStays(n, n', p, g);
    }
  }

  lemma CallOkStays(n: Net, n': Net, p: nat, r: CallRecord)
    requires n.Linked() && n'.Linked() && Grows(n, n') && p < |n.members| && CallOk(n, p, r)
    ensures CallOk(n', p, r)
  {
    CallerOkStays(n, n', p, r.frame, r.caller);
    assert MemberGrows(n.members[n.link[p]], n'.members[n.link[p]]);
  }

  lemma TaskOkStays(n: Net, n': Net, p: nat, t: Task)
    requires n.Linked() && n'.Linked() && Grows(n, n') && p < |n.members| && TaskOk(n, p, t)
    ensures TaskOk(n', p, t)
  {
    if t.RelaySend? {
      NamedStays(n, n', p, t.wf.sid, t.target);
    }
    if t.RelayCall? || t.RelayWait? {
      NamedStays(n, n', p, t.req.sid, t.target);
    }
    if (t.LocalCall? || t.RelayCall? || t.RelayWait?) && Own(n, t.req.cid) {
      ServesStays(n, n', p, t.req.cid);
    }
  }

  lemma PartsOkStay(n: Net, n': Net, p: nat, m: Member)
    requires n.Linked() && n'.Linked() && Grows(n, n') && p < |n.members| && PartsOk(n, p, m)
    ensures PartsOk(n', p, m)
  {
    forall i | 0 <= i < |m.mailbox| ensures MessageOk(n', p, m.mailbox[i]) {
      MessageOkStays(n, n', p, m.mailbox[i]);
    }
    forall i | 0 <= i < |m.peer.tasks| ensures TaskOk(n', p, m.peer.tasks[i]) {
      TaskOkStays(n, n', p, m.peer.tasks[i]);
    }
    forall i | 0 <= i < |m.peer.wire| ensures WireOk(n', p, m.peer.wire[i]) {
      WireOkStays(n, n', p, m.peer.wire[i]);
    }
    forall i | 0 <= i < |m.peer.calls| ensures CallOk(n', p, m.peer.calls[i]) {
      CallOkStays(n, n', p, m.peer.calls[i]);
    }
    forall i | 0 <= i < |m.peer.admitted| && Own(n, m.peer.admitted[i])
      ensures Requested(n', p, m.peer.admitted[i])
    {
      RequestedStays(n, n', p, m.peer.admitted[i]);
    }
  }

  // ---------------------------------------------------------------- one handled message

  /** Within a cycle the number of a call and its connection id determine each other. */
  lemma NumberOfCid(s: PeerState, k: nat)
    requires Numbered(s.calls) && |s.calls| <= CYCLE && k < |s.calls|
    ensures s.calls[k].frame.cid == k + 1
  {
  }

  /** A call frame that arrived is the recorded request of the far end. */
  lemma ArrivedIsRequested(n: Net, p: nat, f: Frame)
    requires NetInv(n) && p < |n.members| && f in n.Far(p).wire && !IsReply(f) && Own(n, f.cid)
    ensures Requested(n, p, f.cid) && Request(n, p, f.cid) == f
  {
    var q := n.link[p];
    assert PartsOk(n, q, n.members[q]);
    var i :| 0 <= i < |n.Peer(q).wire| && n.Peer(q).wire[i] == f;
    assert WireOk(n, q, n.Peer(q).wire[i]);
  }

  /** What the handled message says of the call it brings. */
  predicate BringsRequest(n: Net, p: nat, s: PeerState, m: Message)
    requires n.Linked() && p < |n.members|
  {
    TakesCall(s, m) && Own(n, m.msg.value.cid) ==>
      Requested(n, p, m.msg.value.cid) && Request(n, p, m.msg.value.cid) == m.msg.value
  }

  lemma NewFrameOk(n: Net, p: nat, s: PeerState, m: Message, g: Frame)
    requires n.Linked() && p < |n.members|
    requires Effects(s, m, n.Peer(p)) && MayPut(s, m, g) && MessageOk(n, p, m)
    requires Inv(s) && |n.Peer(p).calls| <= CYCLE
    requires BringsRequest(n, p, s, m)
    ensures WireOk(n, p, g)
  {
    match m
    case Call(wf, _) =>
      CounterSteps(|s.calls|);
      var s' := n.Peer(p);
      assert s'.calls[|s.calls|].frame == g;
      assert g.cid == |s.calls| + 1;
    case Incoming(msg) =>
      var f := msg.value;
      assert f.cid in n.Peer(p).admitted;
      var e: PeerErr :|
        e.ctx == CallCtx(f) && RemoteView(e).Some? && g == PrepError(s.codec, f.cid, RemoteView(e).value.0);
      assert Leads(n, p, f, g, Fault(e));
    case RequestError(e) =>
      if Own(n, e.ctx.cid.value) {
        assert Leads(n, p, Request(n, p, e.ctx.cid.value), g, Fault(e));
      }
    case _ =>
  }

  lemma NewTaskOk(n: Net, p: nat, s: PeerState, m: Message, t: Task)
    requires n.Linked() && p < |n.members|
    requires Effects(s, m, n.Peer(p)) && MayStart(s, m, t) && !s.closed
    requires BringsRequest(n, p, s, m)
    requires s.services == n.members[p].offers || s.services == map[]
    ensures TaskOk(n, p, t)
  {
    if TakesCall(s, m) {
      assert m.msg.value.cid in n.Peer(p).admitted;
    }
  }

  lemma CallsStayOk(n: Net, p: nat, s: PeerState, m: Message, k: nat)
    requires n.Linked() && p < |n.members| && Inv(s)
    requires Effects(s, m, n.Peer(p)) && MessageOk(n, p, m)
    requires forall i | 0 <= i < |s.calls| :: CallOk(n, p, s.calls[i])
    requires k < |n.Peer(p).calls|
    ensures CallOk(n, p, n.Peer(p).calls[k])
  {
    var s' := n.Peer(p);
    if k < |s.calls| {
      assert CallOk(n, p, s.calls[k]);
      assert s'.calls[k].frame == s.calls[k].frame && s'.calls[k].caller == s.calls[k].caller;
    }
  }

  /** Putting back a member that only gained keeps all that was recorded. */
  lemma PutGrows(n: Net, p: nat, m': Member)
    requires n.Linked() && p < |n.members|
    requires MemberGrows(n.members[p], m') && m'.peer.codec == n.members[p].peer.codec
    ensures Put(n, p, m').Linked() && Grows(n, Put(n, p, m'))
  {
  }

  lemma HandlingKeepsParts(n: Net, p: nat, m': Member)
    requires NetInv(n) && p < |n.members| && n.members[p].mailbox != []
    requires Effects(n.Peer(p), n.members[p].mailbox[0], m'.peer) && |m'.peer.calls| <= CYCLE
    requires m'.mailbox == n.members[p].mailbox[1..] && m'.made == n.members[p].made
    requires m'.offers == n.members[p].offers
    ensures var n' := Put(n, p, m');
            n'.Linked() && Grows(n, n') && Inv(m'.peer) && PartsOk(n', p, m')
  {
    var m, n' := n.members[p], Put(n, p, m');
    var msg := m.mailbox[0];
    EffectsEvolve(m.peer, msg, m'.peer);
    EffectsKeepInv(m.peer, msg, m'.peer);
    PutGrows(n, p, m');
    assert PartsOk(n, p, m);
    assert MessageOk(n, p, m.mailbox[0]);
    if TakesCall(m.peer, msg) && Own(n, msg.msg.value.cid) {
      ArrivedIsRequested(n, p, msg.msg.value);
      RequestedStays(n, n', p, msg.msg.value.cid);
    }
    PartsOkStay(n, n', p, m);
    HandledParts(n', p, m, m');
  }

  /** The parts of a member after one message, item by item. */
  lemma HandledParts(n: Net, p: nat, m: Member, m': Member)
    requires n.Linked() && p < |n.members| && n.members[p] == m' && PartsOk(n, p, m)
    requires m.mailbox != [] && m'.mailbox == m.mailbox[1..] && Inv(m.peer) && |m'.peer.calls| <= CYCLE
    requires m'.offers == m.offers
    requires Effects(m.peer, m.mailbox[0], m'.peer)
    requires BringsRequest(n, p, m.peer, m.mailbox[0])
    ensures PartsOk(n, p, m')
  {
    var s, s', msg := m.peer, m'.peer, m.mailbox[0];
    assert MessageOk(n, p, msg);
    forall i | 0 <= i < |s'.tasks| ensures TaskOk(n, p, s'.tasks[i]) {
      if i < |s.tasks| {
        assert TaskOk(n, p, s.tasks[i]) && s'.tasks[i] == s.tasks[i];
      } else {
        NewTaskOk(n, p, s, msg, s'.tasks[i]);
      }
    }
    forall i | 0 <= i < |s'.wire| ensures WireOk(n, p, s'.wire[i]) {
      if i < |s.wire| {
        assert WireOk(n, p, s.wire[i]) && s'.wire[i] == s.wire[i];
      } else {
        NewFrameOk(n, p, s, msg, s'.wire[i]);
      }
    }
    forall i | 0 <= i < |s'.calls| ensures CallOk(n, p, s'.calls[i]) {
      CallsStayOk(n, p, s, msg, i);
    }
    forall i | 0 <= i < |s'.admitted| && Own(n, s'.admitted[i]) ensures Requested(n, p, s'.admitted[i]) {
      if i < |s.admitted| {
        assert s'.admitted[i] == s.admitted[i];
      }
    }
    forall i | 0 <= i < |m'.mailbox| ensures MessageOk(n, p, m'.mailbox[i]) {
      assert m'.mailbox[i] == m.mailbox[i + 1];
    }
  }

  // ---------------------------------------------------------------- the other acts

  /** A reply on the far wire under a call's own id leads back from that call. */
  lemma ReplyOfCall(n: Net, q: nat, k: nat, g: Frame)
    requires NetInv(n) && WithinCycle(n) && q < |n.members| && k < |n.Peer(q).calls|
    requires g in n.Far(q).wire && IsReply(g) && g.cid == n.Peer(q).calls[k].frame.cid
    ensures g.cid in n.Far(q).admitted
    ensures Traced(n, n.link[q], n.Peer(q).calls[k].frame, g)
  {
    var far := n.link[q];
    assert PartsOk(n, far, n.members[far]);
    var i :| 0 <= i < |n.Peer(far).wire| && n.Peer(far).wire[i] == g;
    assert WireOk(n, far, n.Peer(far).wire[i]);
    NumberOfCid(n.Peer(q), k);
    assert n.link[far] == q;
    assert Request(n, far, g.cid) == n.Peer(q).calls[k].frame;
  }

  /** The reply a relay task makes of its decided call leads back to where that was decided. */
  lemma RelayedReplyTraced(n: Net, p: nat, req: Frame, q: nat, k: nat, reply: Frame)
    requires NetInv(n) && WithinCycle(n) && p < |n.members| && MadeFor(n, p, req, q, k)
    requires IsReply(reply) && reply.cid == req.cid
    requires PassedOn(n.Peer(p).codec, req, n.Peer(q).calls[k].status, reply)
    ensures Traced(n, p, req, reply)
  {
    var call := n.Peer(q).calls[k];
    assert PartsOk(n, q, n.members[q]);
    assert CallOk(n, q, n.Peer(q).calls[k]);
    if call.status.Expired? {
      assert Leads(n, p, req, reply, Late(q, k));
    } else {
      var g := ReplyTo(call.status).value;
      ReplyOfCall(n, q, k, g);
      var next :| Leads(n, n.link[q], call.frame, g, next);
      assert Leads(n, p, req, reply, Via(q, k, next));
    }
  }

  lemma ResultOk(n: Net, p: nat, t: Task, r: Result<Response, PeerErr>)
    requires n.Linked() && p < |n.members| && TaskOk(n, p, t)
    requires !t.Timer?
    requires r.Err? ==>
               || r.error.ctx.cid.None?
               || ((t.LocalCall? || t.RelayCall? || t.RelayWait?) && r.error.ctx == CallCtx(t.req))
    requires r.Ok? && !r.value.Nothing? ==>
               && (t.LocalCall? || t.RelayWait?) && r.value.wf.cid == t.req.cid && IsReply(r.value.wf)
               && (Own(n, t.req.cid) ==> Traced(n, p, t.req, r.value.wf))
    ensures forall i | 0 <= i < |ResultMessages(r)| :: MessageOk(n, p, ResultMessages(r)[i])
  {
  }

  /** A member whose task `i` ended and whose mailbox got acceptable messages. */
  lemma EndedParts(n: Net, p: nat, m: Member, i: nat, ms: seq<Message>, m': Member)
    requires n.Linked() && p < |n.members| && PartsOk(n, p, m) && i < |m.peer.tasks|
    requires forall j | 0 <= j < |ms| :: MessageOk(n, p, ms[j])
    requires m'.mailbox == m.mailbox + ms
    requires m'.peer == m.peer.(tasks := m.peer.tasks[..i] + m.peer.tasks[i + 1..]) && m'.offers == m.offers
    ensures PartsOk(n, p, m')
  {
    forall j | 0 <= j < |m'.peer.tasks| ensures TaskOk(n, p, m'.peer.tasks[j]) {
      assert m'.peer.tasks[j] == m.peer.tasks[if j < i then j else j + 1];
    }
    forall j | 0 <= j < |m'.mailbox| ensures MessageOk(n, p, m'.mailbox[j]) {
      assert m'.mailbox[j] == if j < |m.mailbox| then m.mailbox[j] else ms[j - |m.mailbox|];
    }
  }

  lemma EndingKeepsParts(n: Net, p: nat, i: nat, ms: seq<Message>, m': Member)
    requires NetInv(n) && p < |n.members| && i < |n.Peer(p).tasks|
    requires m'.peer == n.Peer(p).(tasks := n.Peer(p).tasks[..i] + n.Peer(p).tasks[i + 1..])
    requires m'.mailbox == n.members[p].mailbox + ms && n.members[p].made <= m'.made
    requires m'.offers == n.members[p].offers
    requires forall j | 0 <= j < |ms| :: MessageOk(Put(n, p, m'), p, ms[j])
    ensures var n' := Put(n, p, m');
            n'.Linked() && Grows(n, n') && Inv(m'.peer) && PartsOk(n', p, m')
  {
    PutGrows(n, p, m');
    assert PartsOk(n, p, n.members[p]);
    PartsOkStay(n, Put(n, p, m'), p, n.members[p]);
    EndedParts(Put(n, p, m'), p, n.members[p], i, ms, m');
  }

  /** A task of this process ended. */
  lemma EndsKeepsParts(n: Net, p: nat, i: nat, r: Result<Response, PeerErr>)
    requires NetInv(n) && p < |n.members| && CanAct(n, p, Ends(i, r))
    ensures var n' := Acted(n, p, Ends(i, r));
            n'.Linked() && Grows(n, n') && Inv(n'.Peer(p)) && PartsOk(n', p, n'.members[p])
  {
    var n' := Acted(n, p, Ends(i, r));
    var m, m' := n.members[p], n'.members[p];
    var t := m.peer.tasks[i];
    PutGrows(n, p, m');
    assert PartsOk(n, p, m);
    assert TaskOk(n, p, m.peer.tasks[i]);
    TaskOkStays(n, n', p, t);
    if t.LocalCall? && r.Ok? {
      assert m'.made[|m.made|] == Made(t.req, r.value.wf);
      assert Leads(n', p, t.req, r.value.wf, Local);
    }
    ResultOk(n', p, t, r);
    EndingKeepsParts(n, p, i, ResultMessages(r), m');
  }

  lemma TracedStays(n: Net, n': Net, p: nat, req: Frame, reply: Frame)
    requires n.Linked() && n'.Linked() && Grows(n, n') && Traced(n, p, req, reply)
    ensures Traced(n', p, req, reply)
  {
    var t :| Leads(n, p, req, reply, t);
    LeadsStays(n, n', p, req, reply, t);
  }

  lemma AnswerTraced(n: Net, p: nat, t: Task, k: nat)
    requires NetInv(n) && WithinCycle(n) && p < |n.members| && TaskOk(n, p, t)
    requires t.RelayWait? && Own(n, t.req.cid) && t.target < |n.members| && k < |n.Peer(t.target).calls|
    requires n.Peer(t.target).calls[k].caller == Relay(p, t.req.cid) && !n.Peer(t.target).calls[k].status.Waiting?
    ensures var r := RelayAnswer(n.Peer(p).codec, t.req, n.Peer(t.target).calls[k].status);
            r.Ok? ==> r.value.wf.cid == t.req.cid && IsReply(r.value.wf) && Traced(n, p, t.req, r.value.wf)
  {
    var q := t.target;
    assert PartsOk(n, q, n.members[q]);
    assert CallOk(n, q, n.Peer(q).calls[k]);
    var r := RelayAnswer(n.Peer(p).codec, t.req, n.Peer(q).calls[k].status);
    if r.Ok? {
      RelayedReplyTraced(n, p, t.req, q, k, r.value.wf);
    }
  }

  /** What a relay task ends with is acceptable mail. */
  lemma AnswerOk(n: Net, n': Net, p: nat, t: Task, k: nat)
    requires NetInv(n) && WithinCycle(n) && p < |n.members| && TaskOk(n, p, t)
    requires n'.Linked() && Grows(n, n') && TaskOk(n', p, t)
    requires t.RelayWait? && t.target < |n.members| && k < |n.Peer(t.target).calls|
    requires n.Peer(t.target).calls[k].caller == Relay(p, t.req.cid) && !n.Peer(t.target).calls[k].status.Waiting?
    ensures var ms := ResultMessages(RelayAnswer(n.Peer(p).codec, t.req, n.Peer(t.target).calls[k].status));
            forall i | 0 <= i < |ms| :: MessageOk(n', p, ms[i])
  {
    var q := t.target;
    var r := RelayAnswer(n.Peer(p).codec, t.req, n.Peer(q).calls[k].status);
    assert PartsOk(n, q, n.members[q]);
    assert CallOk(n, q, n.Peer(q).calls[k]);
    if Own(n, t.req.cid) && r.Ok? {
      AnswerTraced(n, p, t, k);
      TracedStays(n, n', p, t.req, r.value.wf);
    }
    ResultOk(n', p, t, r);
  }

  /** A relay task got the outcome of its call. */
  lemma AnswersKeepsParts(n: Net, p: nat, i: nat, k: nat)
    requires NetInv(n) && WithinCycle(n) && p < |n.members| && CanAct(n, p, Answers(i, k))
    ensures var n' := Acted(n, p, Answers(i, k));
            n'.Linked() && Grows(n, n') && Inv(n'.Peer(p)) && PartsOk(n', p, n'.members[p])
  {
    var n' := Acted(n, p, Answers(i, k));
    var m, m' := n.members[p], n'.members[p];
    var t := m.peer.tasks[i];
    var r := RelayAnswer(m.peer.codec, t.req, n.Peer(t.target).calls[k].status);
    PutGrows(n, p, m');
    assert PartsOk(n, p, m);
    assert TaskOk(n, p, m.peer.tasks[i]);
    TaskOkStays(n, n', p, t);
    AnswerOk(n, n', p, t, k);
    EndingKeepsParts(n, p, i, ResultMessages(r), m');
  }

  lemma GoneKeepsParts(n: Net, p: nat, i: nat)
    requires NetInv(n) && p < |n.members| && CanAct(n, p, Gone(i))
    ensures var n' := Acted(n, p, Gone(i));
            n'.Linked() && Grows(n, n') && Inv(n'.Peer(p)) && PartsOk(n', p, n'.members[p])
  {
    var n' := Acted(n, p, Gone(i));
    var m, m' := n.members[p], n'.members[p];
    var t := m.peer.tasks[i];
    var r := Err(GoneError(t));
    PutGrows(n, p, m');
    assert PartsOk(n, p, m);
    assert TaskOk(n, p, m.peer.tasks[i]);
    TaskOkStays(n, n', p, t);
    ResultOk(n', p, t, r);
    EndingKeepsParts(n, p, i, ResultMessages(r), m');
  }

  /** More mail, or another stage of a relay task, that is acceptable in itself. */
  lemma MailKeepsParts(n: Net, p: nat, msg: Message, m': Member)
    requires NetInv(n) && p < |n.members|
    requires m'.peer == n.Peer(p) && m'.mailbox == n.members[p].mailbox + [msg] && m'.made == n.members[p].made
    requires m'.offers == n.members[p].offers
    requires MessageOk(n, p, msg)
    ensures var n' := Put(n, p, m');
            n'.Linked() && Grows(n, n') && Inv(m'.peer) && PartsOk(n', p, m')
  {
    var n' := Put(n, p, m');
    PutGrows(n, p, m');
    assert PartsOk(n, p, n.members[p]);
    PartsOkStay(n, n', p, n.members[p]);
    MessageOkStays(n, n', p, msg);
  }

  lemma RestKeeps(n: Net, p: nat, n': Net)
    requires NetInv(n) && p < |n.members| && n'.Linked() && Grows(n, n')
    requires n' == Put(n, p, n'.members[p])
    requires Inv(n'.Peer(p)) && PartsOk(n', p, n'.members[p])
    ensures NetInv(n')
  {
    forall x | 0 <= x < |n'.members|
      ensures Inv(n'.Peer(x)) && PartsOk(n', x, n'.members[x])
    {
      if x != p {
        assert PartsOk(n, x, n.members[x]);
        PartsOkStay(n, n', x, n.members[x]);
      }
    }
  }

  /** The task has asked and waits. */
  function Asked(m: Member, i: nat): Member
    requires i < |m.peer.tasks| && m.peer.tasks[i].RelayCall?
  {
    var t := m.peer.tasks[i];
    m.(peer := m.peer.(tasks := m.peer.tasks[i := RelayWait(t.req, t.target)]))
  }

  lemma AskedKeepsInv(n: Net, p: nat, i: nat)
    requires NetInv(n) && p < |n.members| && i < |n.Peer(p).tasks| && n.Peer(p).tasks[i].RelayCall?
    ensures var n' := Put(n, p, Asked(n.members[p], i));
            NetInv(n') && Grows(n, n') && TaskOk(n', p, n.Peer(p).tasks[i])
  {
    var m := n.members[p];
    var n' := Put(n, p, Asked(m, i));
    PutGrows(n, p, Asked(m, i));
    assert PartsOk(n, p, m);
    PartsOkStay(n, n', p, m);
    assert TaskOk(n', p, m.peer.tasks[i]);
    RestKeeps(n, p, n');
  }

  /** A relay task calls its relay: its stage changes, then the relay gets the call. */
  lemma AsksKeepsInv(n: Net, p: nat, i: nat)
    requires NetInv(n) && p < |n.members| && CanAct(n, p, Asks(i))
    ensures NetInv(Acted(n, p, Asks(i)))
  {
    var t := n.Peer(p).tasks[i];
    var n1 := Put(n, p, Asked(n.members[p], i));
    AskedKeepsInv(n, p, i);
    var q := n1.members[t.target];
    var call := Call(t.req, Relay(p, t.req.cid));
    var q' := q.(mailbox := q.mailbox + [call]);
    MailKeepsParts(n1, t.target, call, q');
    RestKeeps(n1, t.target, Put(n1, t.target, q'));
  }

  /** A relay task hands a send to its relay: it ends, then the relay gets the send. */
  lemma ForwardsKeepsInv(n: Net, p: nat, i: nat)
    requires NetInv(n) && p < |n.members| && CanAct(n, p, Forwards(i))
    ensures NetInv(Acted(n, p, Forwards(i)))
  {
    var t := n.Peer(p).tasks[i];
    var m1 := EndTask(n.members[p], i, Ok(Nothing));
    var n1 := Put(n, p, m1);
    assert TaskOk(n, p, n.Peer(p).tasks[i]) by {
      assert PartsOk(n, p, n.members[p]);
    }
    EndingKeepsParts(n, p, i, [], m1);
    RestKeeps(n, p, n1);
    var q := n1.members[t.target];
    var q' := q.(mailbox := q.mailbox + [Send(t.wf)]);
    MailKeepsParts(n1, t.target, Send(t.wf), q');
    RestKeeps(n1, t.target, Put(n1, t.target, q'));
  }

  lemma ActKeepsInv(n: Net, p: nat, a: Act)
    requires NetInv(n) && WithinCycle(n) && p < |n.members| && CanAct(n, p, a) && Careful(n, a)
    requires WithinCycle(Acted(n, p, a))
    ensures NetInv(Acted(n, p, a))
  {
    var m := n.members[p];
    var n' := Acted(n, p, a);
    match a
    case Receives(msg) =>
      MailKeepsParts(n, p, msg, n'.members[p]);
      RestKeeps(n, p, n');
    case Reads =>
      MailKeepsParts(n, p, Incoming(Ok(n.Far(p).wire[m.read])), n'.members[p]);
      RestKeeps(n, p, n');
    case Handles(env) =>
      HandleEffects(m.peer, m.mailbox[0], env);
      HandlingKeepsParts(n, p, n'.members[p]);
      RestKeeps(n, p, n');
    case Ends(i, r) =>
      EndsKeepsParts(n, p, i, r);
      RestKeeps(n, p, n');
    case Asks(i) =>
      AsksKeepsInv(n, p, i);
    case Answers(i, k) =>
      AnswersKeepsParts(n, p, i, k);
      RestKeeps(n, p, n');
    case Forwards(i) =>
      ForwardsKeepsInv(n, p, i);
    case Gone(i) =>
      GoneKeepsParts(n, p, i);
      RestKeeps(n, p, n');
    case Fires(i) =>
      EndingKeepsParts(n, p, i, [TimedOut(m.peer.tasks[i].cid, m.peer.tasks[i].sid)], n'.members[p]);
      RestKeeps(n, p, n');
    case Dropped(i) =>
      EndingKeepsParts(n, p, i, [], n'.members[p]);
      RestKeeps(n, p, n');
  }

  /** Frames are read one after another, as they were put on the wire, and each once. */
  lemma ReadsNext(n: Net, p: nat)
    requires n.Linked() && p < |n.members| && CanAct(n, p, Reads)
    ensures var m, m' := n.members[p], Acted(n, p, Reads).members[p];
            && m'.read == m.read + 1 && m'.peer == m.peer
            && m'.mailbox == m.mailbox + [Incoming(Ok(n.members[n.link[p]].peer.wire[m.read]))]
  {
  }

  function Removed(tasks: seq<Task>, i: nat): seq<Task>
    requires i < |tasks|
  {
    tasks[..i] + tasks[i + 1..]
  }

  /** A relay task calls its relay with the request it works on, in its own name, and then waits. */
  lemma AsksNext(n: Net, p: nat, i: nat)
    requires n.Linked() && p < |n.members| && CanAct(n, p, Asks(i))
    ensures var t := n.Peer(p).tasks[i];
            var n' := Acted(n, p, Asks(i));
            && n'.members[t.target].mailbox == n.members[t.target].mailbox + [Call(t.req, Relay(p, t.req.cid))]
            && n'.Peer(p).tasks == n.Peer(p).tasks[i := RelayWait(t.req, t.target)]
            && (t.target != p ==>
                  n'.Peer(t.target) == n.Peer(t.target) && n'.members[p].mailbox == n.members[p].mailbox)
  {
  }

  /** A relay task hands a send to its relay as it is, and ends. */
  lemma ForwardsNext(n: Net, p: nat, i: nat)
    requires n.Linked() && p < |n.members| && CanAct(n, p, Forwards(i))
    ensures var t := n.Peer(p).tasks[i];
            var n' := Acted(n, p, Forwards(i));
            && n'.members[t.target].mailbox == n.members[t.target].mailbox + [Send(t.wf)]
            && n'.Peer(p).tasks == Removed(n.Peer(p).tasks, i)
            && (t.target != p ==>
                  n'.Peer(t.target) == n.Peer(t.target) && n'.members[p].mailbox == n.members[p].mailbox)
  {
  }

  /** A task ended, and the mailbox got these messages. */
  predicate EndedWith(m: Member, m': Member, i: nat, ms: seq<Message>) {
    i < |m.peer.tasks| && m'.peer.tasks == Removed(m.peer.tasks, i) && m'.mailbox == m.mailbox + ms
  }

  /** What a relay task ends with once its call is decided. */
  lemma AnswersNext(n: Net, p: nat, i: nat, k: nat)
    requires n.Linked() && p < |n.members| && CanAct(n, p, Answers(i, k))
    ensures var m, t := n.members[p], n.Peer(p).tasks[i];
            var m' := Acted(n, p, Answers(i, k)).members[p];
            var told := (err: ConnectionError) => Frame(NULL_ID, t.req.cid, m.peer.codec.enc(err));
            match n.Peer(t.target).calls[k].status
            case Answered(g) => EndedWith(m, m', i, [CallResponse(Frame(g.sid, t.req.cid, g.payload))])
            case Failed(err, _) => EndedWith(m, m', i, [Send(told(err))])
            case Expired(sid) => EndedWith(m, m', i, [Send(told(ConnectionError.Timeout(sid)))])
            case _ => EndedWith(m, m', i, [RequestError(PeerErr.RelayGone(Ctx(Some(t.req.sid), Some(t.req.cid))))])
  {
  }

  /** A timer that runs out is a timeout of its call; a relay task whose relay is not there says so. */
  lemma FiresNext(n: Net, p: nat, i: nat)
    requires n.Linked() && p < |n.members| && i < |n.Peer(p).tasks|
    ensures var m, t := n.members[p], n.Peer(p).tasks[i];
            && (CanAct(n, p, Fires(i)) ==>
                  EndedWith(m, Acted(n, p, Fires(i)).members[p], i, [TimedOut(t.cid, t.sid)]))
            && (CanAct(n, p, Gone(i)) ==>
                  var e := if t.RelaySend? then HandlerDead(Ctx(Some(t.wf.sid), None))
                           else PeerErr.RelayGone(Ctx(Some(t.req.sid), Some(t.req.cid)));
                  EndedWith(m, Acted(n, p, Gone(i)).members[p], i, [RequestError(e)]))
  {
  }

  /** The result of a handler of this process is forwarded. */
  lemma EndsNext(n: Net, p: nat, i: nat, r: Result<Response, PeerErr>)
    requires n.Linked() && p < |n.members| && CanAct(n, p, Ends(i, r))
    ensures var m, m' := n.members[p], Acted(n, p, Ends(i, r)).members[p];
            match r
            case Ok(Answer(wf)) => EndedWith(m, m', i, [CallResponse(wf)])
            case Ok(Forward(wf)) => EndedWith(m, m', i, [Send(wf)])
            case Ok(Nothing) => EndedWith(m, m', i, [])
            case Err(e) => EndedWith(m, m', i, [RequestError(e)])
  {
  }

  /** Nothing follows a frame whose sending failed. */
  lemma BrokenIsSilent(n: Net, p: nat, a: Act)
    requires n.Linked() && p < |n.members| && CanAct(n, p, a) && n.members[p].broken
    ensures var m' := Acted(n, p, a).members[p]; m'.broken && m'.peer.wire == n.Peer(p).wire
  {
    if a.Handles? {
      FailingSendsNothing(n.Peer(p), n.members[p].mailbox[0], a.env);
    }
  }

  // ---------------------------------------------------------------- runs and main results

  /** No peer makes more calls than there are connection ids, and users are careful with theirs. */
  predicate Run(n: Net, acts: seq<(nat, Act)>)
    requires n.Linked()
    decreases |acts|
  {
    WithinCycle(n) &&
    (acts == [] ||
     (acts[0].0 < |n.members| && CanAct(n, acts[0].0, acts[0].1) && Careful(n, acts[0].1)
      && Run(Acted(n, acts[0].0, acts[0].1), acts[1..])))
  }

  lemma OffersStay(n: Net, p: nat, a: Act)
    requires n.Linked() && p < |n.members| && CanAct(n, p, a)
    ensures forall x | 0 <= x < |n.members| :: Acted(n, p, a).members[x].offers == n.members[x].offers
  {
  }

  function AfterRun(n: Net, acts: seq<(nat, Act)>): (n': Net)
    requires n.Linked() && Run(n, acts)
    ensures n'.Linked() && n'.link == n.link && |n'.members| == |n.members| && WithinCycle(n')
    ensures forall x | 0 <= x < |n.members| :: n'.members[x].offers == n.members[x].offers
    decreases |acts|
  {
    if acts == [] then n
    else
      OffersStay(n, acts[0].0, acts[0].1);
      AfterRun(Acted(n, acts[0].0, acts[0].1), acts[1..])
  }

  /** Peers just created. */
  predicate FreshNet(n: Net) {
    && n.Linked()
    && forall p | 0 <= p < |n.members| ::
         && n.members[p].mailbox == [] && n.members[p].read == 0 && n.members[p].made == []
         && var s := n.members[p].peer;
            && n.members[p].offers == s.services
            && s.outgoing && s.addr && !s.closed && s.counter == 1 && s.responses == map[] && s.tasks == []
            && s.wire == [] && s.calls == [] && s.admitted == []
  }

  lemma FreshNetInv(n: Net)
    requires FreshNet(n)
    ensures NetInv(n)
  {
  }

  lemma {:induction false} RunKeepsNetInv(n: Net, acts: seq<(nat, Act)>)
    requires NetInv(n) && Run(n, acts)
    ensures NetInv(AfterRun(n, acts))
    decreases |acts|
  {
    if acts == [] {
    } else {
      ActKeepsInv(n, acts[0].0, acts[0].1);
      RunKeepsNetInv(Acted(n, acts[0].0, acts[0].1), acts[1..]);
    }
  }

  /** Within one cycle a call's connection id is its number. */
  predicate CallsNumbered(n: Net) {
    forall q, k | 0 <= q < |n.members| && 0 <= k < |n.members[q].peer.calls| ::
      n.members[q].peer.calls[k].frame.cid == k + 1
  }

  lemma NumberCalls(n: Net)
    requires NetInv(n) && WithinCycle(n)
    ensures CallsNumbered(n)
  {
    forall q, k | 0 <= q < |n.members| && 0 <= k < |n.members[q].peer.calls|
      ensures n.members[q].peer.calls[k].frame.cid == k + 1
    {
      assert Inv(n.Peer(q));
      NumberOfCid(n.Peer(q), k);
    }
  }

  /**
   * End-to-end correlation: a receiver resolves with a frame or with a remote error only if that
   * frame is a reply the other end put on the wire under the connection id of this very call, which the
   * other end had taken on, and it leads back to where it was made for this request.
   */
  lemma Correlation(n0: Net, acts: seq<(nat, Act)>, p: nat, k: nat)
    requires FreshNet(n0) && Run(n0, acts)
    requires p < |n0.members| && k < |AfterRun(n0, acts).members[p].peer.calls|
    ensures var n := AfterRun(n0, acts);
            var call := n.Peer(p).calls[k];
            && (ReplyTo(call.status).Some? ==>
                  var g := ReplyTo(call.status).value;
                  && g in n.Far(p).wire && g.cid == call.frame.cid
                  && call.frame.cid in n.Far(p).admitted
                  && Traced(n, n.link[p], call.frame, g))
            && (call.status.Answered? ==> call.status.reply.sid == FULL_ID)
            && (call.status.Failed? ==>
                  && call.status.reply.sid == NULL_ID
                  && n.Peer(p).codec.dec(call.status.reply.payload) == Some(call.status.err))
  {
    FreshNetInv(n0);
    RunKeepsNetInv(n0, acts);
    var n := AfterRun(n0, acts);
    var call := n.Peer(p).calls[k];
    assert PartsOk(n, p, n.members[p]);
    assert CallOk(n, p, n.Peer(p).calls[k]);
    if ReplyTo(call.status).Some? {
      ReplyOfCall(n, p, k, ReplyTo(call.status).value);
    }
  }

  /**
   * Routing: a call that a relay task of peer `p` made is at a relay that the services registered with `p`
   * name for that service, and so is every relay task, of a call or a send, that has yet to ask.
   */
  lemma CallsAreRouted(n0: Net, acts: seq<(nat, Act)>, q: nat, k: nat)
    requires FreshNet(n0) && Run(n0, acts) && q < |n0.members|
    ensures var n := AfterRun(n0, acts);
            && (k < |n.Peer(q).calls| && n.Peer(q).calls[k].caller.Relay? ==>
                  var p := n.Peer(q).calls[k].caller.peer;
                  p < |n0.members| && Routes(n0.Peer(p).services, n.Peer(q).calls[k].frame.sid, q))
            && (k < |n.Peer(q).tasks| ==>
                  var t := n.Peer(q).tasks[k];
                  && (t.RelayCall? || t.RelayWait? ==> Routes(n0.Peer(q).services, t.req.sid, t.target))
                  && (t.RelaySend? ==> Routes(n0.Peer(q).services, t.wf.sid, t.target)))
  {
    FreshNetInv(n0);
    RunKeepsNetInv(n0, acts);
    var n := AfterRun(n0, acts);
    assert PartsOk(n, q, n.members[q]);
    if k < |n.Peer(q).calls| {
      assert CallOk(n, q, n.Peer(q).calls[k]);
    }
    if k < |n.Peer(q).tasks| {
      assert TaskOk(n, q, n.Peer(q).tasks[k]);
    }
  }

  /** Where a reply was made, for which request, and what it was there. */
  datatype Origin = Origin(peer: nat, req: Frame, reply: Frame)

  /**
   * The end of the way of a reply, at any depth: there it was made for a request of this service and
   * payload.
   */
  function TrailEnd(n: Net, p: nat, req: Frame, reply: Frame, t: Trail): (end: Origin)
    requires n.Linked() && Leads(n, p, req, reply, t)
    ensures end.peer < |n.members| && reply.cid == req.cid
    ensures end.req.sid == req.sid && end.req.payload == req.payload
    decreases t
  {
    match t
    case Via(q, k, next) =>
      var call := n.Peer(q).calls[k];
      TrailEnd(n, n.link[q], call.frame, ReplyTo(call.status).value, next)
    case _ => Origin(p, req, reply)
  }

  /** An answer keeps its payload all the way from the handler that made it. */
  lemma {:induction false} AnswerTravels(n: Net, p: nat, req: Frame, reply: Frame, t: Trail)
    requires NetInv(n) && Leads(n, p, req, reply, t) && reply.sid == FULL_ID
    ensures var end := TrailEnd(n, p, req, reply, t);
            Made(end.req, end.reply) in n.members[end.peer].made && end.reply.payload == reply.payload
    decreases t
  {
    match t
    case Via(q, k, next) =>
      var call := n.Peer(q).calls[k];
      assert PartsOk(n, q, n.members[q]);
      assert CallOk(n, q, n.Peer(q).calls[k]);
      AnswerTravels(n, n.link[q], call.frame, ReplyTo(call.status).value, next);
    case _ =>
  }

  /** An error reads the same at the end of the way as where it arose, when all peers serialize alike. */
  lemma {:induction false} ErrorTravels(n: Net, p: nat, req: Frame, reply: Frame, t: Trail, codec: Codec)
    requires NetInv(n) && Leads(n, p, req, reply, t) && reply.sid == NULL_ID
    requires codec.RoundTrips() && forall q | 0 <= q < |n.members| :: n.members[q].peer.codec == codec
    ensures var end := TrailEnd(n, p, req, reply, t);
            end.reply.sid == NULL_ID && codec.dec(end.reply.payload) == codec.dec(reply.payload)
    decreases t
  {
    match t
    case Via(q, k, next) =>
      var call := n.Peer(q).calls[k];
      assert PartsOk(n, q, n.members[q]);
      assert CallOk(n, q, n.Peer(q).calls[k]);
      ErrorTravels(n, n.link[q], call.frame, ReplyTo(call.status).value, next, codec);
    case _ =>
  }

  function Length(t: Trail): nat {
    if t.Via? then 1 + Length(t.next) else 0
  }

  /** An incoming call that a peer serves. */
  datatype Served = Served(peer: nat, cid: u64)

  /** The incoming call for which a relay task made this one, if a relay task made it. */
  function Upstream(n: Net, s: Served): Option<Served>
    requires n.Linked()
  {
    if s.peer < |n.members| && 1 <= s.cid <= |n.Far(s.peer).calls| then
      match n.Far(s.peer).calls[s.cid - 1].caller
      case Relay(p, c) => Some(Served(p, c))
      case User => None
    else None
  }

  function UpstreamBy(n: Net, s: Served, steps: nat): Option<Served>
    requires n.Linked()
  {
    if steps == 0 then Some(s)
    else
      match UpstreamBy(n, s, steps - 1)
      case Some(s') => Upstream(n, s')
      case None => None
  }

  /** The far end of `q` serves call `k` of `q`, and so knows who made it. */
  lemma UpstreamOfCall(n: Net, q: nat, k: nat)
    requires n.Linked() && q < |n.members| && k < |n.Peer(q).calls| && n.Peer(q).calls[k].frame.cid == k + 1
    ensures Upstream(n, Served(n.link[q], n.Peer(q).calls[k].frame.cid)) ==
            match n.Peer(q).calls[k].caller
            case Relay(p, c) => Some(Served(p, c))
            case User => None
  {
    assert n.Far(n.link[q]) == n.Peer(q);
  }

  /** Following a trail upstream from its end leads to its beginning. */
  lemma {:induction false} TrailUpstream(n: Net, p: nat, req: Frame, reply: Frame, t: Trail)
    requires n.Linked() && CallsNumbered(n) && Leads(n, p, req, reply, t)
    ensures var end := TrailEnd(n, p, req, reply, t);
            UpstreamBy(n, Served(end.peer, end.req.cid), Length(t)) == Some(Served(p, req.cid))
    decreases t
  {
    match t
    case Via(q, k, next) =>
      var call := n.Peer(q).calls[k];
      TrailUpstream(n, n.link[q], call.frame, ReplyTo(call.status).value, next);
      UpstreamOfCall(n, q, k);
    case _ =>
  }

  lemma {:induction false} NothingUpstream(n: Net, s: Served, few: nat, many: nat)
    requires n.Linked() && few <= many && UpstreamBy(n, s, few) == None
    ensures UpstreamBy(n, s, many) == None
    decreases many
  {
    if few < many {
      NothingUpstream(n, s, few, many - 1);
    }
  }

  /** A call of a user that a reply decided, the way of that reply, and where it ends. */
  predicate DecidedBy(n: Net, p: nat, k: nat, t: Trail, end: Served)
    requires n.Linked()
  {
    && p < |n.members| && k < |n.Peer(p).calls|
    && var call := n.Peer(p).calls[k];
       && call.caller == User && ReplyTo(call.status).Some?
       && Leads(n, n.link[p], call.frame, ReplyTo(call.status).value, t)
       && var origin := TrailEnd(n, n.link[p], call.frame, ReplyTo(call.status).value, t);
          end == Served(origin.peer, origin.req.cid)
  }

  /** `steps` upstream of `end` is call `k` of `p`, and nothing is further upstream. */
  predicate Root(n: Net, end: Served, steps: nat, p: nat, k: nat)
    requires n.Linked()
  {
    && p < |n.members| && k < CYCLE
    && UpstreamBy(n, end, steps) == Some(Served(n.link[p], k + 1))
    && UpstreamBy(n, end, steps + 1) == None
  }

  lemma RootOfTrail(n: Net, p: nat, k: nat, t: Trail, end: Served)
    requires n.Linked() && CallsNumbered(n) && DecidedBy(n, p, k, t, end)
    ensures Root(n, end, Length(t), p, k)
  {
    var call := n.Peer(p).calls[k];
    TrailUpstream(n, n.link[p], call.frame, ReplyTo(call.status).value, t);
    UpstreamOfCall(n, p, k);
  }

  lemma OneRoot(n: Net, end: Served, steps: nat, p: nat, k: nat, steps2: nat, p2: nat, k2: nat)
    requires n.Linked() && Root(n, end, steps, p, k) && Root(n, end, steps2, p2, k2)
    ensures p == p2 && k == k2
  {
    if steps < steps2 {
      NothingUpstream(n, end, steps + 1, steps2);
    } else if steps2 < steps {
      NothingUpstream(n, end, steps2 + 1, steps);
    }
    assert n.link[n.link[p]] == p && n.link[n.link[p2]] == p2;
  }

  /**
   * No crosstalk: two calls of users, on whatever connections, that are decided by replies to the same
   * request at the same peer, be it an answer or an error, are the same call. So with any number of
   * consumers behind shared relays each gets the reply made for its own request.
   */
  lemma NoCrosstalk(n0: Net, acts: seq<(nat, Act)>, p: nat, k: nat, t: Trail, p2: nat, k2: nat, t2: Trail,
                    end: Served)
    requires FreshNet(n0) && Run(n0, acts)
    requires DecidedBy(AfterRun(n0, acts), p, k, t, end) && DecidedBy(AfterRun(n0, acts), p2, k2, t2, end)
    ensures p == p2 && k == k2
  {
    FreshNetInv(n0);
    RunKeepsNetInv(n0, acts);
    var n := AfterRun(n0, acts);
    NumberCalls(n);
    RootOfTrail(n, p, k, t, end);
    RootOfTrail(n, p2, k2, t2, end);
    OneRoot(n, end, Length(t), p, k, Length(t2), p2, k2);
  }
}
