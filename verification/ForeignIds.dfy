/** What happens when users send frames under connection ids of their own choice. */
module ForeignIds {
  import opened Wrappers
  import opened LittleEndian
  import opened WireFormat
  import opened PeerTypes
  import opened PeerSpec
  import opened PeerShape
  import opened PeerProps
  import opened Network

  /** The sink takes what it gets and the nursery every task. */
  predicate Smooth(env: Env) {
    env.sendErr.None? && env.spawnOk
  }

  /** `n` calls in a row. */
  function Calls(s: PeerState, wf: Frame, n: nat, env: Env): PeerState {
    if n == 0 then s else HandleCall(Calls(s, wf, n - 1, env), wf, User, env).0
  }

  /** `n` calls have gone out after `f`, and all of them wait. */
  predicate AllWait(s: PeerState, f: Frame, n: nat) {
    && Inv(s) && !s.closed && |s.calls| == n && |s.wire| > 0 && s.wire[0] == f
    && forall k | 0 <= k < n :: s.calls[k].status.Waiting? && s.calls[k].frame in s.wire
  }

  lemma OneMoreWaits(s: PeerState, f: Frame, n: nat, wf: Frame, env: Env)
    requires AllWait(s, f, n) && Smooth(env) && n < CYCLE
    ensures var s' := HandleCall(s, wf, User, env).0;
            AllWait(s', f, n + 1)
  {
    var s' := HandleCall(s, wf, User, env).0;
    CallOutcome(s, wf, User, env);
    HandleKeepsInv(s, Call(wf, User), env);
    CallShape(s, wf, User, env);
    assert s'.calls[n].frame in s'.wire;
    forall k | 0 <= k < n ensures s'.calls[k] == s.calls[k] {
    }
  }

  lemma {:induction false} CallsWait(s: PeerState, f: Frame, wf: Frame, n: nat, env: Env)
    requires AllWait(s, f, 0) && Smooth(env) && n <= CYCLE
    ensures AllWait(Calls(s, wf, n, env), f, n)
    decreases n
  {
    if n > 0 {
      CallsWait(s, f, wf, n - 1, env);
      var before := Calls(s, wf, n - 1, env);
      assert Calls(s, wf, n, env) == HandleCall(before, wf, User, env).0;
      OneMoreWaits(before, f, n - 1, wf, env);
    }
  }

  lemma LastCallIsTold(s: PeerState, f: Frame, c: u64, reply: Frame, env: Env)
    requires AllWait(s, f, c) && c > 0 && reply.sid == FULL_ID && reply.cid == c
    ensures s.calls[c - 1].frame.cid == c
    ensures Handle(s, Incoming(Ok(reply)), env).calls == s.calls[c - 1 := s.calls[c - 1].(status := Answered(reply))]
  {
    assert s.calls[c - 1].frame.cid == CidOf(c - 1) == c;
    assert s.calls[c - 1].status.Waiting?;
    ResolveOutcome(s, c, Answered(reply));
    assert Handle(s, Incoming(Ok(reply)), env) == Resolve(s, c, Answered(reply));
  }

  /**
   * A frame that a user sends under an id that a later call gets goes out as a second request with that
   * id, and its reply is taken for the reply to the call. As frames under other ids do no harm (see
   * `Network.Correlation`), the ids users may send are exactly those no call gets: null, and those beyond
   * the number of calls.
   */
  lemma ForeignReplyIsMistaken(codec: Codec, foreign: Frame, wf: Frame, env: Env, payload: seq<byte>)
    requires Smooth(env) && !IsReply(foreign) && foreign.cid != NULL_ID
    ensures var c := foreign.cid;
            var s1 := HandleSend(Fresh(codec, false, false, 0, map[]), foreign, env);
            var s2 := Calls(s1, wf, c, env);
            && |s2.wire| > 0 && s2.wire[0] == foreign
            && |s2.calls| == c && s2.calls[c - 1].frame in s2.wire && s2.calls[c - 1].frame.cid == c
            && var reply := Frame(FULL_ID, c, payload);
               Handle(s2, Incoming(Ok(reply)), env).calls ==
               s2.calls[c - 1 := s2.calls[c - 1].(status := Answered(reply))]
  {
    var c := foreign.cid;
    var s0 := Fresh(codec, false, false, 0, map[]);
    var s1 := HandleSend(s0, foreign, env);
    assert s1 == s0.(wire := [foreign]);
    CallsWait(s1, foreign, wf, c, env);
    LastCallIsTold(Calls(s1, wf, c, env), foreign, c, Frame(FULL_ID, c, payload), env);
  }

  // ---------------------------------------------------------------- with the far end

  /** Every act in turn, users being careful or not; none if one of them cannot be. */
  function Play(n: Net, acts: seq<(nat, Act)>): Option<Net>
    requires n.Linked()
    decreases |acts|
  {
    if acts == [] then Some(n)
    else
      var (p, a) := acts[0];
      if p < |n.members| && CanAct(n, p, a) then Play(Acted(n, p, a), acts[1..]) else None
  }

  lemma PlayFirst(n: Net, p: nat, a: Act, rest: seq<(nat, Act)>)
    requires n.Linked() && p < |n.members| && CanAct(n, p, a)
    ensures Play(n, [(p, a)] + rest) == Play(Acted(n, p, a), rest)
  {
    assert ([(p, a)] + rest)[1..] == rest;
  }

  const CALM := Env(None, None, true, true, 0)

  /** A consumer and a provider of service `sid`. */
  function Two(near: Member, far: Member): Net {
    Net([near, far], [1, 0], 1)
  }

  lemma PutTwo(near: Member, far: Member, m: Member)
    ensures Network.Put(Two(near, far), 0, m) == Two(m, far) && Network.Put(Two(near, far), 1, m) == Two(near, m)
  {
  }

  lemma NearHandles(near: Member, far: Member, msg: Message, rest: seq<(nat, Act)>)
    requires near.mailbox == [msg] && !near.broken
    ensures Play(Two(near, far), [(0, Handles(CALM))] + rest) ==
            Play(Two(near.(peer := Handle(near.peer, msg, CALM), mailbox := []), far), rest)
  {
    assert near.mailbox[1..] == [];
    PutTwo(near, far, near.(peer := Handle(near.peer, msg, CALM), mailbox := []));
    PlayFirst(Two(near, far), 0, Handles(CALM), rest);
  }

  lemma FarHandles(near: Member, far: Member, msg: Message, rest: seq<(nat, Act)>)
    requires far.mailbox == [msg] && !far.broken
    ensures Play(Two(near, far), [(1, Handles(CALM))] + rest) ==
            Play(Two(near, far.(peer := Handle(far.peer, msg, CALM), mailbox := [])), rest)
  {
    assert far.mailbox[1..] == [];
    PutTwo(near, far, far.(peer := Handle(far.peer, msg, CALM), mailbox := []));
    PlayFirst(Two(near, far), 1, Handles(CALM), rest);
  }

  /** A user's message gets to the consumer and is handled. */
  function Posts(msg: Message, rest: seq<(nat, Act)>): seq<(nat, Act)> {
    [(0, Receives(msg))] + ([(0, Handles(CALM))] + rest)
  }

  lemma PostsPlays(near: Member, far: Member, msg: Message, rest: seq<(nat, Act)>)
    requires near.mailbox == [] && !near.broken && FromUsers(msg)
    ensures Play(Two(near, far), Posts(msg, rest)) == Play(Two(near.(peer := Handle(near.peer, msg, CALM)), far), rest)
  {
    var posted := near.(mailbox := [] + [msg]);
    PutTwo(near, far, posted);
    PlayFirst(Two(near, far), 0, Receives(msg), [(0, Handles(CALM))] + rest);
    NearHandles(posted, far, msg, rest);
  }

  /** The consumer reads a frame and handles it. */
  function NearReads(rest: seq<(nat, Act)>): seq<(nat, Act)> {
    [(0, Reads)] + ([(0, Handles(CALM))] + rest)
  }

  lemma NearReadsPlays(near: Member, far: Member, rest: seq<(nat, Act)>)
    requires near.mailbox == [] && !near.broken && near.read < |far.peer.wire|
    ensures var msg := Incoming(Ok(far.peer.wire[near.read]));
            Play(Two(near, far), NearReads(rest)) ==
            Play(Two(near.(peer := Handle(near.peer, msg, CALM), read := near.read + 1), far), rest)
  {
    var msg := Incoming(Ok(far.peer.wire[near.read]));
    var posted := near.(mailbox := [] + [msg], read := near.read + 1);
    PutTwo(near, far, posted);
    PlayFirst(Two(near, far), 0, Reads, [(0, Handles(CALM))] + rest);
    NearHandles(posted, far, msg, rest);
  }

  /** The provider reads a frame and handles it. */
  function FarReads(rest: seq<(nat, Act)>): seq<(nat, Act)> {
    [(1, Reads)] + ([(1, Handles(CALM))] + rest)
  }

  lemma FarReadsPlays(near: Member, far: Member, rest: seq<(nat, Act)>)
    requires far.mailbox == [] && !far.broken && far.read < |near.peer.wire|
    ensures var msg := Incoming(Ok(near.peer.wire[far.read]));
            Play(Two(near, far), FarReads(rest)) ==
            Play(Two(near, far.(peer := Handle(far.peer, msg, CALM), read := far.read + 1)), rest)
  {
    var msg := Incoming(Ok(near.peer.wire[far.read]));
    var posted := far.(mailbox := [] + [msg], read := far.read + 1);
    PutTwo(near, far, posted);
    PlayFirst(Two(near, far), 1, Reads, [(1, Handles(CALM))] + rest);
    FarHandles(near, posted, msg, rest);
  }

  /** The provider's handler answers, and the reply is handled. */
  function FarReplies(reply: Frame, rest: seq<(nat, Act)>): seq<(nat, Act)> {
    [(1, Ends(0, Ok(Answer(reply))))] + ([(1, Handles(CALM))] + rest)
  }

  lemma FarRepliesPlays(near: Member, far: Member, f: Frame, reply: Frame, rest: seq<(nat, Act)>)
    requires far.mailbox == [] && !far.broken && far.peer.tasks == [LocalCall(f)]
    requires reply == Frame(FULL_ID, f.cid, reply.payload)
    ensures Play(Two(near, far), FarReplies(reply, rest)) ==
            Play(Two(near, far.(peer := Handle(far.peer.(tasks := []), CallResponse(reply), CALM),
                                made := far.made + [Made(f, reply)])), rest)
  {
    var a := Ends(0, Ok(Answer(reply)));
    var idle := far.peer.(tasks := []);
    var ended := far.(peer := idle, mailbox := [] + [CallResponse(reply)], made := far.made + [Made(f, reply)]);
    assert far.peer.tasks[..0] + far.peer.tasks[1..] == [];
    PutTwo(near, far, ended);
    PlayFirst(Two(near, far), 1, a, [(1, Handles(CALM))] + rest);
    FarHandles(near, ended, CallResponse(reply), rest);
  }

  // The five turns of the story, as what they do to a peer.

  lemma SendsForeign(codec: Codec, f: Frame)
    requires !IsReply(f)
    ensures var s := Fresh(codec, false, false, 0, map[]);
            Handle(s, Send(f), CALM) == s.(wire := [f])
  {
  }

  lemma TakesForeign(codec: Codec, f: Frame)
    requires !IsReply(f) && f.cid != NULL_ID
    ensures var s := Fresh(codec, false, false, 0, map[f.sid := Services({f.sid})]);
            Handle(s, Incoming(Ok(f)), CALM) == s.(admitted := [f.cid], tasks := [LocalCall(f)])
  {
  }

  lemma RepliesTo(s: PeerState, reply: Frame)
    requires s.outgoing && !s.gated
    ensures Handle(s, CallResponse(reply), CALM) == s.(wire := s.wire + [reply])
  {
  }

  lemma CallsNext(codec: Codec, f: Frame, wf: Frame)
    ensures var s := Fresh(codec, false, false, 0, map[]).(wire := [f]);
            var sent := wf.(cid := 1);
            Handle(s, Call(wf, User), CALM) ==
            s.(wire := [f] + [sent], counter := 2, calls := [CallRecord(sent, User, Waiting)], responses := map[1 := 0],
               tasks := [Timer(1, wf.sid)])
  {
    assert Drop([], {}) == [];
  }

  lemma IsTold(s: PeerState, sent: Frame, reply: Frame)
    requires !s.closed && s.calls == [CallRecord(sent, User, Waiting)] && s.responses == map[1 := 0]
    requires reply.sid == FULL_ID && reply.cid == 1
    ensures var s' := Handle(s, Incoming(Ok(reply)), CALM);
            s'.calls == [CallRecord(sent, User, Answered(reply))] && s'.codec == s.codec
  {
  }

  function Consumer(codec: Codec): PeerState {
    Fresh(codec, false, false, 0, map[])
  }

  function Provider(codec: Codec, sid: u64): PeerState {
    Fresh(codec, false, false, 0, map[sid := Services({sid})])
  }

  function Idle(s: PeerState): Member {
    Member(s, [], 0, [], false, s.services)
  }

  function Turns(f: Frame, wf: Frame, reply: Frame): seq<(nat, Act)> {
    Posts(Send(f), FarReads(FarReplies(reply, Posts(Call(wf, User), NearReads([])))))
  }

  /** The consumer once it has sent `f` and then called with `wf`. */
  function Called(codec: Codec, f: Frame, wf: Frame): PeerState {
    var sent := wf.(cid := 1);
    Consumer(codec).(wire := [f] + [sent], counter := 2, calls := [CallRecord(sent, User, Waiting)],
                     responses := map[1 := 0], tasks := [Timer(1, wf.sid)])
  }

  /** The provider once its handler answered `f`. */
  function Replied(codec: Codec, f: Frame, reply: Frame): Member {
    Member(Provider(codec, f.sid).(admitted := [1], wire := [] + [reply]), [], 1, [] + [Made(f, reply)], false,
           Provider(codec, f.sid).services)
  }

  /** The consumer once it has sent `f`. */
  function Sent(codec: Codec, f: Frame): PeerState {
    Consumer(codec).(wire := [f])
  }

  function Took(codec: Codec, f: Frame): PeerState {
    Provider(codec, f.sid).(admitted := [1], tasks := [LocalCall(f)])
  }

  lemma SendTurnPlays(codec: Codec, f: Frame, far: Member, rest: seq<(nat, Act)>)
    requires !IsReply(f)
    ensures Play(Two(Idle(Consumer(codec)), far), Posts(Send(f), rest)) == Play(Two(Idle(Sent(codec, f)), far), rest)
  {
    SendsForeign(codec, f);
    PostsPlays(Idle(Consumer(codec)), far, Send(f), rest);
  }

  lemma ReadTurnPlays(codec: Codec, f: Frame, rest: seq<(nat, Act)>)
    requires !IsReply(f) && f.cid == 1
    ensures Play(Two(Idle(Sent(codec, f)), Idle(Provider(codec, f.sid))), FarReads(rest)) ==
            Play(Two(Idle(Sent(codec, f)), Idle(Took(codec, f)).(read := 1)), rest)
  {
    TakesForeign(codec, f);
    FarReadsPlays(Idle(Sent(codec, f)), Idle(Provider(codec, f.sid)), rest);
  }

  lemma ReplyTurnPlays(codec: Codec, f: Frame, reply: Frame, rest: seq<(nat, Act)>)
    requires f.cid == 1 && reply == Frame(FULL_ID, 1, reply.payload)
    ensures Play(Two(Idle(Sent(codec, f)), Idle(Took(codec, f)).(read := 1)), FarReplies(reply, rest)) ==
            Play(Two(Idle(Sent(codec, f)), Replied(codec, f, reply)), rest)
  {
    RepliesTo(Took(codec, f).(tasks := []), reply);
    FarRepliesPlays(Idle(Sent(codec, f)), Idle(Took(codec, f)).(read := 1), f, reply, rest);
  }

  lemma CallTurnPlays(codec: Codec, f: Frame, wf: Frame, far: Member, rest: seq<(nat, Act)>)
    requires !IsReply(wf)
    ensures Play(Two(Idle(Sent(codec, f)), far), Posts(Call(wf, User), rest)) ==
            Play(Two(Idle(Called(codec, f, wf)), far), rest)
  {
    CallsNext(codec, f, wf);
    PostsPlays(Idle(Sent(codec, f)), far, Call(wf, User), rest);
  }

  lemma LastTurnPlays(codec: Codec, f: Frame, wf: Frame, reply: Frame)
    ensures var told := Handle(Called(codec, f, wf), Incoming(Ok(reply)), CALM);
            Play(Two(Idle(Called(codec, f, wf)), Replied(codec, f, reply)), NearReads([])) ==
            Some(Two(Idle(told).(read := 1), Replied(codec, f, reply)))
  {
    NearReadsPlays(Idle(Called(codec, f, wf)), Replied(codec, f, reply), []);
  }

  lemma TurnsPlay(codec: Codec, f: Frame, wf: Frame, reply: Frame)
    requires !IsReply(f) && f.cid == 1 && !IsReply(wf) && reply == Frame(FULL_ID, 1, reply.payload)
    ensures var told := Handle(Called(codec, f, wf), Incoming(Ok(reply)), CALM);
            Play(Two(Idle(Consumer(codec)), Idle(Provider(codec, f.sid))), Turns(f, wf, reply)) ==
            Some(Two(Idle(told).(read := 1), Replied(codec, f, reply)))
  {
    var rest := Posts(Call(wf, User), NearReads([]));
    SendTurnPlays(codec, f, Idle(Provider(codec, f.sid)), FarReads(FarReplies(reply, rest)));
    ReadTurnPlays(codec, f, FarReplies(reply, rest));
    ReplyTurnPlays(codec, f, reply, rest);
    CallTurnPlays(codec, f, wf, Replied(codec, f, reply), NearReads([]));
    LastTurnPlays(codec, f, wf, reply);
  }

  /**
   * With a provider at the far end: a user sends `f` under the id that its next call gets; the provider's
   * handler answers `f`, and the call, which the provider has not even read, is told that answer, which
   * leads back to no handler of that call.
   */
  lemma ForeignAnswerIsUntraced(codec: Codec, f: Frame, wf: Frame, reply: Frame)
    requires !IsReply(f) && f.cid == 1 && !IsReply(wf) && wf.payload != f.payload
    requires reply == Frame(FULL_ID, 1, reply.payload)
    ensures var n0 := Two(Idle(Consumer(codec)), Idle(Provider(codec, f.sid)));
            FreshNet(n0) && Play(n0, Turns(f, wf, reply)).Some? &&
            var n := Play(n0, Turns(f, wf, reply)).value;
            && n.Linked() && |n.members| == 2 && |n.Peer(0).calls| == 1
            && n.Peer(0).calls[0].frame == wf.(cid := 1) && n.Peer(0).calls[0].status == Answered(reply)
            && !Traced(n, 1, wf.(cid := 1), reply)
  {
    TurnsPlay(codec, f, wf, reply);
    var told := Handle(Called(codec, f, wf), Incoming(Ok(reply)), CALM);
    IsTold(Called(codec, f, wf), wf.(cid := 1), reply);
    NotTraced(Idle(told).(read := 1), Replied(codec, f, reply), f, wf.(cid := 1), reply);
  }

  lemma NotTraced(near: Member, far: Member, f: Frame, sent: Frame, reply: Frame)
    requires near.peer.calls == [CallRecord(sent, User, Answered(reply))] && far.peer.calls == []
    requires far.made == [Made(f, reply)] && f != sent && reply.sid == FULL_ID
    ensures !Traced(Two(near, far), 1, sent, reply)
  {
    var n := Two(near, far);
    forall t ensures !Leads(n, 1, sent, reply, t) {
      NoRelayCall(near, far, sent);
    }
  }

  lemma NoRelayCall(near: Member, far: Member, sent: Frame)
    requires |near.peer.calls| == 1 && near.peer.calls[0].caller == User && far.peer.calls == []
    ensures forall q, k :: !MadeFor(Two(near, far), 1, sent, q, k)
  {
  }
}
