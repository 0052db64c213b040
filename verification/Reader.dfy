/** `listen_incoming`: the task that hands what comes off the wire to the peer, through the gate. */
module PeerReader {
  import opened Wrappers
  import opened LittleEndian
  import opened PeerTypes
  import opened PeerSpec
  import opened PeerProps
  import opened PeerOutcomes
  import opened Framing
  import Slots = BackPressureSlots
  import opened ThesWfDecoder
  import WF = WireFormat

  // ---------------------------------------------------------------- what the stream yields

  predicate IsFault(a: Poll) {
    a == IoError || a.MessageSizeExceeded?
  }

  predicate IsLast(a: Poll) {
    a in {End, TransportGone, HeaderPanic}
  }

  /**
   * Which answer of an open decoder can come next, waiting aside: after a transport error the end of the
   * stream, after an oversize error the panic on the lost transport, and after those nothing.
   */
  predicate MayFollow(last: Poll, a: Poll) {
    match last
    case Item(_) => a.Item? || IsFault(a) || a in {End, HeaderPanic}
    case IoError => a == End
    case MessageSizeExceeded(_) => a == TransportGone
    case _ => false
  }

  /** The last answer so far; the first comes as after an item. */
  function LastOf(answers: seq<Poll>): Poll {
    if answers == [] then Item([]) else answers[|answers| - 1]
  }

  predicate InOrder(answers: seq<Poll>) {
    answers == [] ||
    (InOrder(answers[..|answers| - 1]) && MayFollow(LastOf(answers[..|answers| - 1]), answers[|answers| - 1]))
  }

  lemma InOrderGrows(answers: seq<Poll>, a: Poll)
    requires InOrder(answers) && MayFollow(LastOf(answers), a)
    ensures InOrder(answers + [a]) && LastOf(answers + [a]) == a
    ensures (answers + [a])[..|answers|] == answers
  {
  }

  lemma {:induction false} NextInOrder(answers: seq<Poll>, i: nat)
    requires InOrder(answers) && i + 1 < |answers|
    ensures MayFollow(answers[i], answers[i + 1])
  {
    var n := |answers| - 1;
    if i + 1 < n {
      NextInOrder(answers[..n], i);
    }
  }

  /** A decoder's flags say which fault it reported last, if any. */
  predicate Reported(last: Poll, closed: bool, transport: bool) {
    (closed <==> last == IoError) && (transport <==> !last.MessageSizeExceeded?)
  }

  /**
   * The first `taken` bytes of `stream`, as a decoder split them; an open one holds the rest of them, and
   * `src` is still to come; `oversize` is a length found that exceeds `max`.
   */
  datatype Log = Log(max: nat, stream: seq<byte>, taken: nat, frames: seq<seq<byte>>,
                     held: seq<byte>, src: seq<byte>, open: bool, oversize: Option<nat>)

  predicate Agreeing(t: Log) {
    && Yielded(t.max, t.stream, t.taken, t.frames)
    && (t.open ==> t.oversize == None && Follows(t.max, t.stream, t.taken, t.frames, t.held, t.src))
    && (t.oversize.Some? ==> Split(t.stream[..t.taken], t.max).stop == Oversize(t.oversize.value))
  }

  type Transcript = t: Log | Agreeing(t) witness Log(0, [], 0, [], [], [], true, None)

  /** One more answer of an open decoder. */
  ghost function Extended(t: Transcript, r: Poll, held': seq<byte>, src': seq<byte>): (t': Transcript)
    requires t.open && DecodeStep(t.max, t.held, t.src, r, held', src')
    ensures t'.max == t.max && t'.stream == t.stream && t'.held == held' && t'.src == src'
    ensures t'.frames == (if r.Item? then t.frames + [r.frame] else t.frames) && (t'.open <==> r.Pending? || r.Item?)
    ensures t'.oversize == if r.MessageSizeExceeded? then Some(r.size) else None
  {
    PollFollows(t.max, t.stream, t.taken, t.frames, t.held, t.src, r, held', src');
    Log(t.max, t.stream, |t.stream| - |src'|, if r.Item? then t.frames + [r.frame] else t.frames, held', src',
        r.Pending? || r.Item?, if r.MessageSizeExceeded? then Some(r.size) else None)
  }

  /** `t` is what a decoder did so far; after a fault, up to that. */
  ghost predicate Records(incoming: Decoder, t: Transcript)
    reads incoming, incoming.Repr()
  {
    && incoming.Valid() && t.max == incoming.maxSize
    && (t.open ==> t.held == incoming.Held() && t.src == incoming.source.pending)
  }

  /** One poll of a decoder whose last answer was `last`, waiting aside. */
  method NextAnswer(incoming: Decoder, ghost last: Poll, ghost t0: Transcript) returns (r: Poll, ghost t: Transcript)
    requires Records(incoming, t0) && (t0.open <==> last.Item?) && (last.Item? || IsFault(last))
    requires Reported(last, incoming.closed, incoming.HasTransport())
    modifies incoming.Repr()
    ensures Records(incoming, t) && incoming.Renewed()
    ensures incoming.source.polls >= old(incoming.source.polls)
    ensures t.stream == t0.stream && t.frames == if r.Item? then t0.frames + [r.frame] else t0.frames
    ensures r == Pending ==>
              && last.Item? && t.open && Reported(last, incoming.closed, incoming.HasTransport())
              && incoming.source.last.Pending? && incoming.source.polls > old(incoming.source.polls)
    ensures r != Pending ==>
              && MayFollow(last, r) && (t.open <==> r.Item?)
              && (!IsLast(r) ==> Reported(r, incoming.closed, incoming.HasTransport()))
    ensures t.oversize == if r.MessageSizeExceeded? then Some(r.size) else t0.oversize
    ensures r.Item? ==> |incoming.source.pending| < |old(incoming.source.pending)|
  {
    incoming.HeldIsIncomplete();
    ghost var max, held, src := incoming.maxSize, incoming.Held(), incoming.source.pending;
    r := incoming.PollNext();
    if last.Item? && r != IoError {
      ItemTakesBytes(max, held, src, r, incoming.Held(), incoming.source.pending);
      t := Extended(t0, r, incoming.Held(), incoming.source.pending);
    } else {
      t := Ended(t0);
    }
  }

  ghost function Ended(t: Transcript): (t': Transcript)
    ensures t' == t.(open := false)
  {
    t.(open := false)
  }

  /** The message an answer becomes; a panic becomes none. */
  function MessageOf(a: Poll, max: nat): seq<Message> {
    match a
    case Item(f) =>
      [Incoming(if |f| < WF.LEN_HEADER then Err(WF.WireErr.Deserialize) else Ok(WF.View(f)))]
    case MessageSizeExceeded(n) => [Incoming(Err(WF.WireErr.MessageSizeExceeded(n, max)))]
    case IoError => [Incoming(Err(WF.Io))]
    case End => [CloseConnection(true)]
    case _ => []
  }

  function MessagesOf(answers: seq<Poll>, max: nat): seq<Message> {
    if answers == [] then []
    else MessagesOf(answers[..|answers| - 1], max) + MessageOf(answers[|answers| - 1], max)
  }

  /** The frames among the answers. */
  function ItemsOf(answers: seq<Poll>): seq<seq<byte>> {
    if answers == [] then []
    else
      var last := answers[|answers| - 1];
      ItemsOf(answers[..|answers| - 1]) + if last.Item? then [last.frame] else []
  }

  /** The length in an oversize error among the answers. */
  function OversizeIn(answers: seq<Poll>): Option<nat> {
    if answers == [] then None
    else
      var last := answers[|answers| - 1];
      if last.MessageSizeExceeded? then Some(last.size) else OversizeIn(answers[..|answers| - 1])
  }

  datatype Stage = Listening | Finished | Panicked

  /**
   * What the stream yielded, the last of it and the frames in it; what was sent to the peer, and the
   * message that waits at the gate.
   */
  datatype Report = Report(max: nat, answers: seq<Poll>, last: Poll, frames: seq<seq<byte>>,
                           oversize: Option<nat>, sent: seq<Message>, waiting: Option<Message>, stage: Stage)

  function AtGate(p: Report): seq<Message> {
    if p.waiting.Some? then [p.waiting.value] else []
  }

  /** Everything the stream yielded was sent, in order, but for the message at the gate. */
  predicate Kept(p: Report) {
    && InOrder(p.answers) && p.last == LastOf(p.answers) && p.frames == ItemsOf(p.answers)
    && p.oversize == OversizeIn(p.answers)
    && p.sent + AtGate(p) == MessagesOf(p.answers, p.max)
    && (p.stage != Listening ==> p.waiting == None)
    && (p.stage == Finished <==> p.last == End)
    && (p.stage == Panicked <==> p.last in {TransportGone, HeaderPanic})
  }

  type Progress = p: Report | Kept(p) witness Report(0, [], Item([]), [], None, [], None, Listening)

  /** An answer is dealt with: a message goes to the gate, the end of the stream straight to the peer. */
  function Took(p: Progress, r: Poll): (p': Progress)
    requires p.stage == Listening && p.waiting == None && MayFollow(p.last, r)
    ensures p'.max == p.max && p'.answers == p.answers + [r] && p'.last == r
    ensures p'.frames == if r.Item? then p.frames + [r.frame] else p.frames
    ensures p'.oversize == if r.MessageSizeExceeded? then Some(r.size) else p.oversize
    ensures p'.stage == Listening <==> !IsLast(r)
    ensures p'.waiting.Some? <==> !IsLast(r)
  {
    InOrderGrows(p.answers, r);
    var frames := if r.Item? then p.frames + [r.frame] else p.frames;
    var oversize := if r.MessageSizeExceeded? then Some(r.size) else p.oversize;
    var p1 := p.(answers := p.answers + [r], last := r, frames := frames, oversize := oversize);
    if r.Item? || IsFault(r) then p1.(waiting := Some(MessageOf(r, p.max)[0]))
    else if r == End then p1.(sent := p.sent + [CloseConnection(true)], stage := Finished)
    else p1.(stage := Panicked)
  }

  /** The message at the gate is let through. */
  function Passed(p: Progress): (p': Progress)
    requires p.waiting.Some?
    ensures p' == p.(sent := p.sent + [p.waiting.value], waiting := None)
  {
    p.(sent := p.sent + [p.waiting.value], waiting := None)
  }

  /** A reader between polls, its decoder, and what that did so far. */
  ghost predicate Ready(incoming: Decoder, p: Progress, t: Transcript)
    reads incoming, incoming.Repr()
  {
    && Records(incoming, t)
    && p.max == t.max && p.frames == t.frames && p.oversize == t.oversize && (t.open <==> p.last.Item?)
    && (p.stage == Listening ==> Reported(p.last, incoming.closed, incoming.HasTransport()))
  }

  /** Where a poll of the task can stop, short of its end: at the stream, or at a gate without a slot. */
  ghost predicate Parked(incoming: Decoder, backpressure: Slots.BackPressure?, p: Progress, waker: Slots.Waker)
    reads incoming.source, backpressure
  {
    if p.waiting == None then incoming.source.last.Pending? && p.last.Item?
    else backpressure != null && backpressure.available <= 0 && Queued(backpressure.wakers, waker)
  }

  predicate Queued(wakers: seq<Slots.Waker>, waker: Slots.Waker) {
    wakers != [] && wakers[|wakers| - 1] == waker
  }

  /**
   * One poll of the task, which was suspended as `p0`: it goes on until the stream or the gate makes it
   * wait, or until it ends.
   */
  method ListenIncoming(incoming: Decoder, backpressure: Slots.BackPressure?, p0: Progress, waker: Slots.Waker,
                        ghost t0: Transcript)
    returns (p: Progress, ghost t: Transcript)
    requires Ready(incoming, p0, t0) && p0.stage == Listening
    modifies incoming.Repr(), backpressure
    ensures Ready(incoming, p, t) && incoming.Renewed()
    ensures p0.answers <= p.answers
    ensures Stops(incoming, backpressure, p, waker, old(incoming.source.polls))
    ensures p0.waiting.Some? && backpressure != null && old(backpressure.available) <= 0 ==> p == p0
  {
    var stop;
    t := t0;
    stop, p := PassGate(incoming, backpressure, p0, waker, t0);
    if !stop {
      p, t := Listen(incoming, backpressure, p, waker, t0);
    }
  }

  /** The loop, entered with nothing at the gate. */
  method Listen(incoming: Decoder, backpressure: Slots.BackPressure?, p0: Progress, waker: Slots.Waker,
                ghost t0: Transcript)
    returns (p: Progress, ghost t: Transcript)
    requires Ready(incoming, p0, t0) && p0.stage == Listening && p0.waiting == None
    modifies incoming.Repr(), backpressure
    ensures Ready(incoming, p, t) && incoming.Renewed()
    ensures p0.answers <= p.answers
    ensures Stops(incoming, backpressure, p, waker, old(incoming.source.polls))
  {
    p, t := p0, t0;
    var stop := false;
    while !stop
      invariant Ready(incoming, p, t) && (!stop ==> p.stage == Listening && p.waiting == None)
      invariant incoming.Renewed()
      invariant p0.answers <= p.answers && incoming.source.polls >= old(incoming.source.polls)
      invariant stop ==> Stops(incoming, backpressure, p, waker, old(incoming.source.polls))
      decreases !stop, p.last.Item?, |incoming.source.pending|
    {
      stop, p, t := Round(incoming, backpressure, p, p0.answers, waker, t);
    }
  }

  /** Where a poll of the task stops that began when the stream had been polled `polls` times. */
  ghost predicate Stops(incoming: Decoder, backpressure: Slots.BackPressure?, p: Progress, waker: Slots.Waker,
                        polls: nat)
    reads incoming.source, backpressure
  {
    p.stage == Listening ==>
      && Parked(incoming, backpressure, p, waker)
      && (p.waiting == None ==> incoming.source.polls > polls)
  }

  /** Once round the loop: the stream, which had yielded `before` when the task was polled, then the gate. */
  method Round(incoming: Decoder, backpressure: Slots.BackPressure?, p0: Progress, ghost before: seq<Poll>,
               waker: Slots.Waker, ghost t0: Transcript)
    returns (stop: bool, p: Progress, ghost t: Transcript)
    requires Ready(incoming, p0, t0) && p0.stage == Listening && p0.waiting == None && before <= p0.answers
    modifies incoming.Repr(), backpressure
    ensures Ready(incoming, p, t) && incoming.Renewed()
    ensures before <= p.answers && incoming.source.polls >= old(incoming.source.polls)
    ensures !stop ==> p.stage == Listening && p.waiting == None && p0.last.Item?
    ensures !stop && p.last.Item? ==> |incoming.source.pending| < |old(incoming.source.pending)|
    ensures stop ==> Stops(incoming, backpressure, p, waker, old(incoming.source.polls))
  {
    stop, p, t := Advance(incoming, p0, before, t0);
    if !stop {
      stop, p := PassGate(incoming, backpressure, p, waker, t);
    }
  }

  /** The message at the gate, if there is one, is let through or waits; the decoder is not touched. */
  method PassGate(incoming: Decoder, backpressure: Slots.BackPressure?, p0: Progress, waker: Slots.Waker,
                  ghost t: Transcript)
    returns (stop: bool, p: Progress)
    requires Ready(incoming, p0, t) && p0.stage == Listening
    modifies backpressure
    ensures Ready(incoming, p, t) && incoming.Renewed()
    ensures incoming.source.polls == old(incoming.source.polls)
    ensures incoming.source.pending == old(incoming.source.pending)
    ensures stop <==> p0.waiting.Some? && backpressure != null && old(backpressure.available) <= 0
    ensures p == if stop || p0.waiting == None then p0 else Passed(p0)
    ensures stop ==> backpressure.available <= 0 && Queued(backpressure.wakers, waker)
  {
    stop, p := false, p0;
    if p0.waiting.Some? {
      stop := AskGate(backpressure, waker);
      if !stop {
        p := Passed(p0);
      }
    }
  }

  method AskGate(backpressure: Slots.BackPressure?, waker: Slots.Waker) returns (shut: bool)
    modifies backpressure
    ensures shut <==> backpressure != null && old(backpressure.available) <= 0
    ensures shut ==> backpressure.available <= 0 && Queued(backpressure.wakers, waker)
  {
    shut := false;
    if backpressure != null {
      var ready := backpressure.Poll(waker);
      shut := !ready;
    }
  }

  /** Polls the stream and deals with its answer. */
  method Advance(incoming: Decoder, p0: Progress, ghost before: seq<Poll>, ghost t0: Transcript)
    returns (stop: bool, p: Progress, ghost t: Transcript)
    requires Ready(incoming, p0, t0) && p0.stage == Listening && p0.waiting == None && before <= p0.answers
    modifies incoming.Repr()
    ensures Ready(incoming, p, t) && incoming.Renewed()
    ensures before <= p.answers && incoming.source.polls >= old(incoming.source.polls)
    ensures !stop ==> p.stage == Listening && p0.last.Item?
    ensures !stop && p.last.Item? ==> |incoming.source.pending| < |old(incoming.source.pending)|
    ensures stop && p.stage == Listening ==>
              && p.waiting == None && incoming.source.last.Pending? && p.last.Item?
              && incoming.source.polls > old(incoming.source.polls)
  {
    var r;
    r, t := NextAnswer(incoming, p0.last, t0);
    p := p0;
    if r == Pending {
      stop := true;
    } else {
      p := Took(p0, r);
      stop := p.stage != Listening;
    }
  }

  // ---------------------------------------------------------------- the frames that reach the peer

  function FramesIn(ms: seq<Message>): seq<WF.Frame> {
    if ms == [] then []
    else
      var m := ms[|ms| - 1];
      FramesIn(ms[..|ms| - 1]) + if m.Incoming? && m.msg.Ok? then [m.msg.value] else []
  }

  function Views(fs: seq<seq<byte>>): seq<WF.Frame>
    requires HaveHeaders(fs)
  {
    if fs == [] then [] else Views(fs[..|fs| - 1]) + [WF.View(fs[|fs| - 1])]
  }

  predicate HaveHeaders(fs: seq<seq<byte>>) {
    forall i | 0 <= i < |fs| :: |fs[i]| >= WF.LEN_HEADER
  }

  lemma FramesAppend(ms: seq<Message>, m: Message)
    ensures FramesIn(ms + [m]) == FramesIn(ms) + if m.Incoming? && m.msg.Ok? then [m.msg.value] else []
  {
    assert (ms + [m])[..|ms|] == ms;
  }

  lemma ViewsAppend(fs: seq<seq<byte>>, f: seq<byte>)
    requires HaveHeaders(fs + [f])
    ensures HaveHeaders(fs) && |f| >= WF.LEN_HEADER && Views(fs + [f]) == Views(fs) + [WF.View(f)]
  {
    assert (fs + [f])[..|fs|] == fs && (fs + [f])[|fs|] == f;
    forall i | 0 <= i < |fs| ensures |fs[i]| >= WF.LEN_HEADER {
      assert (fs + [f])[i] == fs[i];
    }
  }

  lemma {:induction false} FramesOfAnswers(answers: seq<Poll>, max: nat)
    requires HaveHeaders(ItemsOf(answers))
    ensures FramesIn(MessagesOf(answers, max)) == Views(ItemsOf(answers))
  {
    if answers != [] {
      var n := |answers| - 1;
      var a, ms := answers[n], MessageOf(answers[n], max);
      if a.Item? {
        assert ItemsOf(answers) == ItemsOf(answers[..n]) + [a.frame];
        ViewsAppend(ItemsOf(answers[..n]), a.frame);
      } else {
        assert ItemsOf(answers) == ItemsOf(answers[..n]);
      }
      FramesOfAnswers(answers[..n], max);
      if ms != [] {
        assert ms == [ms[0]];
        FramesAppend(MessagesOf(answers[..n], max), ms[0]);
      } else {
        assert MessagesOf(answers, max) == MessagesOf(answers[..n], max);
      }
    }
  }

  /**
   * What the peer is sent, with the message at the gate: the views of exactly the frames the splitter finds
   * in the bytes read from the stream, in order.
   */
  lemma ReaderDelivers(incoming: Decoder, p: Progress, t: Transcript)
    requires Ready(incoming, p, t)
    ensures t.taken <= |t.stream|
    ensures var frames := Split(t.stream[..t.taken], incoming.maxSize).frames;
            HaveHeaders(frames) && FramesIn(p.sent + AtGate(p)) == Views(frames)
    ensures forall n :: OversizeIn(p.answers) == Some(n) ==>
              Split(t.stream[..t.taken], incoming.maxSize).stop == Oversize(n)
  {
    var frames := Split(t.stream[..t.taken], incoming.maxSize).frames;
    SplitFramesLegal(t.stream[..t.taken], incoming.maxSize);
    forall i | 0 <= i < |frames| ensures |frames[i]| >= WF.LEN_HEADER {
      LegalIsCoherent(frames[i], incoming.maxSize);
    }
    FramesOfAnswers(p.answers, incoming.maxSize);
  }

  // ---------------------------------------------------------------- what follows a fault

  /** The reader is not polled any more. */
  predicate Stopped(answers: seq<Poll>) {
    IsLast(LastOf(answers))
  }

  /** In order a fault is followed by exactly one answer: the end of the stream, or a panic. */
  lemma AfterFault(answers: seq<Poll>, i: nat)
    requires InOrder(answers) && Stopped(answers) && i < |answers| && IsFault(answers[i])
    ensures answers[i..] == [answers[i], if answers[i] == IoError then End else TransportGone]
  {
    FaultNearEnd(answers, i);
    NextInOrder(answers, i);
  }

  /** The peer handles `ms` in order, whatever its surroundings answer. */
  function Feed(s: PeerState, ms: seq<Message>, envs: nat -> Env): PeerState {
    if ms == [] then s else Handle(Feed(s, ms[..|ms| - 1], envs), ms[|ms| - 1], envs(|ms| - 1))
  }

  lemma TwoMessages(s: PeerState, a: Message, b: Message, envs: nat -> Env)
    ensures Feed(s, [a, b], envs) == Handle(Handle(s, a, envs(0)), b, envs(1))
    ensures Feed(s, [a], envs) == Handle(s, a, envs(0))
  {
    assert [a, b][..1] == [a];
    assert Feed(s, [a][..0], envs) == s;
  }

  /** What the reader sent since the stream yielded answer number `i`. */
  function SentFrom(p: Progress, i: nat): seq<Message>
    requires i < |p.answers|
  {
    var before := |MessagesOf(p.answers[..i], p.max)|;
    if before <= |p.sent| then p.sent[before..] else []
  }

  lemma MessagesSnoc(a: seq<Poll>, x: Poll, max: nat)
    ensures MessagesOf(a + [x], max) == MessagesOf(a, max) + MessageOf(x, max)
  {
    assert (a + [x])[..|a|] == a;
  }

  lemma Rebracketed(a: seq<Message>, b: seq<Message>, c: seq<Message>)
    ensures (a + b) + c == a + (b + c)
  {
  }

  lemma {:induction false} MessagesAppend(a: seq<Poll>, b: seq<Poll>, max: nat)
    ensures MessagesOf(a + b, max) == MessagesOf(a, max) + MessagesOf(b, max)
    decreases |b|
  {
    if b == [] {
      assert a + b == a;
    } else {
      var n := |b| - 1;
      var before, x := MessagesOf(b[..n], max), MessageOf(b[n], max);
      assert MessagesOf(a + b, max) == MessagesOf(a + b[..n], max) + x by {
        MessagesSnoc(a + b[..n], b[n], max);
        assert a + b == (a + b[..n]) + [b[n]];
      }
      MessagesAppend(a, b[..n], max);
      Rebracketed(MessagesOf(a, max), before, x);
      assert MessagesOf(b, max) == before + x;
    }
  }

  /** The reader rests where a poll of its task leaves it: at the gate, at the stream, or at its end. */
  predicate Rests(p: Progress) {
    p.stage == Listening && p.waiting == None ==> p.last.Item?
  }

  /** Since a fault the reader sent nothing while that waits at the gate, and else all that follows from it. */
  lemma SentSinceFault(p: Progress, i: nat)
    requires Rests(p) && i < |p.answers| && IsFault(p.answers[i])
    ensures p.waiting.Some? ==> i == |p.answers| - 1 && SentFrom(p, i) == []
    ensures p.waiting == None ==> Stopped(p.answers) && SentFrom(p, i) == MessagesOf(p.answers[i..], p.max)
  {
    FaultNearEnd(p.answers, i);
    var before, since := MessagesOf(p.answers[..i], p.max), MessagesOf(p.answers[i..], p.max);
    assert before + since == MessagesOf(p.answers, p.max) by {
      assert p.answers == p.answers[..i] + p.answers[i..];
      MessagesAppend(p.answers[..i], p.answers[i..], p.max);
    }
    if p.waiting == None {
      assert p.sent == before + since;
    } else {
      assert since == [] + MessageOf(p.answers[i], p.max) by {
        assert p.answers[i..] == [p.answers[i]];
      }
      assert p.sent == (p.sent + AtGate(p))[..|p.sent|] == before;
    }
  }

  /** In order a fault comes last, or is followed by the last answer. */
  lemma FaultNearEnd(answers: seq<Poll>, i: nat)
    requires InOrder(answers) && i < |answers| && IsFault(answers[i])
    ensures i == |answers| - 1 || (i == |answers| - 2 && IsLast(answers[i + 1]))
  {
    if i < |answers| - 1 {
      NextInOrder(answers, i);
      if i + 2 < |answers| {
        NextInOrder(answers, i + 1);
      }
    }
  }

  /**
   * Whether a fault of the stream ends the connection: if and only if it is a transport error and its
   * message has passed the gate. Then the stream ends, the reader says so, and the peer closes completely.
   * After an oversize error the reader panics; and while the message waits at the gate, nothing is sent.
   */
  lemma FaultCloses(s: PeerState, p: Progress, i: nat, envs: nat -> Env)
    requires Inv(s) && !s.closed
    requires Rests(p) && i < |p.answers| && IsFault(p.answers[i])
    ensures var s' := Feed(s, SentFrom(p, i), envs);
            && (s'.closed <==> p.answers[i] == IoError && p.waiting == None)
            && (p.waiting.Some? ==> s' == s)
            && (p.waiting == None ==> FaultTold(s, s', p.answers[i], p.max, envs(1)))
  {
    SentSinceFault(p, i);
    if p.waiting == None {
      FaultTakesEffect(s, p.answers, i, p.max, envs);
    }
  }

  /** What a fault that passed the gate does to the peer, and what observers learn of it. */
  ghost predicate FaultTold(s: PeerState, s': PeerState, a: Poll, max: nat, env: Env) {
    var none := Ctx(None, None);
    match a
    case MessageSizeExceeded(n) =>
      s' == s.(events := s.events
                         + [PeerEvent.Error(PeerErr.WireFormat(none, WF.WireErr.MessageSizeExceeded(n, max)))])
    case IoError =>
      && Shut(s') && s'.wire == s.wire
      && s'.events == s.events + [PeerEvent.Error(PeerErr.WireFormat(none, WF.Io))] + [ClosedByRemote]
                      + (match env.closeErr
                         case Some(e) => [PeerEvent.Error(PeerErr.WireFormat(none, e))]
                         case None => [])
    case _ => false
  }

  lemma FaultTakesEffect(s: PeerState, answers: seq<Poll>, i: nat, max: nat, envs: nat -> Env)
    requires Inv(s) && !s.closed
    requires InOrder(answers) && Stopped(answers) && i < |answers| && IsFault(answers[i])
    ensures var s' := Feed(s, MessagesOf(answers[i..], max), envs);
            (s'.closed <==> answers[i] == IoError) && FaultTold(s, s', answers[i], max, envs(1))
  {
    AfterFault(answers, i);
    var ms := MessagesOf(answers[i..], max);
    if answers[i] == IoError {
      FaultMessages(IoError, End, max);
      assert ms == [Incoming(Err(WF.Io)), CloseConnection(true)];
      ErrorThenEnd(s, envs);
    } else {
      var e := WF.WireErr.MessageSizeExceeded(answers[i].size, max);
      FaultMessages(answers[i], TransportGone, max);
      assert ms == [Incoming(Err(e))];
      ErrorAlone(s, e, envs);
    }
  }

  lemma FaultMessages(a: Poll, next: Poll, max: nat)
    requires IsFault(a)
    ensures MessagesOf([a, next], max) == [MessageOf(a, max)[0]] + MessageOf(next, max)
  {
    assert [a, next][..1] == [a];
    assert MessagesOf([a][..0], max) == [];
  }

  lemma ErrorAlone(s: PeerState, e: WF.WireErr, envs: nat -> Env)
    requires Inv(s) && !s.closed
    ensures Feed(s, [Incoming(Err(e))], envs) ==
            s.(events := s.events + [PeerEvent.Error(PeerErr.WireFormat(Ctx(None, None), e))])
  {
    TwoMessages(s, Incoming(Err(e)), CloseConnection(true), envs);
    StreamErrorIsAnEvent(s, e, envs(0));
  }

  lemma ErrorThenEnd(s: PeerState, envs: nat -> Env)
    requires Inv(s) && !s.closed
    ensures FaultTold(s, Feed(s, [Incoming(Err(WF.Io)), CloseConnection(true)], envs), IoError, 0, envs(1))
  {
    TwoMessages(s, Incoming(Err(WF.Io)), CloseConnection(true), envs);
    var s1 := Handle(s, Incoming(Err(WF.Io)), envs(0));
    StreamErrorIsAnEvent(s, WF.Io, envs(0));
    assert s1.wire == s.wire && s1.outgoing;
    CloseShutsNow(s1, true, envs(1));
    CloseEvents(s1, true, envs(1));
  }
}
