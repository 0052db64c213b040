/** The slot counter with its queue of wakers. A poll and a change of the counter are each one step. */
module BackPressureSlots {
  import opened Wrappers

  /** A task that can be woken. */
  type Waker = nat

  /** `woken` lists every wake-up so far. */
  datatype Slots = Slots(available: int, wakers: seq<Waker>, woken: seq<Waker>)

  function WakeFirst(s: Slots): Slots {
    if s.wakers == [] then s else s.(wakers := s.wakers[1..], woken := s.woken + [s.wakers[0]])
  }

  function AddSlots(s: Slots, num: nat): Slots {
    var s' := s.(available := s.available + num);
    if s.available <= 0 < s.available + num then WakeFirst(s') else s'
  }

  function RemoveSlots(s: Slots, num: nat): Slots {
    s.(available := s.available - num)
  }

  /** One poll of the waiting future; true means it is ready. */
  function PollWait(s: Slots, waker: Waker): (Slots, bool) {
    if s.available > 1 then (WakeFirst(s), true)
    else if s.available > 0 then (s, true)
    else (s.(wakers := s.wakers + [waker]), false)
  }

  class BackPressure {
    var available: int
    var wakers: seq<Waker>
    var woken: seq<Waker>

    ghost function State(): Slots
      reads this
    {
      Slots(available, wakers, woken)
    }

    constructor (slots: int)
      ensures State() == Slots(slots, [], [])
    {
      available := slots;
      wakers := [];
      woken := [];
    }

    method Add(num: nat)
      requires num > 0
      modifies this
      ensures State() == AddSlots(old(State()), num)
    {
      var old_ := available;
      available := available + num;
      if old_ <= 0 && old_ + num > 0 {
        Wake();
      }
    }

    method Remove(num: nat)
      requires num > 0
      modifies this
      ensures State() == RemoveSlots(old(State()), num)
    {
      available := available - num;
    }

    method Poll(waker: Waker) returns (ready: bool)
      modifies this
      ensures (State(), ready) == PollWait(old(State()), waker)
    {
      var old_ := available;
      if old_ > 0 {
        if old_ > 1 {
          Wake();
        }
        ready := true;
      } else {
        wakers := wakers + [waker];
        ready := false;
      }
    }

    method Wake()
      modifies this
      ensures State() == WakeFirst(old(State()))
    {
      if wakers != [] {
        woken := woken + [wakers[0]];
        wakers := wakers[1..];
      }
    }
  }

  // ---------------------------------------------------------------- waiting through the lock

  /**
   * Contexts that call `wait`. One holds the lock around the inner future from before its first poll until
   * it is ready; `runs` says that it is about to be polled, having just got the lock or having been woken
   * since its last poll. The others are queued on the lock.
   */
  datatype Turnstile = Turnstile(slots: Slots, holder: Option<Waker>, runs: bool, queued: set<Waker>)

  datatype Act =
    | Enter(w: Waker)      // a context calls `wait`
    | Lock(w: Waker)       // the lock is free and lets a context in, in any order
    | Poll                 // the holder is polled
    | Add(num: nat)
    | Remove(num: nat)
    | Cancel(w: Waker)     // a context drops its wait

  predicate CanAct(t: Turnstile, a: Act) {
    match a
    case Enter(w) => t.holder != Some(w) && w !in t.queued
    case Lock(w) => t.holder == None && w in t.queued
    case Poll => t.holder.Some?
    case Add(n) => n > 0
    case Remove(n) => n > 0
    case Cancel(w) => t.holder == Some(w) || w in t.queued
  }

  /** No wait is cancelled, and the holder is polled only when it was let in or woken. */
  predicate Orderly(t: Turnstile, a: Act) {
    !a.Cancel? && (a.Poll? ==> t.runs)
  }

  /** Whether a step woke `w`. */
  predicate Wakes(s: Slots, s': Slots, w: Waker) {
    |s'.woken| > |s.woken| && s'.woken[|s'.woken| - 1] == w
  }

  function Next(t: Turnstile, a: Act): Turnstile
    requires CanAct(t, a)
  {
    match a
    case Enter(w) => t.(queued := t.queued + {w})
    case Lock(w) => t.(holder := Some(w), runs := true, queued := t.queued - {w})
    case Poll =>
      var (s, ready) := PollWait(t.slots, t.holder.value);
      if ready then t.(slots := s, holder := None, runs := false)
      else t.(slots := s, runs := false)
    case Add(n) =>
      var s := AddSlots(t.slots, n);
      t.(slots := s, runs := t.runs || (t.holder.Some? && Wakes(t.slots, s, t.holder.value)))
    case Remove(n) => t.(slots := RemoveSlots(t.slots, n))
    case Cancel(w) =>
      if t.holder == Some(w) then t.(holder := None, runs := false) else t.(queued := t.queued - {w})
  }

  predicate Run(t: Turnstile, acts: seq<Act>)
    decreases |acts|
  {
    acts == [] || (CanAct(t, acts[0]) && Run(Next(t, acts[0]), acts[1..]))
  }

  predicate OrderlyRun(t: Turnstile, acts: seq<Act>)
    requires Run(t, acts)
    decreases |acts|
  {
    acts == [] || (Orderly(t, acts[0]) && OrderlyRun(Next(t, acts[0]), acts[1..]))
  }

  function After(t: Turnstile, acts: seq<Act>): Turnstile
    requires Run(t, acts)
    decreases |acts|
  {
    if acts == [] then t else After(Next(t, acts[0]), acts[1..])
  }

  function NewTurnstile(slots: int): Turnstile {
    Turnstile(Slots(slots, [], []), None, false, {})
  }

  /** The holder waits to be woken. */
  predicate Asleep(t: Turnstile) {
    t.holder.Some? && !t.runs
  }

  /** In orderly use only the holder's waker is ever queued, and just while it sleeps. */
  predicate Discipline(t: Turnstile) {
    && t.slots.wakers == (if Asleep(t) then [t.holder.value] else [])
    && (Asleep(t) ==> t.slots.available <= 0)
    && (t.runs ==> t.holder.Some?)
  }

  lemma {:induction false} RunKeepsDiscipline(t: Turnstile, acts: seq<Act>)
    requires Discipline(t) && Run(t, acts) && OrderlyRun(t, acts)
    ensures Discipline(After(t, acts))
    decreases |acts|
  {
    if acts == [] {
    } else {
      RunKeepsDiscipline(Next(t, acts[0]), acts[1..]);
    }
  }

  /**
   * Any number of contexts may wait: in orderly use never more than one waker is queued, and while a slot
   * is free nobody sleeps; the lock is free, or its holder is about to be polled and then is ready.
   */
  lemma WakeDiscipline(slots: int, acts: seq<Act>)
    requires Run(NewTurnstile(slots), acts) && OrderlyRun(NewTurnstile(slots), acts)
    ensures var t := After(NewTurnstile(slots), acts);
            && |t.slots.wakers| <= 1
            && (t.slots.available > 0 ==> !Asleep(t))
            && (t.slots.available > 0 && t.holder.Some? ==> t.runs && PollWait(t.slots, t.holder.value).1)
  {
    RunKeepsDiscipline(NewTurnstile(slots), acts);
  }

  // ---------------------------------------------------------------- cancelled waits

  lemma {:induction false} SleeperIsQueued(t: Turnstile, acts: seq<Act>)
    requires Run(t, acts) && (Asleep(t) ==> t.holder.value in t.slots.wakers) && (t.runs ==> t.holder.Some?)
    ensures var t' := After(t, acts);
            (Asleep(t') ==> t'.holder.value in t'.slots.wakers) && (t'.runs ==> t'.holder.Some?)
    decreases |acts|
  {
    if acts == [] {
    } else {
      SleeperIsQueued(Next(t, acts[0]), acts[1..]);
    }
  }

  /**
   * In any use, cancelled waits and needless polls included: slots that become free leave the holder
   * asleep beside them if and only if a waker that is not its own is first in the queue.
   */
  lemma StallCondition(slots: int, acts: seq<Act>, num: nat)
    requires num > 0 && Run(NewTurnstile(slots), acts)
    requires var t := After(NewTurnstile(slots), acts);
             Asleep(t) && t.slots.available <= 0 < t.slots.available + num
    ensures var t := After(NewTurnstile(slots), acts);
            && t.slots.wakers != []
            && (Asleep(Next(t, Add(num))) <==> t.slots.wakers[0] != t.holder.value)
  {
    SleeperIsQueued(NewTurnstile(slots), acts);
  }

  /**
   * Adding slots wakes the first in the queue if and only if that makes the count positive, and nobody else;
   * so a waker stays queued beside a free slot just when at least two were queued, or one was to begin with.
   */
  lemma AddWakes(s: Slots, num: nat)
    requires num > 0
    ensures var s' := AddSlots(s, num);
            && s'.available == s.available + num
            && (if s.available <= 0 < s.available + num && s.wakers != []
                then s'.woken == s.woken + [s.wakers[0]] && s'.wakers == s.wakers[1..]
                else s'.woken == s.woken && s'.wakers == s.wakers)
            && (s.available <= 0 ==>
                  (s'.available > 0 && s'.wakers != [] <==> s.available + num > 0 && |s.wakers| >= 2))
  {
  }

  /** Several polls in a row. */
  function Polls(s: Slots, ws: seq<Waker>): Slots {
    if ws == [] then s else PollWait(Polls(s, ws[..|ws| - 1]), ws[|ws| - 1]).0
  }

  /** While more than one slot is free, every poll is ready and wakes the next in the queue. */
  lemma {:induction false} PollsWake(s: Slots, ws: seq<Waker>)
    requires s.available > 1 && |ws| <= |s.wakers|
    ensures var s' := Polls(s, ws);
            && s'.available == s.available
            && s'.woken == s.woken + s.wakers[..|ws|] && s'.wakers == s.wakers[|ws|..]
            && forall w :: PollWait(s', w).1
  {
    if ws != [] {
      var n := |ws| - 1;
      PollsWake(s, ws[..n]);
      assert s.wakers[..n] + [s.wakers[n]] == s.wakers[..n + 1];
    }
  }

  /**
   * So when more than one slot becomes free, all that sleep are woken, one by the slots and each of the
   * others by a poll of one woken before; and when just one is free, a poll wakes nobody.
   */
  lemma AllAreWoken(s: Slots, num: nat, polls: seq<Waker>)
    requires s.available <= 0 && s.available + num > 1 && |polls| + 1 == |s.wakers|
    ensures var s' := Polls(AddSlots(s, num), polls);
            s'.woken == s.woken + s.wakers && s'.wakers == []
    ensures forall one: Slots, w | one.available == 1 :: PollWait(one, w) == (one, true)
    ensures forall full: Slots, w | full.available <= 0 ::
              PollWait(full, w) == (full.(wakers := full.wakers + [w]), false)
  {
    PollsWake(AddSlots(s, num), polls);
    assert [s.wakers[0]] + s.wakers[1..] == s.wakers;
  }

  /** The holder drops its wait, and another context gets the lock, having called `wait` before or only now. */
  function Replaced(t: Turnstile, w: Waker): Turnstile
    requires t.holder.Some?
  {
    var t1 := Next(t, Cancel(t.holder.value));
    var t2 := if w in t1.queued then t1 else Next(t1, Enter(w));
    Next(t2, Lock(w))
  }

  /**
   * A cancelled wait makes the next one miss its slots: when, after any use, the holder sleeps with no slot
   * free, drops its wait, and another context waits instead, then slots that become free leave that one
   * asleep if and only if a waker that is not its own is first in the queue. After orderly use that is so
   * for every other context, as just the waker left behind is queued.
   */
  lemma CancelledWaitStalls(slots: int, acts: seq<Act>, w: Waker, num: nat)
    requires Run(NewTurnstile(slots), acts) && Asleep(After(NewTurnstile(slots), acts))
    requires After(NewTurnstile(slots), acts).slots.available <= 0
    requires After(NewTurnstile(slots), acts).slots.available + num > 0
    ensures var t := After(NewTurnstile(slots), acts);
            var t' := Next(Replaced(t, w), Poll);
            var freed := Next(t', Add(num));
            && t'.holder == Some(w) && Asleep(t')
            && freed.slots.available > 0 && freed.holder == Some(w)
            && t.slots.wakers != []
            && (Asleep(freed) <==> t.slots.wakers[0] != w)
            && (OrderlyRun(NewTurnstile(slots), acts) ==> (Asleep(freed) <==> w != t.holder.value))
  {
    var t := After(NewTurnstile(slots), acts);
    SleeperIsQueued(NewTurnstile(slots), acts);
    if OrderlyRun(NewTurnstile(slots), acts) {
      RunKeepsDiscipline(NewTurnstile(slots), acts);
    }
    var t' := Next(Replaced(t, w), Poll);
    assert t'.slots.wakers == t.slots.wakers + [w];
  }

  /** A context that is cancelled while it is queued on the lock leaves nothing behind. */
  lemma CancelledInQueue(t: Turnstile, w: Waker)
    requires w in t.queued && t.holder != Some(w)
    ensures var t' := Next(t, Cancel(w));
            t'.slots == t.slots && t'.holder == t.holder && t'.runs == t.runs
  {
  }
}
