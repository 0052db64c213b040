/** A peer, the gate before it and the reader that hands it what comes off the wire, in any interleaving. */
module GatedConnection {
  import opened Wrappers
  import opened PeerTypes
  import opened PeerNode
  import opened PeerReader
  import opened SlotAccounts
  import Framing

  datatype Connection = Connection(node: Node, reader: Progress)

  datatype Step =
    | Happens(h: Happening)          // at the peer, on its own or by others than the reader
    | Yields(a: Framing.Poll)        // the stream, to the reader
    | Passes                         // the gate lets the message before it through

  /** Incoming messages, and the close at the end of the stream, come from the reader. */
  predicate FromReader(m: Message) {
    m.Incoming? || m == CloseConnection(true)
  }

  predicate CanStep(c: Connection, s: Step) {
    match s
    case Happens(h) => CanHappen(c.node, h) && !(h.Arrives? && FromReader(h.m))
    case Yields(a) => c.reader.stage == Listening && c.reader.waiting == None && MayFollow(c.reader.last, a)
    case Passes => c.reader.waiting.Some? && (c.node.peer.gated ==> c.node.peer.slots > 0)
  }

  function Stepped(c: Connection, s: Step): Connection
    requires CanStep(c, s)
  {
    match s
    case Happens(h) => c.(node := Happen(c.node, h))
    case Yields(a) => Mailed(c, Took(c.reader, a))
    case Passes => Mailed(c, Passed(c.reader))
  }

  /** What the reader sent since is in the mailbox. */
  function Mailed(c: Connection, reader: Progress): Connection {
    var more := if |c.reader.sent| <= |reader.sent| then reader.sent[|c.reader.sent|..] else [];
    Connection(c.node.(mailbox := c.node.mailbox + more), reader)
  }

  predicate Steps(c: Connection, steps: seq<Step>)
    decreases |steps|
  {
    steps == [] || (CanStep(c, steps[0]) && Steps(Stepped(c, steps[0]), steps[1..]))
  }

  function AfterSteps(c: Connection, steps: seq<Step>): Connection
    requires Steps(c, steps)
    decreases |steps|
  {
    if steps == [] then c else AfterSteps(Stepped(c, steps[0]), steps[1..])
  }

  /** No slot is free, and none can become free by what is pending. */
  predicate Exhausted(n: Node) {
    n.peer.gated && n.peer.slots + Pending(n) <= 0
  }

  lemma {:induction false} HeldBack(c: Connection, steps: seq<Step>)
    requires Exhausted(c.node) && c.reader.waiting.Some? && Steps(c, steps)
    ensures var c' := AfterSteps(c, steps);
            Exhausted(c'.node) && c'.reader == c.reader
    decreases |steps|
  {
    if steps == [] {
    } else {
      StepMoves(c.node, steps[0].h);
      HeldBack(Stepped(c, steps[0]), steps[1..]);
    }
  }

  /**
   * The gate can hold back the end of a connection for ever: when as many calls as there are slots have
   * ended without an answer, a fault whose message waits at the gate never gets to the peer, nor does the
   * end of the stream behind it, whatever else happens; so neither of them closes the peer.
   */
  lemma FaultHeldForEver(n0: Node, slots: int, hs: seq<Happening>, c: Connection, steps: seq<Step>, i: nat)
    requires Starts(n0, slots) && History(n0, hs) && Unanswered(n0, hs) >= slots && c.node == Final(n0, hs)
    requires c.reader.waiting.Some?
    requires i < |c.reader.answers| && IsFault(c.reader.answers[i])
    requires Steps(c, steps)
    ensures var c' := AfterSteps(c, steps);
            c'.reader == c.reader && SentFrom(c'.reader, i) == [] && c'.node.peer.slots <= 0
  {
    RunMoves(n0, hs);
    HeldBack(c, steps);
    SentSinceFault(c.reader, i);
  }
}
