/** The byte channel: a simple splitter, what one poll of a decoder may do, and whole runs. */
module Framing {
  import opened LittleEndian
  import WF = WireFormat

  // ---------------------------------------------------------------- the simple splitter

  datatype Scan =
    | Incomplete
    | Whole(frame: seq<byte>, rest: seq<byte>)
    | Oversize(len: nat)
    | Undersize

  /** What stands at the front of `s`. */
  function NextFrame(s: seq<byte>, max: nat): Scan {
    if |s| < 8 then Incomplete
    else
      var len := ToU64(s[..8]);
      if len > max then Oversize(len)
      else if len < WF.LEN_HEADER then Undersize
      else if |s| < len then Incomplete
      else Whole(s[..len], s[len..])
  }

  /** `frames` in order, then `rest`, at whose front no whole frame stands; `stop` says why. */
  datatype Parsed = Parsed(frames: seq<seq<byte>>, rest: seq<byte>, stop: Scan)

  function Split(s: seq<byte>, max: nat): (p: Parsed)
    ensures |p.rest| <= |s|
    decreases |s|
  {
    match NextFrame(s, max)
    case Whole(f, rest) =>
      Prepend([f], Split(rest, max))
    case stop => Parsed([], s, stop)
  }

  predicate Legal(f: seq<byte>, max: nat) {
    NextFrame(f, max) == Whole(f, [])
  }

  predicate AllLegal(fs: seq<seq<byte>>, max: nat) {
    forall i | 0 <= i < |fs| :: Legal(fs[i], max)
  }

  function Prepend(fs: seq<seq<byte>>, p: Parsed): Parsed {
    p.(frames := fs + p.frames)
  }

  function Flatten(fs: seq<seq<byte>>): seq<byte> {
    if fs == [] then [] else fs[0] + Flatten(fs[1..])
  }

  /** Legal frames are the coherent messages no longer than the limit. */
  lemma LegalIsCoherent(f: seq<byte>, max: nat)
    ensures Legal(f, max) <==> WF.Coherent(f) && |f| <= max
  {
    if |f| >= 8 {
      var len := ToU64(f[..8]);
      if WF.LEN_HEADER <= len <= max && len <= |f| {
        assert |f[len..]| == |f| - len;
        if len == |f| {
          assert f[..len] == f && f[len..] == [];
        }
      }
    }
  }

  lemma NextFrameExtends(s: seq<byte>, t: seq<byte>, max: nat)
    requires !NextFrame(s, max).Incomplete?
    ensures NextFrame(s + t, max) ==
            match NextFrame(s, max)
            case Whole(f, rest) => Whole(f, rest + t)
            case stop => stop
  {
    assert (s + t)[..8] == s[..8];
    var len := ToU64(s[..8]);
    if WF.LEN_HEADER <= len <= max {
      assert (s + t)[..len] == s[..len];
      assert (s + t)[len..] == s[len..] + t;
    }
  }

  /** Later bytes never change a frame that was already split off. */
  lemma {:induction false} SplitExtends(s: seq<byte>, t: seq<byte>, max: nat)
    ensures var p := Split(s, max);
            Split(s + t, max) ==
            if p.stop.Incomplete? then Prepend(p.frames, Split(p.rest + t, max))
            else p.(rest := p.rest + t)
    decreases |s|
  {
    if NextFrame(s, max).Incomplete? {
      PrependNothing(Split(s + t, max));
    } else {
      NextFrameExtends(s, t, max);
      if NextFrame(s, max).Whole? {
        var f, rest := NextFrame(s, max).frame, NextFrame(s, max).rest;
        SplitExtends(rest, t, max);
        var p := Split(rest, max);
        PrependTwice([f], p.frames, Split(p.rest + t, max));
      }
    }
  }

  lemma PrependNothing(p: Parsed)
    ensures Prepend([], p) == p
  {
    assert [] + p.frames == p.frames;
  }

  lemma PrependTwice(fs: seq<seq<byte>>, gs: seq<seq<byte>>, p: Parsed)
    ensures Prepend(fs, Prepend(gs, p)) == Prepend(fs + gs, p)
  {
    assert fs + (gs + p.frames) == fs + gs + p.frames;
  }

  lemma SplitLegal(f: seq<byte>, t: seq<byte>, max: nat)
    requires Legal(f, max)
    ensures Split(f + t, max) == Prepend([f], Split(t, max))
  {
    NextFrameExtends(f, t, max);
    assert [] + t == t;
  }

  /** The splitter undoes concatenation. */
  lemma {:induction false} SplitFlatten(fs: seq<seq<byte>>, t: seq<byte>, max: nat)
    requires AllLegal(fs, max)
    ensures Split(Flatten(fs) + t, max) == Prepend(fs, Split(t, max))
    decreases |fs|
  {
    var p := Split(t, max);
    if fs == [] {
      assert Flatten(fs) + t == t;
      PrependNothing(p);
    } else {
      var tail := Flatten(fs[1..]) + t;
      calc {
        Split(Flatten(fs) + t, max);
        { assert Flatten(fs) + t == fs[0] + tail; }
        Split(fs[0] + tail, max);
        { SplitLegal(fs[0], tail, max); }
        Prepend([fs[0]], Split(tail, max));
        { SplitFlatten(fs[1..], t, max); }
        Prepend([fs[0]], Prepend(fs[1..], p));
        { PrependTwice([fs[0]], fs[1..], p); assert [fs[0]] + fs[1..] == fs; }
        Prepend(fs, p);
      }
    }
  }

  lemma {:induction false} FlattenAppend(fs: seq<seq<byte>>, f: seq<byte>)
    ensures Flatten(fs + [f]) == Flatten(fs) + f
    decreases |fs|
  {
    if fs == [] {
      assert Flatten([f]) == f + Flatten([]);
    } else {
      FlattenAppend(fs[1..], f);
      assert (fs + [f])[1..] == fs[1..] + [f];
    }
  }

  lemma FlattenCons(f: seq<byte>, fs: seq<seq<byte>>)
    ensures Flatten([f] + fs) == f + Flatten(fs)
  {
    assert ([f] + fs)[1..] == fs;
  }

  lemma {:induction false} SplitKeepsBytes(s: seq<byte>, max: nat)
    ensures Flatten(Split(s, max).frames) + Split(s, max).rest == s
    decreases |s|
  {
    if NextFrame(s, max).Whole? {
      var f, rest := NextFrame(s, max).frame, NextFrame(s, max).rest;
      var p := Split(rest, max);
      SplitKeepsBytes(rest, max);
      FlattenCons(f, p.frames);
      Rebracket(f, Flatten(p.frames), p.rest, []);
      assert f + rest == s;
    } else {
      assert Flatten([]) + s == s;
    }
  }

  lemma {:induction false} SplitStops(s: seq<byte>, max: nat)
    ensures var p := Split(s, max); !p.stop.Whole? && p.stop == NextFrame(p.rest, max)
    decreases |s|
  {
    if NextFrame(s, max).Whole? {
      SplitStops(NextFrame(s, max).rest, max);
    }
  }

  // ---------------------------------------------------------------- one poll

  /** The answers of a decoder's `poll_next`. */
  datatype Poll =
    | Pending
    | Item(frame: seq<byte>)
    | MessageSizeExceeded(size: nat)
    | IoError             // the transport failed; the decoder reports it and closes
    | End                 // `None`
    | HeaderPanic         // the assertion on a length field smaller than the header
    | BodyPanic           // `unreachable!` of the heapless decoder on a failing body read
    | Spins               // none at all: empty reads keep the loop of the heapless decoder going for ever
    | TransportGone       // `unwrap` on the transport that an oversize error lost

  /** Reading `src` down to `src'` made `all` out of the bytes held before. */
  predicate ReadTo(held: seq<byte>, src: seq<byte>, all: seq<byte>, src': seq<byte>) {
    |src'| <= |src| && src' == src[|src| - |src'|..] && all == held + src[..|src| - |src'|]
  }

  /**
   * One poll of an open decoder that holds `held` bytes of an unfinished frame while `src` is
   * still to be delivered; transport failures are not among these.
   */
  predicate DecodeStep(max: nat, held: seq<byte>, src: seq<byte>, r: Poll, held': seq<byte>, src': seq<byte>) {
    && |src'| <= |src|
    && var all := held + src[..|src| - |src'|];
       ReadTo(held, src, all, src') &&
       match r
       case Pending => held' == all && NextFrame(all, max) == Incomplete
       case Item(f) => f == all && Legal(f, max) && held' == []
       case MessageSizeExceeded(n) => |all| == 8 && NextFrame(all, max) == Oversize(n) && held' == []
       case End => NextFrame(all, max) == Incomplete
       case Spins => src' == [] && NextFrame(all, max) == Incomplete
       case HeaderPanic => |all| == 8 && ToU64(all[..8]) < WF.LEN_HEADER
       case _ => false
  }

  /** Only a poll that reads something can yield a frame. */
  lemma ItemTakesBytes(max: nat, held: seq<byte>, src: seq<byte>, r: Poll, held': seq<byte>, src': seq<byte>)
    requires DecodeStep(max, held, src, r, held', src') && NextFrame(held, max).Incomplete?
    ensures r.Item? ==> |src'| < |src|
  {
    if |src'| == |src| {
      assert held + src[..0] == held;
    }
  }

  /** Bytes read on from the middle of a poll. */
  lemma ReadOn(held0: seq<byte>, src0: seq<byte>, src: seq<byte>, n: nat)
    requires |src| <= |src0| && src == src0[|src0| - |src|..] && n <= |src|
    ensures src[n..] == src0[|src0| - |src[n..]|..]
    ensures held0 + src0[..|src0| - |src|] + src[..n] == held0 + src0[..|src0| - |src[n..]|]
  {
  }

  /** The encoder moved a front part of `unsent` onto the wire. */
  predicate FlushStep(unsent: seq<byte>, wire: seq<byte>, unsent': seq<byte>, wire': seq<byte>) {
    && |wire| <= |wire'| && wire'[..|wire|] == wire
    && unsent == wire'[|wire|..] + unsent'
  }

  // ---------------------------------------------------------------- runs of one decoder

  /** `taken` are the bytes read so far, `fault` the answer that ended the stream. */
  datatype Decoding = Decoding(held: seq<byte>, taken: seq<byte>, got: seq<seq<byte>>, last: Poll)

  const FreshDecoding := Decoding([], [], [], Pending)

  predicate Polled(max: nat, d: Decoding, src: seq<byte>, d': Decoding, src': seq<byte>) {
    && (d.last.Pending? || d.last.Item?)
    && DecodeStep(max, d.held, src, d'.last, d'.held, src')
    && d'.taken == d.taken + src[..|src| - |src'|]
    && d'.got == d.got + if d'.last.Item? then [d'.last.frame] else []
  }

  /** What a decoder that polled its way to `d` has seen is what the splitter sees. */
  predicate Agrees(max: nat, d: Decoding) {
    var p := Split(d.taken, max);
    && p.frames == d.got
    && match d.last
       case Pending => p.stop == Incomplete && p.rest == d.held
       case Item(_) => p.stop == Incomplete && p.rest == d.held == []
       case End => p.stop == Incomplete
       case Spins => p.stop == Incomplete
       case MessageSizeExceeded(n) => p.stop == Oversize(n) && |p.rest| == 8
       case HeaderPanic => |p.rest| == 8 && ToU64(p.rest[..8]) < WF.LEN_HEADER
       case _ => false
  }

  lemma PollKeepsAgreement(max: nat, d: Decoding, src: seq<byte>, d': Decoding, src': seq<byte>)
    requires Agrees(max, d) && Polled(max, d, src, d', src')
    ensures Agrees(max, d')
  {
    var read := src[..|src| - |src'|];
    var all := d.held + read;
    SplitExtends(d.taken, read, max);
    if d'.last.Item? {
      assert Split([], max) == Parsed([], [], Incomplete);
      assert Split(all, max).frames == [all] + [];
    }
  }

  /** Of `stream` the first `taken` bytes were read, which are `frames` and then `held`; `src` is still to come. */
  predicate Follows(max: nat, stream: seq<byte>, taken: nat, frames: seq<seq<byte>>, held: seq<byte>, src: seq<byte>) {
    taken <= |stream| && src == stream[taken..] && Split(stream[..taken], max) == Parsed(frames, held, Incomplete)
  }

  /** The first `taken` bytes of `stream` are `frames`, and then no whole frame. */
  predicate Yielded(max: nat, stream: seq<byte>, taken: nat, frames: seq<seq<byte>>) {
    taken <= |stream| && Split(stream[..taken], max).frames == frames
  }

  /** One more poll of a decoder that follows a stream. */
  lemma PollFollows(max: nat, stream: seq<byte>, taken: nat, frames: seq<seq<byte>>, held: seq<byte>, src: seq<byte>,
                    r: Poll, held': seq<byte>, src': seq<byte>)
    requires Follows(max, stream, taken, frames, held, src) && DecodeStep(max, held, src, r, held', src')
    ensures var taken' := |stream| - |src'|;
            var frames' := if r.Item? then frames + [r.frame] else frames;
            && taken' >= taken && Yielded(max, stream, taken', frames')
            && (r.Pending? || r.Item? ==> Follows(max, stream, taken', frames', held', src'))
            && (r.MessageSizeExceeded? ==> Split(stream[..taken'], max).stop == Oversize(r.size))
  {
    var taken' := |stream| - |src'|;
    var frames' := if r.Item? then frames + [r.frame] else frames;
    var d := Decoding(held, stream[..taken], frames, Pending);
    var d' := Decoding(held', stream[..taken'], frames', r);
    assert stream[..taken'] == stream[..taken] + src[..|src| - |src'|];
    assert frames + [] == frames;
    PollKeepsAgreement(max, d, src, d', src');
  }

  lemma {:induction false} SplitFramesLegal(s: seq<byte>, max: nat)
    ensures AllLegal(Split(s, max).frames, max)
    decreases |s|
  {
    if NextFrame(s, max).Whole? {
      var f := NextFrame(s, max).frame;
      SplitFramesLegal(NextFrame(s, max).rest, max);
      assert f[..8] == s[..8];
      LegalIsCoherent(f, max);
    }
  }

  /**
   * Chunking independence: any run of polls, from any transport that delivers what it likes when
   * it likes, yields the frames the splitter finds in the bytes read, and stops as it stops.
   */
  lemma {:induction false} RunIsSplit(max: nat, run: seq<Decoding>, srcs: seq<seq<byte>>, srcs': seq<seq<byte>>)
    requires |run| == |srcs| + 1 == |srcs'| + 1 && run[0] == FreshDecoding
    requires forall i | 0 <= i < |srcs| :: Polled(max, run[i], srcs[i], run[i + 1], srcs'[i])
    ensures Agrees(max, run[|srcs|])
    decreases |run|
  {
    if |srcs| == 0 {
    } else {
      var n := |srcs| - 1;
      RunIsSplit(max, run[..n + 1], srcs[..n], srcs'[..n]);
      PollKeepsAgreement(max, run[n], srcs[n], run[n + 1], srcs'[n]);
    }
  }

  /** Hence two decoders that took the same bytes have yielded the same frames, however they got them. */
  lemma DecodersAgree(max: nat, d: Decoding, e: Decoding)
    requires Agrees(max, d) && Agrees(max, e) && d.taken <= e.taken
    ensures d.got <= e.got
    ensures d.taken == e.taken ==> d.got == e.got
  {
    var t := e.taken[|d.taken|..];
    assert e.taken == d.taken + t;
    SplitExtends(d.taken, t, max);
  }

  /** On `fs` followed by the beginning of a frame, everything taken means exactly `fs` delivered. */
  lemma DeliversExactlyTheFrames(max: nat, d: Decoding, fs: seq<seq<byte>>, tail: seq<byte>)
    requires Agrees(max, d) && d.taken == Flatten(fs) + tail
    requires AllLegal(fs, max)
    requires NextFrame(tail, max) == Incomplete
    ensures d.got == fs
    ensures d.last in {Pending, End, Spins} || (d.last.Item? && tail == [])
  {
    SplitFlatten(fs, tail, max);
    assert fs + [] == fs;
  }

  /** Reading less than the length field of the oversize frame leaves the splitter waiting. */
  lemma BeforeOversize(max: nat, fs: seq<seq<byte>>, bad: seq<byte>, taken: seq<byte>)
    requires AllLegal(fs, max) && NextFrame(bad, max).Oversize?
    requires taken <= Flatten(fs) + bad && |taken| < |Flatten(fs)| + 8
    ensures Split(taken, max).stop == Incomplete && Split(taken, max).frames <= fs
  {
    var t := (Flatten(fs) + bad)[|taken|..];
    assert Flatten(fs) + bad == taken + t;
    SplitFlatten(fs, bad, max);
    assert fs + [] == fs;
    SplitExtends(taken, t, max);
    SplitStops(taken, max);
    SplitKeepsBytes(taken, max);
  }

  lemma AtOversize(max: nat, fs: seq<seq<byte>>, bad: seq<byte>, taken: seq<byte>)
    requires AllLegal(fs, max) && NextFrame(bad, max).Oversize?
    requires taken <= Flatten(fs) + bad && |taken| >= |Flatten(fs)| + 8
    ensures Split(taken, max) == Parsed(fs, taken[|Flatten(fs)|..], NextFrame(bad, max))
    ensures taken[|Flatten(fs)|..][..8] == bad[..8]
  {
    var part := taken[|Flatten(fs)|..];
    assert taken == Flatten(fs) + part;
    assert part[..8] == bad[..8];
    SplitFlatten(fs, part, max);
    assert fs + [] == fs;
  }

  /**
   * Oversize stop: when an oversize frame follows `fs`, the run stops with that error exactly when
   * it has delivered `fs` and has read just the eight bytes of the offending length field.
   */
  lemma OversizeStop(max: nat, d: Decoding, fs: seq<seq<byte>>, bad: seq<byte>, n: nat)
    requires Agrees(max, d) && d.taken <= Flatten(fs) + bad
    requires AllLegal(fs, max)
    requires NextFrame(bad, max) == Oversize(n) && n >= WF.LEN_HEADER
    ensures d.got <= fs
    ensures d.last == MessageSizeExceeded(n) <==> d.taken == Flatten(fs) + bad[..8]
    ensures d.last == MessageSizeExceeded(n) ==> d.got == fs
    ensures d.last != MessageSizeExceeded(n) ==> d.last in {Pending, End, Spins} || d.last.Item?
    ensures |d.taken| <= |Flatten(fs)| + 8
  {
    SplitStops(d.taken, max);
    if |d.taken| < |Flatten(fs)| + 8 {
      BeforeOversize(max, fs, bad, d.taken);
    } else {
      AtOversize(max, fs, bad, d.taken);
      assert d.taken == Flatten(fs) + d.taken[|Flatten(fs)|..];
    }
  }

  /**
   * After an oversize error the heapless decoder holds nothing and stays open, so it starts afresh on
   * what follows the length field: what it yields from there on is what the splitter finds there.
   */
  lemma AfterOversize(max: nat, d: Decoding, fs: seq<seq<byte>>, bad: seq<byte>, n: nat, rest: seq<byte>, e: Decoding)
    requires AllLegal(fs, max) && |bad| >= 8 && NextFrame(bad, max) == Oversize(n) && n >= WF.LEN_HEADER
    requires Agrees(max, d) && d.taken == Flatten(fs) + bad[..8] && d.last == MessageSizeExceeded(n)
    requires Agrees(max, e) && e.taken <= bad[8..] + rest
    ensures d.got + e.got <= fs + Split(bad[8..] + rest, max).frames
    ensures e.taken == bad[8..] + rest ==> d.got + e.got == fs + Split(bad[8..] + rest, max).frames
  {
    assert d.taken <= Flatten(fs) + bad by {
      assert Flatten(fs) + bad == d.taken + bad[8..];
    }
    OversizeStop(max, d, fs, bad, n);
    var more := (bad[8..] + rest)[|e.taken|..];
    assert bad[8..] + rest == e.taken + more;
    SplitExtends(e.taken, more, max);
  }

  /** So frames inside the body of a rejected message are delivered as if they had been sent. */
  lemma RejectedBodyIsParsed(max: nat, bad: seq<byte>, gs: seq<seq<byte>>, e: Decoding)
    requires |bad| >= 8 && NextFrame(bad, max).Oversize? && bad[8..] == Flatten(gs) && AllLegal(gs, max)
    requires Agrees(max, e) && e.taken == bad[8..]
    ensures e.got == gs
  {
    SplitFlatten(gs, [], max);
    assert Flatten(gs) + [] == Flatten(gs);
    assert gs + [] == gs;
  }

  // ---------------------------------------------------------------- whole channels

  /** An encoder, the bytes between, a decoder; `sent` are the messages handed to `start_send`. */
  datatype Channel = Channel(sent: seq<seq<byte>>, unsent: seq<byte>, transit: seq<byte>, dec: Decoding)

  const FreshChannel := Channel([], [], [], FreshDecoding)

  /** One `start_send`, one flush that may stop anywhere, or one poll that may read anything. */
  predicate ChannelStep(max: nat, c: Channel, c': Channel) {
    || (&& c.unsent == [] && Legal(c'.unsent, max)
        && c' == c.(sent := c.sent + [c'.unsent], unsent := c'.unsent))
    || (&& FlushStep(c.unsent, c.transit, c'.unsent, c'.transit)
        && c' == c.(unsent := c'.unsent, transit := c'.transit))
    || (&& Polled(max, c.dec, c.transit, c'.dec, c'.transit)
        && !c'.dec.last.End? && !c'.dec.last.Spins?  // the transport is still open
        && c' == c.(dec := c'.dec, transit := c'.transit))
  }

  /** Nothing is lost, duplicated or reordered, and the decoder never sees a fault. */
  predicate ChannelInv(max: nat, c: Channel) {
    && Agrees(max, c.dec)
    && AllLegal(c.sent, max)
    && c.dec.taken + c.transit + c.unsent == Flatten(c.sent)
    && (c.dec.last.Pending? || c.dec.last.Item?)
  }

  /** The bytes a decoder took are those of the frames it yielded and those it still holds. */
  lemma TakenIsGotAndHeld(max: nat, d: Decoding)
    requires Agrees(max, d) && (d.last.Pending? || d.last.Item?)
    ensures Flatten(d.got) + d.held == d.taken
  {
    SplitKeepsBytes(d.taken, max);
  }

  lemma NoFaultOnLegalBytes(max: nat, d: Decoding, fs: seq<seq<byte>>, t: seq<byte>)
    requires Agrees(max, d) && AllLegal(fs, max) && d.taken + t == Flatten(fs)
    ensures d.got <= fs && (d.last in {Pending, End, Spins} || d.last.Item?)
    ensures t == [] ==> d.got == fs && (d.last.End? || d.last.Spins? || d.held == [])
  {
    assert Flatten(fs) + [] == Flatten(fs);
    SplitFlatten(fs, [], max);
    assert fs + [] == fs;
    SplitExtends(d.taken, t, max);
    SplitStops(d.taken, max);
    assert t == [] ==> d.taken + t == d.taken;
  }

  lemma Rebracket(a: seq<byte>, b: seq<byte>, c: seq<byte>, d: seq<byte>)
    ensures a + (b + c) + d == a + b + c + d == a + b + (c + d)
    ensures a + (b + c) == a + b + c
  {
  }

  lemma SendKeepsInv(max: nat, c: Channel, f: seq<byte>)
    requires ChannelInv(max, c) && c.unsent == [] && Legal(f, max)
    ensures ChannelInv(max, c.(sent := c.sent + [f], unsent := f))
  {
    FlattenAppend(c.sent, f);
    assert c.dec.taken + c.transit + [] == c.dec.taken + c.transit;
  }

  lemma FlushKeepsInv(max: nat, c: Channel, unsent: seq<byte>, transit: seq<byte>)
    requires ChannelInv(max, c) && FlushStep(c.unsent, c.transit, unsent, transit)
    ensures ChannelInv(max, c.(unsent := unsent, transit := transit))
  {
    var written := transit[|c.transit|..];
    assert transit == c.transit + written;
    Rebracket(c.dec.taken, c.transit, written, unsent);
  }

  lemma PollKeepsInv(max: nat, c: Channel, dec: Decoding, transit: seq<byte>)
    requires ChannelInv(max, c) && Polled(max, c.dec, c.transit, dec, transit) && !dec.last.End? && !dec.last.Spins?
    ensures ChannelInv(max, c.(dec := dec, transit := transit))
  {
    PollKeepsAgreement(max, c.dec, c.transit, dec, transit);
    var read := c.transit[..|c.transit| - |transit|];
    assert c.transit == read + transit;
    Rebracket(c.dec.taken, read, transit, c.unsent);
    NoFaultOnLegalBytes(max, dec, c.sent, transit + c.unsent);
  }

  lemma ChannelStepKeepsInv(max: nat, c: Channel, c': Channel)
    requires ChannelInv(max, c) && ChannelStep(max, c, c')
    ensures ChannelInv(max, c')
  {
    if && Polled(max, c.dec, c.transit, c'.dec, c'.transit) && c' == c.(dec := c'.dec, transit := c'.transit)
       && !c'.dec.last.End? && !c'.dec.last.Spins? {
      PollKeepsInv(max, c, c'.dec, c'.transit);
    } else if && FlushStep(c.unsent, c.transit, c'.unsent, c'.transit)
              && c' == c.(unsent := c'.unsent, transit := c'.transit) {
      FlushKeepsInv(max, c, c'.unsent, c'.transit);
    } else {
      SendKeepsInv(max, c, c'.unsent);
    }
  }

  /** Every channel reached by steps from the fresh one. */
  predicate ChannelRun(max: nat, run: seq<Channel>) {
    && |run| > 0 && run[0] == FreshChannel
    && forall i | 0 <= i < |run| - 1 :: ChannelStep(max, run[i], run[i + 1])
  }

  lemma {:induction false} RunKeepsInv(max: nat, run: seq<Channel>)
    requires ChannelRun(max, run)
    ensures ChannelInv(max, run[|run| - 1])
    decreases |run|
  {
    if |run| > 1 {
      RunKeepsInv(max, run[..|run| - 1]);
      ChannelStepKeepsInv(max, run[|run| - 2], run[|run| - 1]);
    }
  }

  /**
   * Channel safety over whole runs: what was decoded, what the decoder holds, what is in transit
   * and what the encoder still holds make up exactly what was sent; the frames received are the
   * first frames sent, all of them once nothing is left on the way.
   */
  lemma ChannelSafety(max: nat, run: seq<Channel>)
    requires ChannelRun(max, run)
    ensures var c := run[|run| - 1];
            && Flatten(c.dec.got) + c.dec.held + c.transit + c.unsent == Flatten(c.sent)
            && c.dec.got <= c.sent
            && (c.dec.last.Pending? || c.dec.last.Item?)
            && (c.transit == [] && c.unsent == [] ==> c.dec.got == c.sent && c.dec.held == [])
  {
    RunKeepsInv(max, run);
    var c := run[|run| - 1];
    TakenIsGotAndHeld(max, c.dec);
    Rebracket([], c.dec.taken, c.transit, c.unsent);
    assert [] + c.dec.taken == c.dec.taken;
    NoFaultOnLegalBytes(max, c.dec, c.sent, c.transit + c.unsent);
  }

  /**
   * A failed flush puts a front part of the message on the wire and gives the rest up. When nothing is
   * sent after it the channel is one whose encoder keeps that rest for ever: the cut message never
   * arrives, and those before it do.
   */
  lemma CutFrameStaysOut(max: nat, run: seq<Channel>)
    requires ChannelRun(max, run) && run[|run| - 1].unsent != []
    ensures var c := run[|run| - 1]; c.sent != [] && c.dec.got <= c.sent[..|c.sent| - 1]
  {
    ChannelSafety(max, run);
    var c := run[|run| - 1];
    assert |Flatten(c.dec.got)| < |Flatten(c.sent)|;
    assert c.dec.got == c.sent[..|c.dec.got|] && c.sent[..|c.sent|] == c.sent;
    assert |c.dec.got| < |c.sent|;
  }

  /** An empty message whose first sid byte is neither 24, the first byte of its length, nor that of `f`. */
  function Probe(f: seq<byte>): (g: seq<byte>)
    requires |f| >= WF.LEN_HEADER
    ensures |g| == 24
  {
    WF.Encode(WF.Frame(if f[8] == 1 then 2 else 1, 0, []))
  }

  lemma ProbeBytes(f: seq<byte>, i: nat)
    requires |f| >= WF.LEN_HEADER && i < 9
    ensures Probe(f)[i] == if i == 0 then 24 else if i < 8 then 0 else if f[8] == 1 then 2 else 1
    ensures WF.Coherent(Probe(f))
  {
    var sid: byte := if f[8] == 1 then 2 else 1;
    WF.EncodeIsCoherent(WF.Frame(sid, 0, []));
    if i < 8 {
      SmallBytes(24, 8, i);
    } else {
      SmallBytes(sid, 8, 0);
    }
  }

  /** Behind a part of `f` its probe is not where a message is expected. */
  lemma ProbeIsMissed(max: nat, f: seq<byte>, k: nat) returns (i: nat)
    requires Legal(f, max) && 0 < k < |f|
    ensures |f| >= WF.LEN_HEADER && i < 9 && (f[..k] + Probe(f))[i] != Probe(f)[i]
  {
    LegalIsCoherent(f, max);
    var g := Probe(f);
    if k < 8 {
      i := k;
      ProbeBytes(f, 0);
      ProbeBytes(f, k);
    } else if f[..8] == g[..8] {
      i := 8;
      ProbeBytes(f, 0);
      ProbeBytes(f, 8);
    } else {
      i :| 0 <= i < 8 && f[..8][i] != g[..8][i];
    }
  }

  lemma NotJust(p: Parsed, g: seq<byte>, i: nat)
    requires i < |g| && i < |Flatten(p.frames) + p.rest| && (Flatten(p.frames) + p.rest)[i] != g[i]
    ensures p.frames != [g]
  {
    FlattenCons(g, []);
    assert [g] + [] == [g];
    assert Flatten([g]) == g;
    assert (g + p.rest)[i] == g[i];
  }

  /**
   * When sending may go on after a failed flush: every legal message sent next is understood if and only
   * if no byte of the message cut off was written.
   */
  lemma SafeAfterCut(max: nat, fs: seq<seq<byte>>, f: seq<byte>, k: nat)
    requires AllLegal(fs, max) && Legal(f, max) && k < |f|
    ensures (forall g | Legal(g, max) :: Split(Flatten(fs) + (f[..k] + g), max).frames == fs + [g]) <==> k == 0
  {
    LegalIsCoherent(f, max);
    if k == 0 {
      forall g | Legal(g, max) ensures Split(Flatten(fs) + (f[..k] + g), max).frames == fs + [g] {
        assert f[..k] + g == g;
        SplitFlatten(fs, g, max);
        assert Split(g, max).frames == [g] + [];
      }
    } else {
      var g := Probe(f);
      var i := ProbeIsMissed(max, f, k);
      ProbeBytes(f, 0);
      LegalIsCoherent(g, max);
      var p := Split(f[..k] + g, max);
      SplitFlatten(fs, f[..k] + g, max);
      SplitKeepsBytes(f[..k] + g, max);
      NotJust(p, g, i);
      assert fs + p.frames != fs + [g] by {
        assert (fs + p.frames)[|fs|..] == p.frames && (fs + [g])[|fs|..] == [g];
      }
    }
  }

  /** So messages arrive with the service id, connection id and payload they were sent with. */
  lemma MessagesArriveIntact(max: nat, run: seq<Channel>, msgs: seq<WF.Frame>)
    requires ChannelRun(max, run)
    requires |msgs| == |run[|run| - 1].sent|
    requires forall i | 0 <= i < |msgs| :: WF.Fits(msgs[i]) && run[|run| - 1].sent[i] == WF.Encode(msgs[i])
    ensures var got := run[|run| - 1].dec.got;
            |got| <= |msgs| && forall i | 0 <= i < |got| :: |got[i]| >= WF.LEN_HEADER && WF.View(got[i]) == msgs[i]
  {
    ChannelSafety(max, run);
    var c := run[|run| - 1];
    forall i | 0 <= i < |c.dec.got|
      ensures |c.dec.got[i]| >= WF.LEN_HEADER && WF.View(c.dec.got[i]) == msgs[i]
    {
      assert c.dec.got[i] == c.sent[i];
      WF.EncodeIsCoherent(msgs[i]);
    }
  }
}
