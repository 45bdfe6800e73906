/**
 From the true wheel counts on the board to the relative counts the driver exports.

 The board sends unbounded counts as wrapped 32-bit little-endian reports; the serial line cuts the
 byte stream anywhere; after every read the driver looks at the last decoded report only, and adds
 the 32-bit difference to what it saw before.
 */
module EncoderChain {
  import opened BoardBytes
  import opened RosmasterProtocol
  import opened RosmasterCommands

  // ---------------------------------------------------------------- the driver's side

  type Four = s: seq<int> | |s| == 4 witness [0, 0, 0, 0]

  datatype Tracker = Tracker(
    observedSequence: nat, havePrevious: bool, previous: Four, relative: Four)

  const INITIAL_TRACKER: Tracker := Tracker(0, false, [0, 0, 0, 0], [0, 0, 0, 0])

  /** 32-bit subtraction of two counter readings. */
  function EncoderDelta(current: int, previous: int): int {
    Wrap32(current % TWO_32 - previous % TWO_32)
  }

  function Updated(t: Tracker, state: ProtocolState, wheels: nat): Tracker
    requires wheels <= 4
  {
    if state.encoderSequence == t.observedSequence then t
    else
      var relative: Four :=
        if t.havePrevious then
          seq(4, i requires 0 <= i < 4 =>
            if i < wheels then t.relative[i] + EncoderDelta(state.encoders[i], t.previous[i]) else t.relative[i])
        else t.relative;
      Tracker(state.encoderSequence, true, state.encoders, relative)
  }

  class EncoderTracker {
    var observedEncoderSequence: nat
    var havePreviousEncoderSample: bool
    var previousEncoders: Four
    var relativeEncoderCounts: Four
    const wheelCount: nat

    ghost predicate Valid()
      reads this
    {
      wheelCount == 2 || wheelCount == 4
    }

    ghost function Value(): Tracker
      reads this
    {
      Tracker(observedEncoderSequence, havePreviousEncoderSample, previousEncoders, relativeEncoderCounts)
    }

    constructor (wheels: nat)
      requires wheels == 2 || wheels == 4
      ensures Valid() && wheelCount == wheels && Value() == INITIAL_TRACKER
    {
      wheelCount := wheels;
      observedEncoderSequence, havePreviousEncoderSample := 0, false;
      previousEncoders, relativeEncoderCounts := [0, 0, 0, 0], [0, 0, 0, 0];
    }

    method UpdateExportedState(state: ProtocolState)
      requires Valid()
      modifies this
      ensures Valid() && Value() == Updated(old(Value()), state, wheelCount)
    {
      if state.encoderSequence != observedEncoderSequence {
        if havePreviousEncoderSample {
          var index := 0;
          while index < wheelCount
            invariant 0 <= index <= wheelCount
            invariant forall i :: 0 <= i < 4 ==>
              relativeEncoderCounts[i] == old(relativeEncoderCounts[i]) +
                (if i < index then EncoderDelta(state.encoders[i], old(previousEncoders[i])) else 0)
            invariant previousEncoders == old(previousEncoders) && havePreviousEncoderSample
          {
            var delta := EncoderDelta(state.encoders[index], previousEncoders[index]);
            relativeEncoderCounts := relativeEncoderCounts[index := relativeEncoderCounts[index] + delta];
            index := index + 1;
          }
        } else {
          havePreviousEncoderSample := true;
        }
        previousEncoders := state.encoders;
        observedEncoderSequence := state.encoderSequence;
      }
    }
  }

  // ---------------------------------------------------------------- the board's side

  /** What the board has to say: its four true counts, or anything else. */
  datatype Message = Counts(counts: Four) | Other(fn: byte, payload: seq<byte>)

  /** A message the board can frame; anything else is not an encoder report. */
  predicate Sendable(m: Message) {
    m.Other? ==> m.fn != REPORT_ENCODER && |m.payload| + 3 <= MAX_REPORT_LENGTH
  }

  function Function(m: Message): byte {
    if m.Counts? then REPORT_ENCODER else m.fn
  }

  function Payload(m: Message): seq<byte> {
    match m
    case Counts(c) => WriteI32(c[0]) + WriteI32(c[1]) + WriteI32(c[2]) + WriteI32(c[3])
    case Other(_, p) => p
  }

  function Report(m: Message): seq<byte> {
    MakeReport(Function(m), Payload(m))
  }

  function Stream(messages: seq<Message>): seq<byte> {
    if messages == [] then [] else Report(messages[0]) + Stream(messages[1..])
  }

  /** The true counts of the encoder reports among the messages, in order. */
  function TrueCounts(messages: seq<Message>): seq<Four> {
    if messages == [] then []
    else (if messages[0].Counts? then [messages[0].counts] else []) + TrueCounts(messages[1..])
  }

  /** The true counts whose reports lie completely within the first n bytes of the stream. */
  function Arrived(messages: seq<Message>, n: nat): seq<Four>
  {
    if messages == [] || n < |Payload(messages[0])| + 5 then []
    else (if messages[0].Counts? then [messages[0].counts] else []) +
         Arrived(messages[1..], n - |Payload(messages[0])| - 5)
  }

  lemma {:induction false} ArrivedIsPrefix(messages: seq<Message>, n: nat)
    ensures Arrived(messages, n) <= TrueCounts(messages)
  {
    if messages != [] && n >= |Payload(messages[0])| + 5 {
      ArrivedIsPrefix(messages[1..], n - |Payload(messages[0])| - 5);
    }
  }

  lemma {:induction false} MoreBytesMoreCounts(messages: seq<Message>, n: nat, m: nat)
    requires n <= m
    ensures Arrived(messages, n) <= Arrived(messages, m)
  {
    if messages != [] && n >= |Payload(messages[0])| + 5 {
      var used := |Payload(messages[0])| + 5;
      MoreBytesMoreCounts(messages[1..], n - used, m - used);
    }
  }

  function Wrapped(counts: Four): Four {
    [Wrap32(counts[0]), Wrap32(counts[1]), Wrap32(counts[2]), Wrap32(counts[3])]
  }

  lemma CountsDecode(counts: Four, state: ProtocolState)
    ensures var s := Framed(state, REPORT_ENCODER, Payload(Counts(counts)));
      s.encoders == Wrapped(counts) && s.encoderSequence == Next64(state.encoderSequence)
  {
    var p := Payload(Counts(counts));
    assert p[0..4] == WriteI32(counts[0]) && p[4..8] == WriteI32(counts[1])
        && p[8..12] == WriteI32(counts[2]) && p[12..16] == WriteI32(counts[3]);
    I32RoundTrip(counts[0]);
    I32RoundTrip(counts[1]);
    I32RoundTrip(counts[2]);
    I32RoundTrip(counts[3]);
  }

  lemma OthersLeaveEncoders(fn: byte, payload: seq<byte>, state: ProtocolState)
    requires fn != REPORT_ENCODER
    ensures var s := Framed(state, fn, payload);
      s.encoders == state.encoders && s.encoderSequence == state.encoderSequence
  {}

  /** The parser has decoded these encoder reports: it shows the last, and has counted them all. */
  ghost predicate Shows(state: ProtocolState, before: ProtocolState, arrived: seq<Four>) {
    && state.encoderSequence == (before.encoderSequence + |arrived|) % TWO_64
    && state.encoders == if arrived == [] then before.encoders else Wrapped(arrived[|arrived| - 1])
  }

  /** One more report in front of what a state shows. */
  lemma ShowsOneMore(m: Message, final: ProtocolState, state: ProtocolState, later: seq<Four>)
    requires Sendable(m) && Shows(final, Framed(state, Function(m), Payload(m)), later)
    ensures Shows(final, state, (if m.Counts? then [m.counts] else []) + later)
  {
    hide Framed, Payload, Next64, Wrapped;
    if m.Counts? {
      assert m == Counts(m.counts);
      CountsDecode(m.counts, state);
      CountsAdd(state.encoderSequence, |later|);
      assert later != [] ==> ([m.counts] + later)[|later|] == later[|later| - 1];
    } else {
      OthersLeaveEncoders(Function(m), Payload(m), state);
      assert [] + later == later;
    }
  }

  lemma StreamSplits(messages: seq<Message>, n: nat)
    requires messages != [] && Sendable(messages[0]) && n <= |Stream(messages)|
    ensures |Payload(messages[0])| + 3 <= MAX_REPORT_LENGTH
    ensures var used := |Payload(messages[0])| + 5;
      if n < used then Stream(messages)[..n] == Report(messages[0])[..n]
      else n - used <= |Stream(messages[1..])|
           && Stream(messages)[..n] == Report(messages[0]) + Stream(messages[1..])[..n - used]
  {
    var f := Function(messages[0]);
    hide MakeReport;
    CommandIsAFrame(f, Payload(messages[0]));
  }

  /** Decoding any prefix of the stream shows exactly the reports that arrived completely. */
  lemma {:induction false} PrefixDecodes(messages: seq<Message>, n: nat, state: ProtocolState)
    requires forall m | m in messages :: Sendable(m)
    requires n <= |Stream(messages)|
    requires state.encoderSequence < TWO_64
    ensures Shows(Effect(state, Pieces(Stream(messages)[..n])), state, Arrived(messages, n))
    decreases |messages|
  {
    hide Pieces, Effect, Residue, MakeReport, Framed, Payload;
    if messages == [] {
      ParkedReading([], state);
    } else {
      hide Stream, Shows;
      var m, rest := messages[0], messages[1..];
      assert Sendable(m);
      StreamSplits(messages, n);
      if n < |Payload(m)| + 5 {
        CutReportIsParked(Function(m), Payload(m), n);
        ParkedReading(Report(m)[..n], state);
        NothingShown(state);
      } else {
        var cut := n - |Payload(m)| - 5;
        ReportRoundTrip(Function(m), Payload(m), Stream(rest)[..cut], state);
        var next := Framed(state, Function(m), Payload(m));
        SequenceStaysBounded(state, Function(m), Payload(m));
        PrefixDecodes(rest, cut, next);
        ShowsOneMore(m, Effect(next, Pieces(Stream(rest)[..cut])), state, Arrived(rest, cut));
      }
    }
  }

  lemma NothingShown(state: ProtocolState)
    requires state.encoderSequence < TWO_64
    ensures Shows(state, state, [])
  {}

  lemma SequenceStaysBounded(state: ProtocolState, fn: byte, payload: seq<byte>)
    requires state.encoderSequence < TWO_64
    ensures Framed(state, fn, payload).encoderSequence < TWO_64
  {}

  lemma CountsAdd(n: nat, k: nat)
    ensures (Next64(n) + k) % TWO_64 == (n + 1 + k) % TWO_64
  {}

  // ---------------------------------------------------------------- the chain

  datatype Link = Link(parser: Parser, tracker: Tracker)

  const INITIAL_LINK: Link := Link(Parser([], INITIAL_STATE), INITIAL_TRACKER)

  /** One cycle of the driver: the chunks the serial line had ready, then one look at the state. */
  function Cycle(link: Link, chunks: seq<seq<byte>>, wheels: nat): Link
    requires wheels <= 4
  {
    var parser := FedAll(link.parser, chunks);
    Link(parser, Updated(link.tracker, parser.state, wheels))
  }

  function Cycles(link: Link, batches: seq<seq<seq<byte>>>, wheels: nat): Link
    requires wheels <= 4
    decreases |batches|
  {
    if batches == [] then link
    else Cycle(Cycles(link, batches[..|batches| - 1], wheels), batches[|batches| - 1], wheels)
  }

  /** The bytes received over the cycles. */
  function Received(batches: seq<seq<seq<byte>>>): seq<byte>
    decreases |batches|
  {
    if batches == [] then [] else Received(batches[..|batches| - 1]) + Concat(batches[|batches| - 1])
  }

  /** The reports complete after the first k cycles. */
  function SeenAfter(messages: seq<Message>, batches: seq<seq<seq<byte>>>, k: nat): seq<Four>
    requires k <= |batches|
  {
    Arrived(messages, |Received(batches[..k])|)
  }

  /** Differences of the wheels in use that the 32-bit subtraction recovers. */
  predicate SmallJump(from: Four, to: Four, wheels: nat)
    requires wheels <= 4
  {
    forall i :: 0 <= i < wheels ==> -TWO_31 <= to[i] - from[i] < TWO_31
  }

  /** In cycle k fewer than 2^64 reports arrive, and no wheel is seen to move past half the counter's range. */
  ghost predicate JumpObservable(messages: seq<Message>, batches: seq<seq<seq<byte>>>, k: nat, wheels: nat)
    requires k < |batches| && wheels <= 4
  {
    var a, b := SeenAfter(messages, batches, k), SeenAfter(messages, batches, k + 1);
    && |b| - |a| < TWO_64
    && (a != [] && b != [] ==> SmallJump(a[|a| - 1], b[|b| - 1], wheels))
  }

  ghost predicate JumpsObservable(messages: seq<Message>, batches: seq<seq<seq<byte>>>, wheels: nat)
    requires wheels <= 4
  {
    forall k: nat :: k < |batches| ==> JumpObservable(messages, batches, k, wheels)
  }

  /** The first true counts the driver got to look at. */
  ghost function FirstSeen(messages: seq<Message>, batches: seq<seq<seq<byte>>>): Four
    decreases |batches|
  {
    if batches == [] then [0, 0, 0, 0]
    else
      var a := SeenAfter(messages, batches, |batches| - 1);
      if a != [] then FirstSeen(messages, batches[..|batches| - 1])
      else
        var b := SeenAfter(messages, batches, |batches|);
        if b == [] then [0, 0, 0, 0] else b[|b| - 1]
  }

  ghost predicate Tracked(t: Tracker, arrived: seq<Four>, first: Four, wheels: nat) {
    && t.observedSequence == |arrived| % TWO_64
    && (arrived == [] ==> t == INITIAL_TRACKER)
    && (arrived != [] ==>
          && t.havePrevious && t.previous == Wrapped(arrived[|arrived| - 1])
          && forall i :: 0 <= i < 4 ==>
               t.relative[i] == if i < wheels then arrived[|arrived| - 1][i] - first[i] else 0)
  }

  lemma WrapIsUnique(x: int, d: int, turns: int)
    requires -TWO_31 <= d < TWO_31 && x == d + TWO_32 * turns
    ensures Wrap32(x) == d
  {}

  lemma DeltaRecovers(current: int, previous: int)
    requires -TWO_31 <= current - previous < TWO_31
    ensures EncoderDelta(Wrap32(current), Wrap32(previous)) == current - previous
  {
    var c, p := Wrap32(current), Wrap32(previous);
    var cTurns, pTurns := (current + TWO_31) / TWO_32, (previous + TWO_31) / TWO_32;
    assert c == current - TWO_32 * cTurns && p == previous - TWO_32 * pTurns;
    var turns := pTurns + p / TWO_32 - cTurns - c / TWO_32;
    assert c % TWO_32 - p % TWO_32 == current - previous + TWO_32 * turns;
    WrapIsUnique(c % TWO_32 - p % TWO_32, current - previous, turns);
  }

  /** Two counter values below 2^64 apart are told apart by the 64-bit sequence. */
  lemma SequencesDiffer(a: nat, b: nat)
    requires a <= b && b - a < TWO_64
    ensures a % TWO_64 == b % TWO_64 <==> a == b
  {}

  lemma UpdateTracks(t: Tracker, state: ProtocolState, a: seq<Four>, b: seq<Four>, first: Four, wheels: nat)
    requires wheels <= 4 && a <= b && |b| - |a| < TWO_64
    requires Shows(state, INITIAL_STATE, b)
    requires a != [] && b != [] ==> SmallJump(a[|a| - 1], b[|b| - 1], wheels)
    requires a == [] && b != [] ==> first == b[|b| - 1]
    requires Tracked(t, a, first, wheels)
    ensures Tracked(Updated(t, state, wheels), b, first, wheels)
  {
    hide Wrap32, EncoderDelta;
    SequencesDiffer(|a|, |b|);
    if |a| == |b| {
      assert a == b;
    } else if a != [] {
      var x, y := a[|a| - 1], b[|b| - 1];
      forall i | 0 <= i < wheels ensures EncoderDelta(state.encoders[i], t.previous[i]) == y[i] - x[i] {
        DeltaRecovers(y[i], x[i]);
      }
    }
  }

  /**
   End to end: whatever the grouping of the bytes into chunks and of the chunks into cycles, the
   relative counts are the last true counts that arrived minus the first ones the driver saw.
   */
  lemma {:induction false} RelativeCountsAreTrue(messages: seq<Message>, batches: seq<seq<seq<byte>>>, wheels: nat)
    requires wheels <= 4
    requires forall m | m in messages :: Sendable(m)
    requires Received(batches) <= Stream(messages)
    requires JumpsObservable(messages, batches, wheels)
    ensures Cycles(INITIAL_LINK, batches, wheels).parser == Fed(INITIAL_LINK.parser, Received(batches))
    ensures Tracked(Cycles(INITIAL_LINK, batches, wheels).tracker,
                    Arrived(messages, |Received(batches)|), FirstSeen(messages, batches), wheels)
    decreases |batches|
  {
    hide Fed, FedAll, Updated, Tracked, Stream, Arrived, Shows;
    if batches == [] {
      NothingYet(messages, wheels);
    } else {
      var n := |batches| - 1;
      var earlier := batches[..n];
      EarlierJumps(messages, batches, wheels);
      assert Received(earlier) <= Stream(messages);
      RelativeCountsAreTrue(messages, earlier, wheels);
      hide JumpsObservable, FirstSeen, SeenAfter, SmallJump;
      var link := Cycles(INITIAL_LINK, earlier, wheels);
      ReadsDoNotMatter(link.parser, batches[n]);
      ChunkInvariance(INITIAL_LINK.parser, Received(earlier), Concat(batches[n]));
      StateAfter(messages, Received(batches));
      MoreBytesMoreCounts(messages, |Received(earlier)|, |Received(batches)|);
      var a, b := Arrived(messages, |Received(earlier)|), Arrived(messages, |Received(batches)|);
      SwitchFirst(link.tracker, a, FirstSeen(messages, earlier), FirstSeen(messages, batches), wheels);
      UpdateTracks(link.tracker, Fed(INITIAL_LINK.parser, Received(batches)).state, a, b,
                   FirstSeen(messages, batches), wheels);
    }
  }

  /** The hypotheses hold of the earlier cycles, and of the step to the last one. */
  lemma EarlierJumps(messages: seq<Message>, batches: seq<seq<seq<byte>>>, wheels: nat)
    requires wheels <= 4 && batches != [] && JumpsObservable(messages, batches, wheels)
    ensures var earlier := batches[..|batches| - 1];
      var a, b := Arrived(messages, |Received(earlier)|), Arrived(messages, |Received(batches)|);
      && JumpsObservable(messages, earlier, wheels)
      && |b| - |a| < TWO_64
      && (a != [] && b != [] ==> SmallJump(a[|a| - 1], b[|b| - 1], wheels))
      && (a != [] ==> FirstSeen(messages, earlier) == FirstSeen(messages, batches))
      && (a == [] && b != [] ==> FirstSeen(messages, batches) == b[|b| - 1])
  {
    hide Arrived, SmallJump, Received;
    var n := |batches| - 1;
    assert batches[..n + 1] == batches && batches[..n][..n] == batches[..n];
    assert JumpObservable(messages, batches, n, wheels);
    forall k: nat | k < n ensures JumpObservable(messages, batches[..n], k, wheels) {
      assert JumpObservable(messages, batches, k, wheels);
      assert batches[..n][..k] == batches[..k] && batches[..n][..k + 1] == batches[..k + 1];
    }
  }

  lemma NothingYet(messages: seq<Message>, wheels: nat)
    ensures Fed(INITIAL_LINK.parser, []) == INITIAL_LINK.parser
    ensures Tracked(INITIAL_TRACKER, Arrived(messages, 0), [0, 0, 0, 0], wheels)
  {}

  lemma SwitchFirst(t: Tracker, a: seq<Four>, first: Four, other: Four, wheels: nat)
    requires Tracked(t, a, first, wheels) && (a != [] ==> first == other)
    ensures Tracked(t, a, other, wheels)
  {}

  lemma StateAfter(messages: seq<Message>, bytes: seq<byte>)
    requires forall m | m in messages :: Sendable(m)
    requires bytes <= Stream(messages)
    ensures Shows(Fed(INITIAL_LINK.parser, bytes).state, INITIAL_STATE, Arrived(messages, |bytes|))
  {
    hide Pieces, Effect, Residue, Stream, Shows;
    assert Stream(messages)[..|bytes|] == bytes && [] + bytes == bytes;
    if bytes == [] {
      assert Arrived(messages, 0) == [];
      NothingShown(INITIAL_STATE);
    } else {
      hide Arrived;
      PrefixDecodes(messages, |bytes|, INITIAL_STATE);
    }
  }
}
