/**
 The report parser of the Rosmaster board and the framing of its commands.

 A report is FF FB len fn payload check, where len + 2 is the frame's size and the check byte is
 the low byte of the sum of everything between the device byte and itself.
 */
module RosmasterProtocol {
  import opened BoardBytes

  const HEAD: byte := 0xFF
  const COMMAND_DEVICE: byte := 0xFC
  const REPORT_DEVICE: byte := 0xFB
  const CHECKSUM_COMPLEMENT: nat := 5
  const REPORT_MPU_RAW: byte := 0x0B
  const REPORT_ENCODER: byte := 0x0D
  const REPORT_ICM_RAW: byte := 0x0E
  const MOTION_FUNCTION: byte := 0x12
  const MAX_REPORT_LENGTH: nat := 64

  datatype RawProtocolState = ProtocolState(
    encoders: seq<int>, angularVelocity: seq<real>, linearAcceleration: seq<real>,
    encoderSequence: nat, imuSequence: nat, validFrameSequence: nat)

  type ProtocolState = s: RawProtocolState |
    |s.encoders| == 4 && |s.angularVelocity| == 3 && |s.linearAcceleration| == 3
    witness ProtocolState([0, 0, 0, 0], [0.0, 0.0, 0.0], [0.0, 0.0, 0.0], 0, 0, 0)

  const INITIAL_STATE: ProtocolState :=
    ProtocolState([0, 0, 0, 0], [0.0, 0.0, 0.0], [0.0, 0.0, 0.0], 0, 0, 0)

  // ---------------------------------------------------------------- what a report means

  function EncoderReport(state: ProtocolState, payload: seq<byte>): ProtocolState
    requires |payload| >= 16
  {
    state.(encoders := [ReadI32(payload[0..4]), ReadI32(payload[4..8]),
                        ReadI32(payload[8..12]), ReadI32(payload[12..16])],
           encoderSequence := Next64(state.encoderSequence))
  }

  function MpuReport(state: ProtocolState, payload: seq<byte>): ProtocolState
    requires |payload| >= 12
  {
    var gyro, accel := 1.0 / 3754.9, 1.0 / 1671.84;
    state.(angularVelocity := [ReadI16(payload[0..2]) as real * gyro, ReadI16(payload[2..4]) as real * -gyro,
                               ReadI16(payload[4..6]) as real * -gyro],
           linearAcceleration := [ReadI16(payload[6..8]) as real * accel, ReadI16(payload[8..10]) as real * accel,
                                  ReadI16(payload[10..12]) as real * accel],
           imuSequence := Next64(state.imuSequence))
  }

  function IcmReport(state: ProtocolState, payload: seq<byte>): ProtocolState
    requires |payload| >= 12
  {
    var ratio := 1.0 / 1000.0;
    state.(angularVelocity := [ReadI16(payload[0..2]) as real * ratio, ReadI16(payload[2..4]) as real * ratio,
                               ReadI16(payload[4..6]) as real * ratio],
           linearAcceleration := [ReadI16(payload[6..8]) as real * ratio, ReadI16(payload[8..10]) as real * ratio,
                                  ReadI16(payload[10..12]) as real * ratio],
           imuSequence := Next64(state.imuSequence))
  }

  function Decoded(state: ProtocolState, fn: byte, payload: seq<byte>): ProtocolState {
    if fn == REPORT_ENCODER && |payload| >= 16 then EncoderReport(state, payload)
    else if fn == REPORT_MPU_RAW && |payload| >= 12 then MpuReport(state, payload)
    else if fn == REPORT_ICM_RAW && |payload| >= 12 then IcmReport(state, payload)
    else state
  }

  /** A counted frame: its payload is decoded, then the frame counter moves. */
  function Framed(state: ProtocolState, fn: byte, payload: seq<byte>): (r: ProtocolState)
    ensures r.validFrameSequence == Next64(state.validFrameSequence)
  {
    var s := Decoded(state, fn, payload);
    s.(validFrameSequence := Next64(s.validFrameSequence))
  }

  // ---------------------------------------------------------------- frames, on their own terms

  /** A complete, well-checksummed report; nothing here knows of the parser. */
  predicate ValidFrame(f: seq<byte>) {
    && |f| >= 5 && f[0] == HEAD && f[1] == REPORT_DEVICE
    && 3 <= f[2] <= MAX_REPORT_LENGTH && |f| == f[2] + 2
    && Sum(f[2..|f| - 1]) % 256 == f[|f| - 1]
  }

  /** What a frame does to the state. */
  function FrameEffect(state: ProtocolState, f: seq<byte>): ProtocolState {
    if |f| < 5 then state else Framed(state, f[3], f[4..|f| - 1])
  }

  // ---------------------------------------------------------------- one decision of the parser

  datatype Verdict = Wait | Reject | Accept(size: nat)

  /** The running checksum: length and function bytes, then the payload up to the check byte. */
  function RunningChecksum(buf: seq<byte>, size: nat): nat
    requires 4 <= size <= |buf|
  {
    buf[2] as int + buf[3] as int + if size > 4 then Sum(buf[4..size - 1]) else 0
  }

  /** For a real frame it is the frame's own sum; for a length byte of 2 it can never match. */
  lemma ChecksumOfBuffer(buf: seq<byte>, size: nat)
    requires 4 <= size <= |buf|
    ensures size > 4 ==> RunningChecksum(buf, size) == Sum(buf[2..size - 1])
    ensures size == 4 && buf[2] == 2 ==> RunningChecksum(buf, size) % 256 != buf[3]
  {
    if size > 4 {
      assert buf[2..size - 1] == [buf[2]] + [buf[3]] + buf[4..size - 1];
      SumOfOne(buf[2]);
      SumOfOne(buf[3]);
      SumAppend([buf[2]], [buf[3]]);
      SumAppend([buf[2]] + [buf[3]], buf[4..size - 1]);
    }
  }

  /** An accepted frame holds at least five bytes, so the payload's size does not underflow. */
  function Classify(buf: seq<byte>): (v: Verdict)
    requires buf != []
    ensures v.Accept? ==> 5 <= v.size <= |buf| && ValidFrame(buf[..v.size])
  {
    if buf[0] != HEAD then Reject
    else if |buf| < 2 then Wait
    else if buf[1] != REPORT_DEVICE then Reject
    else if |buf| < 4 then Wait
    else if buf[2] < 2 || buf[2] > MAX_REPORT_LENGTH then Reject
    else if |buf| < buf[2] as int + 2 then Wait
    else
      var size := buf[2] as int + 2;
      if RunningChecksum(buf, size) % 256 == buf[size - 1] then
        ChecksumOfBuffer(buf, size);
        assert size > 4 ==> buf[..size][2..size - 1] == buf[2..size - 1];
        Accept(size)
      else Reject
  }

  /** Nothing more can be decided about these bytes until others arrive. */
  predicate Parked(buf: seq<byte>) {
    buf == [] || Classify(buf).Wait?
  }

  // ---------------------------------------------------------------- one reading of a byte string

  datatype Piece = Noise(b: byte) | Frame(bytes: seq<byte>)

  /** Left to right: a frame where one is complete, a byte of noise where none can be. */
  function Pieces(buf: seq<byte>): seq<Piece>
    decreases |buf|
  {
    if Parked(buf) then []
    else match Classify(buf)
      case Accept(n) => [Frame(buf[..n])] + Pieces(buf[n..])
      case Reject => [Noise(buf[0])] + Pieces(buf[1..])
  }

  /** The bytes about which nothing is decided yet. */
  function Residue(buf: seq<byte>): (r: seq<byte>)
    ensures Parked(r)
    decreases |buf|
  {
    if Parked(buf) then buf
    else match Classify(buf)
      case Accept(n) => Residue(buf[n..])
      case Reject => Residue(buf[1..])
  }

  /** The effect of a reading: its frames, in order, and nothing else. */
  function Effect(state: ProtocolState, pieces: seq<Piece>): ProtocolState
    decreases |pieces|
  {
    if pieces == [] then state
    else match pieces[0]
      case Frame(f) => Effect(FrameEffect(state, f), pieces[1..])
      case Noise(_) => Effect(state, pieces[1..])
  }

  datatype Parser = Parser(buffer: seq<byte>, state: ProtocolState)

  function Fed(p: Parser, data: seq<byte>): Parser {
    if data == [] then p
    else Parser(Residue(p.buffer + data), Effect(p.state, Pieces(p.buffer + data)))
  }

  function FedAll(p: Parser, chunks: seq<seq<byte>>): Parser
    decreases |chunks|
  {
    if chunks == [] then p else FedAll(Fed(p, chunks[0]), chunks[1..])
  }

  function Concat(chunks: seq<seq<byte>>): seq<byte> {
    if chunks == [] then [] else chunks[0] + Concat(chunks[1..])
  }

  // ---------------------------------------------------------------- chunk invariance

  /** A decision, once taken, is not changed by later bytes. */
  lemma ClassifyStable(buf: seq<byte>, more: seq<byte>)
    requires !Parked(buf)
    ensures Classify(buf + more) == Classify(buf)
  {
    if |buf| >= 4 && |buf| >= buf[2] as int + 2 && buf[2] > 2 {
      assert (buf + more)[4..buf[2] + 1] == buf[4..buf[2] + 1];
    }
  }

  lemma {:induction false} ReadingContinues(buf: seq<byte>, more: seq<byte>)
    ensures Pieces(buf + more) == Pieces(buf) + Pieces(Residue(buf) + more)
    ensures Residue(buf + more) == Residue(Residue(buf) + more)
    decreases |buf|
  {
    if !Parked(buf) {
      ClassifyStable(buf, more);
      match Classify(buf)
      case Accept(n) =>
        assert (buf + more)[n..] == buf[n..] + more && (buf + more)[..n] == buf[..n];
        ReadingContinues(buf[n..], more);
      case Reject =>
        assert (buf + more)[1..] == buf[1..] + more;
        ReadingContinues(buf[1..], more);
    }
  }

  lemma {:induction false} EffectOfConcatenation(state: ProtocolState, a: seq<Piece>, b: seq<Piece>)
    ensures Effect(state, a + b) == Effect(Effect(state, a), b)
    decreases |a|
  {
    hide FrameEffect;
    if a == [] {
      assert a + b == b;
    } else {
      assert (a + b)[1..] == a[1..] + b;
      EffectOfConcatenation(if a[0].Frame? then FrameEffect(state, a[0].bytes) else state, a[1..], b);
    }
  }

  lemma ChunkInvariance(p: Parser, a: seq<byte>, b: seq<byte>)
    ensures Fed(Fed(p, a), b) == Fed(p, a + b)
  {
    hide Pieces, Residue, Effect;
    if a == [] {
      assert a + b == b;
    } else if b == [] {
      assert a + b == a;
    } else {
      var all := p.buffer + a;
      ReadingContinues(all, b);
      EffectOfConcatenation(p.state, Pieces(all), Pieces(Residue(all) + b));
      assert p.buffer + (a + b) == all + b;
    }
  }

  /** Decoding does not depend on how serial reads split the stream, over any number of reads. */
  lemma {:induction false} ReadsDoNotMatter(p: Parser, chunks: seq<seq<byte>>)
    ensures FedAll(p, chunks) == Fed(p, Concat(chunks))
    decreases |chunks|
  {
    hide Pieces, Residue, Effect;
    if chunks != [] {
      ReadsDoNotMatter(Fed(p, chunks[0]), chunks[1..]);
      ChunkInvariance(p, chunks[0], Concat(chunks[1..]));
    }
  }

  // ---------------------------------------------------------------- greedy refinement

  function Flatten(pieces: seq<Piece>): seq<byte> {
    if pieces == [] then []
    else (match pieces[0] case Noise(b) => [b] case Frame(f) => f) + Flatten(pieces[1..])
  }

  function FrameCount(pieces: seq<Piece>): nat {
    if pieces == [] then 0 else (if pieces[0].Frame? then 1 else 0) + FrameCount(pieces[1..])
  }

  ghost predicate StartsFrame(buf: seq<byte>) {
    exists n: nat :: n <= |buf| && ValidFrame(buf[..n])
  }

  /**
   The leftmost greedy reading of a byte string, as a relation: a piece is a valid frame wherever
   one starts, a byte of noise only where none starts and none can still arrive, and the rest is
   bytes about which nothing can be decided.
   */
  ghost predicate Greedy(buf: seq<byte>, pieces: seq<Piece>, rest: seq<byte>)
    decreases |pieces|
  {
    if pieces == [] then rest == buf && Parked(buf)
    else
      match pieces[0]
      case Frame(f) =>
        ValidFrame(f) && f <= buf && Greedy(buf[|f|..], pieces[1..], rest)
      case Noise(b) =>
        buf != [] && b == buf[0] && !Parked(buf) && !StartsFrame(buf) && Greedy(buf[1..], pieces[1..], rest)
  }

  lemma AcceptIsTheFrame(buf: seq<byte>, n: nat)
    requires n <= |buf| && ValidFrame(buf[..n])
    ensures Classify(buf) == Accept(n)
  {
    assert buf[..n][2..n - 1] == buf[2..n - 1];
    ChecksumOfBuffer(buf, n);
  }

  lemma RejectedStartsNothing(buf: seq<byte>)
    requires buf != [] && Classify(buf).Reject?
    ensures !StartsFrame(buf)
  {
    hide Classify;
    if StartsFrame(buf) {
      var n: nat :| n <= |buf| && ValidFrame(buf[..n]);
      AcceptIsTheFrame(buf, n);
    }
  }

  /** The parser reads greedily, so its frames are disjoint, ordered and well-checksummed. */
  lemma {:induction false} ParserIsGreedy(buf: seq<byte>)
    ensures Greedy(buf, Pieces(buf), Residue(buf))
    decreases |buf|
  {
    hide Classify, ValidFrame, StartsFrame;
    if !Parked(buf) {
      match Classify(buf)
      case Accept(n) =>
        ParserIsGreedy(buf[n..]);
        assert Pieces(buf)[0] == Frame(buf[..n]) && Pieces(buf)[1..] == Pieces(buf[n..]);
      case Reject =>
        ParserIsGreedy(buf[1..]);
        RejectedStartsNothing(buf);
        assert Pieces(buf)[0] == Noise(buf[0]) && Pieces(buf)[1..] == Pieces(buf[1..]);
    }
  }

  /** Every byte fed is a frame's, noise, or still in the buffer. */
  lemma {:induction false} NoByteIsLost(buf: seq<byte>)
    ensures Flatten(Pieces(buf)) + Residue(buf) == buf
    decreases |buf|
  {
    hide Classify;
    if Parked(buf) {
      assert Pieces(buf) == [] && Residue(buf) == buf;
    } else {
      hide Pieces, Residue, Flatten;
      var n := FirstPiece(buf);
      NoByteIsLost(buf[n..]);
      Regroup(buf, n, Flatten(Pieces(buf[n..])), Residue(buf[n..]));
    }
  }

  lemma Regroup(buf: seq<byte>, n: nat, a: seq<byte>, b: seq<byte>)
    requires n <= |buf| && a + b == buf[n..]
    ensures buf[..n] + a + b == buf
  {
    assert buf[..n] + a + b == buf[..n] + (a + b);
  }

  lemma FirstPiece(buf: seq<byte>) returns (n: nat)
    requires !Parked(buf)
    ensures 1 <= n <= |buf| && Classify(buf) == (if Classify(buf).Accept? then Accept(n) else Reject)
    ensures Residue(buf) == Residue(buf[n..]) && (Classify(buf).Reject? ==> n == 1)
    ensures Flatten(Pieces(buf)) == buf[..n] + Flatten(Pieces(buf[n..]))
    ensures FrameCount(Pieces(buf)) == (if Classify(buf).Accept? then 1 else 0) + FrameCount(Pieces(buf[n..]))
  {
    hide Classify;
    n := if Classify(buf).Accept? then Classify(buf).size else 1;
    var first := if Classify(buf).Accept? then Frame(buf[..n]) else Noise(buf[0]);
    assert Pieces(buf) == [first] + Pieces(buf[n..]);
    hide Pieces;
    assert ([first] + Pieces(buf[n..]))[1..] == Pieces(buf[n..]);
    assert first.Noise? ==> buf[..n] == [buf[0]];
  }

  /** No other reading is greedy. */
  lemma {:induction false} GreedyIsTheParser(buf: seq<byte>, pieces: seq<Piece>, rest: seq<byte>)
    requires Greedy(buf, pieces, rest)
    ensures pieces == Pieces(buf) && rest == Residue(buf)
    decreases |pieces|
  {
    if pieces != [] {
      match pieces[0]
      case Frame(f) =>
        assert buf[..|f|] == f;
        AcceptIsTheFrame(buf, |f|);
        GreedyIsTheParser(buf[|f|..], pieces[1..], rest);
      case Noise(b) =>
        GreedyIsTheParser(buf[1..], pieces[1..], rest);
    }
  }

  /** The frame counter counts the frames of the reading, modulo its 64 bits. */
  lemma {:induction false} CounterCountsFrames(state: ProtocolState, buf: seq<byte>)
    requires state.validFrameSequence < TWO_64
    ensures Effect(state, Pieces(buf)).validFrameSequence ==
            (state.validFrameSequence + FrameCount(Pieces(buf))) % TWO_64
    decreases |buf|
  {
    hide Framed, Classify, Next64;
    if !Parked(buf) {
      var n := FirstPiece(buf);
      hide Pieces, Effect, FrameCount;
      if Classify(buf).Accept? {
        StepFrame(buf, n, state);
        CounterCountsFrames(Framed(state, buf[3], buf[4..n - 1]), buf[n..]);
        Next64Adds(state.validFrameSequence, FrameCount(Pieces(buf[n..])));
      } else {
        StepOver(buf, state);
        CounterCountsFrames(state, buf[1..]);
      }
    }
  }

  /** What stays in the buffer is shorter than the longest frame. */
  lemma ResidueIsBounded(buf: seq<byte>)
    ensures |Residue(buf)| < 66
  {
    var r := Residue(buf);
  }

  /**
   What stays in the buffer could still become a frame, with one exception: three bytes whose
   length byte no frame can have are held until a fourth byte arrives.
   */
  lemma ResidueIsAFrameToBe(buf: seq<byte>)
    requires Parked(buf) && buf != []
    ensures (exists more :: more != [] && ValidFrame(buf + more)) <==>
            !(|buf| == 3 && !(3 <= buf[2] <= 64))
  {
    if |buf| == 3 && !(3 <= buf[2] <= MAX_REPORT_LENGTH) {
      assert forall more :: ValidFrame(buf + more) ==> (buf + more)[2] == buf[2];
    } else {
      var open := if |buf| == 1 then buf + [REPORT_DEVICE, 3]
                  else if |buf| == 2 then buf + [3] else buf;
      var pad: seq<byte> := seq(open[2] + 1 - |open|, i => 0);
      var body := open + pad;
      var check: byte := Sum(body[2..]) % 256;
      var f := body + [check];
      assert f[2..|f| - 1] == body[2..];
      assert ValidFrame(f);
      assert f == buf + f[|buf|..];
    }
  }

  // ---------------------------------------------------------------- the parser itself

  class RosmasterProtocolParser {
    var buffer: seq<byte>
    var state: ProtocolState

    ghost predicate Valid()
      reads this
    {
      Parked(buffer)
    }

    ghost function Value(): Parser
      reads this
    {
      Parser(buffer, state)
    }

    constructor ()
      ensures Valid() && Value() == Parser([], INITIAL_STATE)
    {
      buffer, state := [], INITIAL_STATE;
    }

    method Reset()
      modifies this
      ensures Valid() && Value() == Parser([], INITIAL_STATE)
    {
      buffer, state := [], INITIAL_STATE;
    }

    static method FindHead(data: seq<byte>) returns (at: nat)
      ensures at <= |data| && HEAD !in data[..at] && (at < |data| ==> data[at] == HEAD)
    {
      at := 0;
      while at < |data| && data[at] != HEAD
        invariant at <= |data| && HEAD !in data[..at]
      {
        assert data[..at + 1] == data[..at] + [data[at]];
        at := at + 1;
      }
    }

    method ParsePayload(fn: byte, payload: seq<byte>)
      modifies this
      ensures buffer == old(buffer) && state == Decoded(old(state), fn, payload)
    {
      if fn == REPORT_ENCODER && |payload| >= 16 {
        var index := 0;
        while index < 4
          invariant 0 <= index <= 4 && buffer == old(buffer)
          invariant state == old(state).(encoders := state.encoders)
          invariant forall i :: 0 <= i < index ==> state.encoders[i] == ReadI32(payload[4 * i..4 * i + 4])
        {
          state := state.(encoders := state.encoders[index := ReadI32(payload[4 * index..4 * index + 4])]);
          index := index + 1;
        }
        state := state.(encoderSequence := Next64(state.encoderSequence));
        assert state.encoders == EncoderReport(old(state), payload).encoders;
        return;
      }
      if fn == REPORT_MPU_RAW && |payload| >= 12 {
        state := MpuReport(state, payload);
        return;
      }
      if fn == REPORT_ICM_RAW && |payload| >= 12 {
        state := IcmReport(state, payload);
      }
    }

    method Feed(data: seq<byte>)
      requires Valid()
      modifies this
      ensures Valid() && Value() == Fed(old(Value()), data)
    {
      hide Pieces, Residue, Effect, Decoded;
      if data == [] {
        return;
      }
      buffer := buffer + data;
      while true
        invariant Effect(state, Pieces(buffer)) == Effect(old(state), Pieces(old(buffer) + data))
        invariant Residue(buffer) == Residue(old(buffer) + data)
        decreases |buffer|
      {
        var head := FindHead(buffer);
        NoiseBeforeHead(buffer, head, state);
        if head == |buffer| {
          assert buffer[head..] == [];
          buffer := [];
          ParkedReading(buffer, state);
          return;
        }
        buffer := buffer[head..];
        if |buffer| < 2 {
          ParkedReading(buffer, state);
          return;
        }
        if buffer[1] != REPORT_DEVICE {
          StepOver(buffer, state);
          buffer := buffer[1..];
          continue;
        }
        if |buffer| < 4 {
          ParkedReading(buffer, state);
          return;
        }
        var extendedLength := buffer[2];
        if extendedLength < 2 || extendedLength > MAX_REPORT_LENGTH {
          StepOver(buffer, state);
          buffer := buffer[1..];
          continue;
        }
        var frameSize := extendedLength + 2;
        if |buffer| < frameSize {
          ParkedReading(buffer, state);
          return;
        }
        var checksum: nat := buffer[2] as int + buffer[3] as int;
        var index := 4;
        assert buffer[4..4] == [];
        while index + 1 < frameSize
          invariant 4 <= index && (index < frameSize || (index == 4 && frameSize == 4))
          invariant checksum == buffer[2] as int + buffer[3] as int + Sum(buffer[4..index])
        {
          assert buffer[4..index + 1][..index - 4] == buffer[4..index];
          checksum := checksum + buffer[index];
          index := index + 1;
        }
        assert checksum == RunningChecksum(buffer, frameSize);
        var checksumValid := checksum % 256 == buffer[frameSize - 1];
        if !checksumValid {
          StepOver(buffer, state);
          buffer := buffer[1..];
          continue;
        }
        assert Classify(buffer) == Accept(frameSize);
        var payloadSize: nat := frameSize - 5;
        StepFrame(buffer, frameSize, state);
        ParsePayload(buffer[3], buffer[4..4 + payloadSize]);
        state := state.(validFrameSequence := Next64(state.validFrameSequence));
        buffer := buffer[frameSize..];
      }
    }
  }

  lemma ParkedReading(buf: seq<byte>, state: ProtocolState)
    requires Parked(buf)
    ensures Effect(state, Pieces(buf)) == state && Residue(buf) == buf
  {}

  lemma StepOver(buf: seq<byte>, state: ProtocolState)
    requires buf != [] && Classify(buf).Reject?
    ensures Effect(state, Pieces(buf)) == Effect(state, Pieces(buf[1..]))
    ensures Residue(buf) == Residue(buf[1..])
  {
    hide Classify;
    assert Pieces(buf)[1..] == Pieces(buf[1..]);
  }

  lemma StepFrame(buf: seq<byte>, n: nat, state: ProtocolState)
    requires buf != [] && Classify(buf) == Accept(n)
    ensures Effect(state, Pieces(buf)) == Effect(Framed(state, buf[3], buf[4..n - 1]), Pieces(buf[n..]))
    ensures Residue(buf) == Residue(buf[n..])
  {
    hide Classify, Framed;
    assert Pieces(buf)[1..] == Pieces(buf[n..]);
    assert buf[..n][4..n - 1] == buf[4..n - 1];
  }

  lemma {:induction false} NoiseBeforeHead(buf: seq<byte>, head: nat, state: ProtocolState)
    requires head <= |buf| && HEAD !in buf[..head]
    ensures Effect(state, Pieces(buf)) == Effect(state, Pieces(buf[head..]))
    ensures Residue(buf) == Residue(buf[head..])
    decreases head
  {
    if head > 0 {
      assert buf[0] == buf[..head][0];
      assert buf[1..][..head - 1] == buf[..head][1..];
      StepOver(buf, state);
      NoiseBeforeHead(buf[1..], head - 1, state);
      assert buf[1..][head - 1..] == buf[head..];
    }
  }
}
