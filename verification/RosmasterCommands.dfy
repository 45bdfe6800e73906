/**
 The frames the board speaks: commands out, reports in.

 Commands and reports share one layout. A command's checksum starts at 5 and runs over every byte,
 a report's runs from its length byte; FF + FC + 5 is a multiple of 256, so the two agree.
 */
module RosmasterCommands {
  import opened BoardBytes
  import opened RosmasterProtocol

  /** A floating-point argument: a number, or one of the values `isfinite` refuses. */
  datatype Double = Finite(value: real) | NotFinite

  datatype Error = InvalidArgument | OutOfRange

  datatype Result<T> = Ok(value: T) | Err(error: Error)

  /** `static_cast<int16_t>` of a double: the fraction is cut off towards zero. */
  function Truncated(x: real): int {
    if x >= 0.0 then x.Floor else -(-x).Floor
  }

  function ScaledI16(value: Double): Result<seq<byte>> {
    match value
    case NotFinite => Err(InvalidArgument)
    case Finite(v) =>
      var scaled := v * 1000.0;
      if scaled < -32768.0 || scaled > 32767.0 then Err(OutOfRange)
      else Ok(WriteI16(Truncated(scaled)))
  }

  /** What the board reads back is the command cut to whole thousandths, towards zero. */
  lemma ScaledI16RoundTrip(value: Double)
    ensures ScaledI16(value).Err? <==> value.NotFinite? || !(-32.768 <= value.value <= 32.767)
    ensures ScaledI16(value).Ok? ==>
              var sent := ReadI16(ScaledI16(value).value) as real;
              && (value.value >= 0.0 ==> sent <= value.value * 1000.0 < sent + 1.0)
              && (value.value <= 0.0 ==> sent - 1.0 < value.value * 1000.0 <= sent)
  {
    if ScaledI16(value).Ok? {
      I16RoundTrip(Truncated(value.value * 1000.0));
    }
  }

  // ---------------------------------------------------------------- framing

  /** The bytes of a command once its length is filled in and its checksum appended. */
  function Finished(command: seq<byte>): seq<byte>
    requires |command| >= 3
  {
    var c := command[2 := (|command| - 1) % 256];
    c + [(CHECKSUM_COMPLEMENT + Sum(c)) % 256]
  }

  lemma SumOfNext(s: seq<byte>, i: nat)
    requires i < |s|
    ensures Sum(s[..i + 1]) == Sum(s[..i]) + s[i]
  {
    assert s[..i + 1][..i] == s[..i];
  }

  method FinishCommand(command: seq<byte>) returns (r: seq<byte>)
    requires |command| >= 3
    ensures r == Finished(command)
  {
    r := command[2 := (|command| - 1) % 256];
    var checksum: nat := CHECKSUM_COMPLEMENT;
    assert Sum(r[..0]) == 0;
    hide Sum;
    var i := 0;
    while i < |r|
      invariant 0 <= i <= |r| && checksum == CHECKSUM_COMPLEMENT + Sum(r[..i])
    {
      SumOfNext(r, i);
      checksum := checksum + r[i];
      i := i + 1;
    }
    assert r[..i] == r;
    r := r + [checksum % 256];
  }

  function CommandHeader(fn: byte): seq<byte> {
    [HEAD, COMMAND_DEVICE, 0, fn]
  }

  /** The board's framing of a report: a command's, from the other device byte. */
  function MakeReport(fn: byte, payload: seq<byte>): seq<byte> {
    Finished(CommandHeader(fn) + payload)[1 := REPORT_DEVICE]
  }

  /** With its device byte exchanged, every finished command of a legal length is a valid report frame. */
  lemma CommandIsAFrame(fn: byte, payload: seq<byte>)
    requires |payload| + 3 <= 64
    ensures var f := MakeReport(fn, payload);
      ValidFrame(f) && |f| == |payload| + 5 && f[3] == fn && f[4..|f| - 1] == payload
  {
    var command := CommandHeader(fn) + payload;
    var c := command[2 := (|command| - 1) % 256];
    var f := MakeReport(fn, payload);
    assert c == [HEAD] + [COMMAND_DEVICE] + c[2..];
    SumOfOne(HEAD);
    SumOfOne(COMMAND_DEVICE);
    SumAppend([HEAD], [COMMAND_DEVICE]);
    SumAppend([HEAD] + [COMMAND_DEVICE], c[2..]);
    assert f[2..|f| - 1] == c[2..];
    assert (CHECKSUM_COMPLEMENT + Sum(c)) % 256 == Sum(c[2..]) % 256;
  }

  /** What the board reports is what the parser counts, whatever follows it in the stream. */
  lemma ReportRoundTrip(fn: byte, payload: seq<byte>, rest: seq<byte>, state: ProtocolState)
    requires |payload| + 3 <= 64
    ensures var stream := MakeReport(fn, payload) + rest;
      && Effect(state, Pieces(stream)) == Effect(Framed(state, fn, payload), Pieces(rest))
      && Residue(stream) == Residue(rest)
  {
    hide Framed, Pieces, Effect, Residue;
    var f := MakeReport(fn, payload);
    var stream := f + rest;
    CommandIsAFrame(fn, payload);
    assert stream[..|f|] == f && stream[|f|..] == rest && stream[4..|f| - 1] == payload;
    AcceptIsTheFrame(stream, |f|);
    StepFrame(stream, |f|, state);
  }

  /** A report cut short is kept whole, and decodes to nothing yet. */
  lemma CutReportIsParked(fn: byte, payload: seq<byte>, n: nat)
    requires |payload| + 3 <= 64 && n < |payload| + 5
    ensures |MakeReport(fn, payload)| == |payload| + 5 && Parked(MakeReport(fn, payload)[..n])
  {
    CommandIsAFrame(fn, payload);
  }

  // ---------------------------------------------------------------- what the board's reports say

  /** Sixteen-bit words as the board sends them, low byte first. */
  function Words(values: seq<int>): (b: seq<byte>)
    ensures |b| == 2 * |values|
  {
    if values == [] then [] else WriteI16(values[0]) + Words(values[1..])
  }

  lemma {:induction false} WordAt(values: seq<int>, extra: seq<byte>, k: nat)
    requires k < |values| && -32768 <= values[k] < 32768
    ensures ReadI16((Words(values) + extra)[2 * k..2 * k + 2]) == values[k]
  {
    hide ReadI16, WriteI16;
    I16RoundTrip(values[k]);
    if k == 0 {
      assert (Words(values) + extra)[0..2] == WriteI16(values[0]);
    } else {
      WordAt(values[1..], extra, k - 1);
      assert (Words(values) + extra)[2 * k..2 * k + 2] == (Words(values[1..]) + extra)[2 * (k - 1)..2 * (k - 1) + 2];
    }
  }

  predicate SixWords(values: seq<int>) {
    |values| == 6 && forall k :: 0 <= k < 6 ==> -32768 <= values[k] < 32768
  }

  /** What the parser shows after a single report, whatever it showed before. */
  function AfterReport(state: ProtocolState, fn: byte, payload: seq<byte>): ProtocolState
    requires |payload| + 3 <= MAX_REPORT_LENGTH
  {
    Fed(Parser([], state), MakeReport(fn, payload)).state
  }

  lemma ReportIsRead(state: ProtocolState, fn: byte, payload: seq<byte>)
    requires |payload| + 3 <= MAX_REPORT_LENGTH
    ensures AfterReport(state, fn, payload) == Framed(state, fn, payload)
  {
    hide Framed, MakeReport, Pieces, Residue;
    var f := MakeReport(fn, payload);
    CommandIsAFrame(fn, payload);
    ReportRoundTrip(fn, payload, [], state);
    ParkedReading([], Framed(state, fn, payload));
    assert f + [] == f && [] + f == f;
  }

  /** Nothing but the inertial readings and their counter, and the count of frames, has changed. */
  predicate InertialOnly(s: ProtocolState, t: ProtocolState) {
    t.encoders == s.encoders && t.encoderSequence == s.encoderSequence &&
    t.imuSequence == Next64(s.imuSequence) && t.validFrameSequence == Next64(s.validFrameSequence)
  }

  /** The encoder report: four counts as the board sends them, wrapped to 32 bits, whatever follows them. */
  lemma EncoderReportMeans(counts: seq<int>, extra: seq<byte>, state: ProtocolState)
    requires |counts| == 4 && |extra| + 19 <= 64
    ensures var t := AfterReport(state, 0x0D, WriteI32(counts[0]) + WriteI32(counts[1]) + WriteI32(counts[2]) + WriteI32(counts[3]) + extra);
            && t.encoders == [Wrap32(counts[0]), Wrap32(counts[1]), Wrap32(counts[2]), Wrap32(counts[3])]
            && t.encoderSequence == Next64(state.encoderSequence) && t.validFrameSequence == Next64(state.validFrameSequence)
            && t.angularVelocity == state.angularVelocity && t.linearAcceleration == state.linearAcceleration
            && t.imuSequence == state.imuSequence
  {
    var p := WriteI32(counts[0]) + WriteI32(counts[1]) + WriteI32(counts[2]) + WriteI32(counts[3]) + extra;
    assert p[0..4] == WriteI32(counts[0]) && p[4..8] == WriteI32(counts[1])
        && p[8..12] == WriteI32(counts[2]) && p[12..16] == WriteI32(counts[3]);
    I32RoundTrip(counts[0]);
    I32RoundTrip(counts[1]);
    I32RoundTrip(counts[2]);
    I32RoundTrip(counts[3]);
    hide WriteI32, ReadI32, AfterReport, Next64;
    ReportIsRead(state, 0x0D, p);
  }

  /** The first inertial report: rates in 3754.9ths, the second and third reversed, accelerations in 1671.84ths. */
  lemma MpuReportMeans(values: seq<int>, extra: seq<byte>, state: ProtocolState)
    requires SixWords(values) && |extra| + 15 <= 64
    ensures var t := AfterReport(state, 0x0B, Words(values) + extra);
            && InertialOnly(state, t)
            && t.angularVelocity[0] * 3754.9 == values[0] as real
            && t.angularVelocity[1] * 3754.9 == -(values[1] as real)
            && t.angularVelocity[2] * 3754.9 == -(values[2] as real)
            && forall i :: 0 <= i < 3 ==> t.linearAcceleration[i] * 1671.84 == values[3 + i] as real
  {
    hide AfterReport, Words, ReadI16, Framed;
    SixWordsRead(values, extra);
    ReportIsRead(state, 0x0B, Words(values) + extra);
    MpuDecodes(values, Words(values) + extra, state);
  }

  /** The payload holds these six words. */
  predicate Holds(payload: seq<byte>, values: seq<int>)
    requires |values| == 6
  {
    |payload| >= 12 && forall k :: 0 <= k < 6 ==> ReadI16(payload[2 * k..2 * k + 2]) == values[k]
  }

  lemma Unscaled(x: real, unit: real)
    requires unit != 0.0
    ensures x * (1.0 / unit) * unit == x && x * -(1.0 / unit) * unit == -x
  {
    var inverse := 1.0 / unit;
    assert inverse * unit == 1.0;
    assert x * inverse * unit == x * (inverse * unit);
    assert x * -inverse == -(x * inverse);
  }

  lemma MpuDecodes(values: seq<int>, payload: seq<byte>, state: ProtocolState)
    requires |values| == 6 && Holds(payload, values)
    ensures var t := Framed(state, 0x0B, payload);
            && InertialOnly(state, t)
            && t.angularVelocity[0] * 3754.9 == values[0] as real
            && t.angularVelocity[1] * 3754.9 == -(values[1] as real)
            && t.angularVelocity[2] * 3754.9 == -(values[2] as real)
            && forall i :: 0 <= i < 3 ==> t.linearAcceleration[i] * 1671.84 == values[3 + i] as real
  {
    hide ReadI16, Next64;
    Unscaled(values[0] as real, 3754.9);
    Unscaled(values[1] as real, 3754.9);
    Unscaled(values[2] as real, 3754.9);
    Unscaled(values[3] as real, 1671.84);
    Unscaled(values[4] as real, 1671.84);
    Unscaled(values[5] as real, 1671.84);
  }

  /** The second: rates and accelerations in thousandths, none reversed. */
  lemma IcmReportMeans(values: seq<int>, extra: seq<byte>, state: ProtocolState)
    requires SixWords(values) && |extra| + 15 <= 64
    ensures var t := AfterReport(state, 0x0E, Words(values) + extra);
            && InertialOnly(state, t)
            && (forall i :: 0 <= i < 3 ==> t.angularVelocity[i] * 1000.0 == values[i] as real)
            && (forall i :: 0 <= i < 3 ==> t.linearAcceleration[i] * 1000.0 == values[3 + i] as real)
  {
    hide AfterReport, Words, ReadI16, Framed;
    SixWordsRead(values, extra);
    ReportIsRead(state, 0x0E, Words(values) + extra);
    IcmDecodes(values, Words(values) + extra, state);
  }

  lemma IcmDecodes(values: seq<int>, payload: seq<byte>, state: ProtocolState)
    requires |values| == 6 && Holds(payload, values)
    ensures var t := Framed(state, 0x0E, payload);
            && InertialOnly(state, t)
            && (forall i :: 0 <= i < 3 ==> t.angularVelocity[i] * 1000.0 == values[i] as real)
            && (forall i :: 0 <= i < 3 ==> t.linearAcceleration[i] * 1000.0 == values[3 + i] as real)
  {
    hide ReadI16, Next64;
    forall i | 0 <= i < 6 ensures values[i] as real * (1.0 / 1000.0) * 1000.0 == values[i] as real {
      Unscaled(values[i] as real, 1000.0);
    }
  }

  lemma SixWordsRead(values: seq<int>, extra: seq<byte>)
    requires SixWords(values)
    ensures Holds(Words(values) + extra, values)
  {
    hide Words, ReadI16;
    forall k | 0 <= k < 6 ensures ReadI16((Words(values) + extra)[2 * k..2 * k + 2]) == values[k] {
      WordAt(values, extra, k);
    }
  }

  /** Every other report, and one too short, is only counted. */
  lemma OtherReportsAreCounted(fn: byte, payload: seq<byte>, state: ProtocolState)
    requires |payload| + 3 <= MAX_REPORT_LENGTH
    requires (fn == 0x0D ==> |payload| < 16) && (fn == 0x0B || fn == 0x0E ==> |payload| < 12)
    ensures AfterReport(state, fn, payload) == state.(validFrameSequence := Next64(state.validFrameSequence))
  {
    hide AfterReport;
    ReportIsRead(state, fn, payload);
  }

  // ---------------------------------------------------------------- motion

  function MotionPayload(carType: byte, x: Double, y: Double, yaw: Double): Result<seq<byte>> {
    match ScaledI16(x)
    case Err(e) => Err(e)
    case Ok(a) =>
      match ScaledI16(y)
      case Err(e) => Err(e)
      case Ok(b) =>
        match ScaledI16(yaw)
        case Err(e) => Err(e)
        case Ok(c) => Ok([carType] + a + b + c)
  }

  method AppendScaledI16(command: seq<byte>, value: Double) returns (r: Result<seq<byte>>)
    ensures r == match ScaledI16(value) case Ok(b) => Ok(command + b) case Err(e) => Err(e)
  {
    if value.NotFinite? {
      return Err(InvalidArgument);
    }
    var scaled := value.value * 1000.0;
    if scaled < -32768.0 || scaled > 32767.0 {
      return Err(OutOfRange);
    }
    var raw := Truncated(scaled) % 0x1_0000;
    var grown: seq<byte> := command + [raw % 0x100];
    grown := grown + [raw / 0x100];
    assert grown == command + WriteI16(Truncated(scaled));
    r := Ok(grown);
  }

  method MakeMotionCommand(carType: byte, x: Double, y: Double, yaw: Double) returns (r: Result<seq<byte>>)
    ensures r.Ok? <==> MotionPayload(carType, x, y, yaw).Ok?
    ensures r.Ok? ==> r.value == Finished(CommandHeader(MOTION_FUNCTION) + MotionPayload(carType, x, y, yaw).value)
    ensures r.Err? ==> r.error == MotionPayload(carType, x, y, yaw).error
  {
    var header := CommandHeader(MOTION_FUNCTION) + [carType];
    r := AppendScaledI16(header, x);
    if r.Err? { return; }
    r := AppendScaledI16(r.value, y);
    if r.Err? { return; }
    r := AppendScaledI16(r.value, yaw);
    if r.Err? { return; }
    assert r.value == CommandHeader(MOTION_FUNCTION) + MotionPayload(carType, x, y, yaw).value;
    var command := FinishCommand(r.value);
    r := Ok(command);
  }

  /** A motion command carries the three truncated speeds in order, in a frame that checks. */
  lemma MotionCommandDecodes(carType: byte, x: Double, y: Double, yaw: Double)
    ensures MotionPayload(carType, x, y, yaw).Ok? <==> ScaledI16(x).Ok? && ScaledI16(y).Ok? && ScaledI16(yaw).Ok?
    ensures MotionPayload(carType, x, y, yaw).Ok? ==>
      var command := Finished(CommandHeader(MOTION_FUNCTION) + MotionPayload(carType, x, y, yaw).value);
      && |command| == 12 && command[..4] == [0xFF, 0xFC, 10, 0x12]
      && ValidFrame(command[1 := REPORT_DEVICE]) && command[3] == MOTION_FUNCTION && command[4] == carType
      && ReadI16(command[5..7]) == Truncated(x.value * 1000.0)
      && ReadI16(command[7..9]) == Truncated(y.value * 1000.0)
      && ReadI16(command[9..11]) == Truncated(yaw.value * 1000.0)
  {
    var payload := MotionPayload(carType, x, y, yaw);
    if payload.Ok? {
      CommandIsAFrame(MOTION_FUNCTION, payload.value);
      var command := Finished(CommandHeader(MOTION_FUNCTION) + payload.value);
      assert command[4..11] == payload.value;
      assert command[5..7] == ScaledI16(x).value && command[7..9] == ScaledI16(y).value
          && command[9..11] == ScaledI16(yaw).value;
      I16RoundTrip(Truncated(x.value * 1000.0));
      I16RoundTrip(Truncated(y.value * 1000.0));
      I16RoundTrip(Truncated(yaw.value * 1000.0));
    }
  }
}
