/**
 The base driver's inspection interlock: a motion hold that must be taken before the camera may be
 turned, and the velocity, watchdog and PID paths that share the serial port with it.
 */
module InspectionHold {
  const LEVEL: int := 94
  const CACHE_SIZE: nat := 64

  /** What is sent to the board. A servo write records the command it answers and the board angle it leaves. */
  datatype Call =
    | Motion(x: real, y: real, z: real)
    | ServoWrite(id: string, expected: int, command: int, sent: bool, board: int)
    | PidWrite

  const ZERO := Motion(0.0, 0.0, 0.0)

  datatype Cached = Cached(id: string, expected: int, command: int, sent: bool, board: int)

  datatype Config = Config(
    epoch: string, maxLinearX: real, maxLinearY: real, maxAngularZ: real, holonomic: bool, commandTimeout: real)

  /** The command cache lists its entries in insertion order. */
  datatype State = State(
    owner: string, released: string, board: int, cache: seq<Cached>, watchdogStopped: bool, lastCommandNs: int)

  datatype HoldRequest = HoldRequest(owner: string, epoch: string, hold: bool)

  datatype HoldResponse = HoldResponse(accepted: bool, held: bool, board: int)

  datatype ServoRequest = ServoRequest(
    owner: string, epoch: string, id: string, expected: int, command: int, deadlineNs: int)

  datatype ServoResponse = ServoResponse(sent: bool, board: int)

  datatype Outcome<R> = Outcome(state: State, calls: seq<Call>, response: R)

  // ---------------------------------------------------------------- the specification

  function Held(cfg: Config, s: State, r: HoldRequest): Outcome<HoldResponse> {
    var refused := Outcome(s, [], HoldResponse(false, s.owner != "", s.board));
    if !(16 <= |r.owner| <= 100) then refused
    else if r.epoch != "" && r.epoch != cfg.epoch then refused
    else if r.hold then
      if s.owner != "" && s.owner != r.owner then refused
      else Outcome(s.(owner := r.owner, watchdogStopped := true), [ZERO], HoldResponse(true, true, s.board))
    else if r.epoch != cfg.epoch then refused
    else if s.owner == "" && r.owner == s.released then Outcome(s, [], HoldResponse(true, false, s.board))
    else if s.owner != r.owner || s.board != LEVEL then refused
    else Outcome(s.(owner := "", released := r.owner, watchdogStopped := true), [ZERO], HoldResponse(true, false, s.board))
  }

  function Lookup(cache: seq<Cached>, id: string): (found: seq<Cached>)
    ensures found == [] <==> forall c :: c in cache ==> c.id != id
    ensures found != [] ==> |found| == 1 && found[0] in cache && found[0].id == id
  {
    if cache == [] then []
    else if cache[0].id == id then [cache[0]]
    else Lookup(cache[1..], id)
  }

  function Remember(cache: seq<Cached>, c: Cached): seq<Cached> {
    var longer := cache + [c];
    if |longer| > CACHE_SIZE then longer[1..] else longer
  }

  /** A request within limits, whose deadline is at most half a second away. */
  predicate Executable(s: State, r: ServoRequest, nowNs: int) {
    && 0 < r.deadlineNs - nowNs <= 500_000_000
    && 16 <= |r.id| <= 100
    && 57 <= r.command <= 106
    && -1 <= r.command - s.board <= 1
    && r.expected == s.board
    && s.watchdogStopped
  }

  /** written is whether the serial write of this request would complete. */
  function Turned(cfg: Config, s: State, r: ServoRequest, nowNs: int, written: bool): Outcome<ServoResponse> {
    var refused := Outcome(s, [], ServoResponse(false, s.board));
    if r.epoch != cfg.epoch || s.owner == "" || r.owner != s.owner then refused
    else
      var found := Lookup(s.cache, r.id);
      if found != [] then
        if found[0].expected != r.expected || found[0].command != r.command then refused
        else Outcome(s, [], ServoResponse(found[0].sent, found[0].board))
      else if !Executable(s, r, nowNs) then refused
      else
        var board := if written then r.command else s.board;
        Outcome(s.(board := board, cache := Remember(s.cache, Cached(r.id, r.expected, r.command, written, board))),
                [ServoWrite(r.id, r.expected, r.command, written, board)], ServoResponse(written, board))
  }

  function Min(x: real, y: real): real {
    if y < x then y else x
  }

  function Max(x: real, y: real): real {
    if y > x then y else x
  }

  function Clamp(value: real, lower: real, upper: real): real {
    Max(lower, Min(upper, value))
  }

  /** A velocity command; finite says whether all three components are. */
  function Driven(cfg: Config, s: State, finite: bool, x: real, y: real, z: real, nowNs: int): Outcome<()> {
    if !finite then Outcome(s, [], ())
    else
      var limited := Motion(
        Clamp(x, -cfg.maxLinearX, cfg.maxLinearX),
        if cfg.holonomic then Clamp(y, -cfg.maxLinearY, cfg.maxLinearY) else 0.0,
        Clamp(z, -cfg.maxAngularZ, cfg.maxAngularZ));
      var motion := if s.owner != "" then ZERO else limited;
      Outcome(s.(lastCommandNs := nowNs, watchdogStopped := motion == ZERO), [motion], ())
  }

  predicate CommandStale(cfg: Config, s: State, nowNs: int) {
    (nowNs - s.lastCommandNs) as real * 0.000000001 >= cfg.commandTimeout
  }

  function Watched(cfg: Config, s: State, nowNs: int): Outcome<()> {
    if CommandStale(cfg, s, nowNs) && !s.watchdogStopped then Outcome(s.(watchdogStopped := true), [ZERO], ())
    else Outcome(s, [], ())
  }

  /**
   A request to apply PID values: refused while moving, otherwise three stops come before the values. It succeeds
   when the board reads the same values back, which is what confirmed says.
   */
  function Tuned(s: State, valid: bool, apply: bool, confirmed: bool): Outcome<bool> {
    if !valid || (apply && !s.watchdogStopped) then Outcome(s, [], false)
    else if apply then Outcome(s, [ZERO, ZERO, ZERO, PidWrite], confirmed)
    else Outcome(s, [], true)
  }

  // ---------------------------------------------------------------- runs

  datatype Event =
    | Hold(hold: HoldRequest)
    | Servo(servo: ServoRequest, servoNs: int, written: bool)
    | Velocity(finite: bool, x: real, y: real, z: real, velocityNs: int)
    | Timer(timerNs: int)
    | Pid(valid: bool, apply: bool, confirmed: bool)

  datatype World = World(state: State, log: seq<Call>)

  function Apply(cfg: Config, w: World, e: Event): World {
    match e
    case Hold(r) => var o := Held(cfg, w.state, r); World(o.state, w.log + o.calls)
    case Servo(r, now, written) => var o := Turned(cfg, w.state, r, now, written); World(o.state, w.log + o.calls)
    case Velocity(f, x, y, z, now) => var o := Driven(cfg, w.state, f, x, y, z, now); World(o.state, w.log + o.calls)
    case Timer(now) => var o := Watched(cfg, w.state, now); World(o.state, w.log + o.calls)
    case Pid(valid, apply, confirmed) => var o := Tuned(w.state, valid, apply, confirmed); World(o.state, w.log + o.calls)
  }

  /** The driver stops the vehicle three times and levels the camera before it takes requests. */
  function Boot(startNs: int): World {
    World(State("", "", LEVEL, [], true, startNs), [ZERO, ZERO, ZERO])
  }

  function Run(cfg: Config, startNs: int, events: seq<Event>): World {
    if events == [] then Boot(startNs)
    else Apply(cfg, Run(cfg, startNs, events[..|events| - 1]), events[|events| - 1])
  }

  // ---------------------------------------------------------------- reading the log of calls

  function BoardAfter(log: seq<Call>): int {
    if log == [] then LEVEL
    else
      var last := log[|log| - 1];
      if last.ServoWrite? && last.sent then last.command else BoardAfter(log[..|log| - 1])
  }

  function LastMotion(log: seq<Call>): Call {
    if log == [] then ZERO
    else if log[|log| - 1].Motion? then log[|log| - 1]
    else LastMotion(log[..|log| - 1])
  }

  function Attempts(log: seq<Call>): seq<Cached> {
    if log == [] then []
    else
      var last := log[|log| - 1];
      var earlier := Attempts(log[..|log| - 1]);
      if last.ServoWrite? then earlier + [Cached(last.id, last.expected, last.command, last.sent, last.board)] else earlier
  }

  function Latest(attempts: seq<Cached>): seq<Cached> {
    if |attempts| > CACHE_SIZE then attempts[|attempts| - CACHE_SIZE..] else attempts
  }

  /** What may be sent after the calls already sent. */
  predicate Permitted(before: seq<Call>, c: Call) {
    match c
    case Motion(_, _, _) => c == ZERO || BoardAfter(before) == LEVEL
    case ServoWrite(_, expected, command, sent, board) =>
      57 <= command <= 106 && -1 <= command - BoardAfter(before) <= 1 && expected == BoardAfter(before) &&
      LastMotion(before) == ZERO && board == BoardAfter(before + [c])
    case PidWrite => LastMotion(before) == ZERO
  }

  predicate Safe(log: seq<Call>) {
    forall k :: 0 <= k < |log| ==> Permitted(log[..k], log[k])
  }

  /** Attempts with the same command id are more than a cache apart. */
  predicate Spaced(attempts: seq<Cached>) {
    forall i, j :: 0 <= i < j < |attempts| && attempts[i].id == attempts[j].id ==> j - i > CACHE_SIZE
  }

  predicate Invariant(w: World) {
    && w.state.board == BoardAfter(w.log)
    && (w.state.watchdogStopped <==> LastMotion(w.log) == ZERO)
    && w.state.cache == Latest(Attempts(w.log))
    && (w.state.owner == "" ==> w.state.board == LEVEL)
    && (w.state.owner != "" ==> w.state.watchdogStopped)
    && Safe(w.log)
    && Spaced(Attempts(w.log))
  }

  lemma LogGrows(log: seq<Call>, c: Call)
    ensures BoardAfter(log + [c]) == if c.ServoWrite? && c.sent then c.command else BoardAfter(log)
    ensures LastMotion(log + [c]) == if c.Motion? then c else LastMotion(log)
    ensures Attempts(log + [c]) ==
            if c.ServoWrite? then Attempts(log) + [Cached(c.id, c.expected, c.command, c.sent, c.board)] else Attempts(log)
    ensures Safe(log) && Permitted(log, c) ==> Safe(log + [c])
  {
    assert (log + [c])[..|log + [c]| - 1] == log;
    forall k | 0 <= k < |log + [c]| && Safe(log) && Permitted(log, c)
      ensures Permitted((log + [c])[..k], (log + [c])[k])
    {
      if k < |log| {
        assert (log + [c])[..k] == log[..k];
      }
    }
  }

  /** A stop keeps everything and counts as the last motion. */
  lemma StopKeeps(w: World)
    requires Invariant(w)
    ensures Invariant(World(w.state.(watchdogStopped := true), w.log + [ZERO]))
  {
    hide Safe, Spaced, BoardAfter, LastMotion, Attempts, Latest;
    LogGrows(w.log, ZERO);
  }

  lemma HoldKeeps(cfg: Config, w: World, r: HoldRequest)
    requires Invariant(w)
    ensures Invariant(Apply(cfg, w, Hold(r)))
  {
    hide Safe, Spaced, BoardAfter, LastMotion, Attempts, Latest;
    StopKeeps(w);
    assert w.log + [] == w.log;
  }

  lemma RememberIsLatest(attempts: seq<Cached>, c: Cached)
    ensures Remember(Latest(attempts), c) == Latest(attempts + [c])
  {}

  lemma NewIdIsSpaced(attempts: seq<Cached>, c: Cached)
    requires Spaced(attempts) && Lookup(Latest(attempts), c.id) == []
    ensures Spaced(attempts + [c])
  {
    forall i | 0 <= i < |attempts| && |attempts| - i <= CACHE_SIZE
      ensures attempts[i].id != c.id
    {
      assert attempts[i] in Latest(attempts) by {
        if |attempts| > CACHE_SIZE {
          assert Latest(attempts)[i - (|attempts| - CACHE_SIZE)] == attempts[i];
        }
      }
    }
  }

  lemma ServoKeeps(cfg: Config, w: World, r: ServoRequest, now: int, written: bool)
    requires Invariant(w)
    ensures Invariant(Apply(cfg, w, Servo(r, now, written)))
  {
    hide Safe, Spaced, BoardAfter, LastMotion, Attempts, Latest, Lookup, Remember;
    var o := Turned(cfg, w.state, r, now, written);
    assert w.log + [] == w.log;
    if o.calls != [] {
      var c := o.calls[0];
      LogGrows(w.log, c);
      var entry := Cached(c.id, c.expected, c.command, c.sent, c.board);
      RememberIsLatest(Attempts(w.log), entry);
      NewIdIsSpaced(Attempts(w.log), entry);
    }
  }

  lemma VelocityKeeps(cfg: Config, w: World, f: bool, x: real, y: real, z: real, now: int)
    requires Invariant(w)
    ensures Invariant(Apply(cfg, w, Velocity(f, x, y, z, now)))
  {
    hide Safe, Spaced, BoardAfter, LastMotion, Attempts, Latest, Clamp;
    var o := Driven(cfg, w.state, f, x, y, z, now);
    assert w.log + [] == w.log;
    if f {
      LogGrows(w.log, o.calls[0]);
    }
  }

  lemma PidWriteKeeps(w: World)
    requires Invariant(w) && w.state.watchdogStopped
    ensures Invariant(World(w.state, w.log + [PidWrite]))
  {
    hide Safe, Spaced, BoardAfter, LastMotion, Attempts, Latest;
    LogGrows(w.log, PidWrite);
  }

  lemma PidKeeps(cfg: Config, w: World, valid: bool, apply: bool, confirmed: bool)
    requires Invariant(w)
    ensures Invariant(Apply(cfg, w, Pid(valid, apply, confirmed)))
  {
    hide Safe, Spaced, BoardAfter, LastMotion, Attempts, Latest;
    assert w.log + [] == w.log;
    if valid && apply && w.state.watchdogStopped {
      StopKeeps(w);
      var w1 := World(w.state, w.log + [ZERO]);
      StopKeeps(w1);
      var w2 := World(w.state, w1.log + [ZERO]);
      StopKeeps(w2);
      var w3 := World(w.state, w2.log + [ZERO]);
      PidWriteKeeps(w3);
      assert w3.log + [PidWrite] == w.log + [ZERO, ZERO, ZERO, PidWrite];
    }
  }

  lemma TimerKeeps(cfg: Config, w: World, now: int)
    requires Invariant(w)
    ensures Invariant(Apply(cfg, w, Timer(now)))
  {
    hide Safe, Spaced, BoardAfter, LastMotion, Attempts, Latest, CommandStale;
    StopKeeps(w);
    assert w.log + [] == w.log;
  }

  /** The interlock invariant holds after every run. */
  lemma {:induction false} RunKeeps(cfg: Config, startNs: int, events: seq<Event>)
    ensures Invariant(Run(cfg, startNs, events))
    decreases |events|
  {
    hide Invariant, Apply;
    if events == [] {
      BootKeeps(startNs);
    } else {
      RunKeeps(cfg, startNs, events[..|events| - 1]);
      var w, e := Run(cfg, startNs, events[..|events| - 1]), events[|events| - 1];
      match e
      case Hold(r) => HoldKeeps(cfg, w, r);
      case Servo(r, now, written) => ServoKeeps(cfg, w, r, now, written);
      case Velocity(f, x, y, z, now) => VelocityKeeps(cfg, w, f, x, y, z, now);
      case Timer(now) => TimerKeeps(cfg, w, now);
      case Pid(valid, apply, confirmed) => PidKeeps(cfg, w, valid, apply, confirmed);
    }
  }

  lemma BootKeeps(startNs: int)
    ensures Invariant(Boot(startNs))
  {
    LogGrows([], ZERO);
    LogGrows([ZERO], ZERO);
    LogGrows([ZERO, ZERO], ZERO);
    assert [] + [ZERO] == [ZERO] && [ZERO] + [ZERO] == [ZERO, ZERO] && [ZERO, ZERO] + [ZERO] == [ZERO, ZERO, ZERO];
  }

  // ---------------------------------------------------------------- what a reader gets from it

  /** The vehicle is only ever driven with the camera level. */
  lemma MovingMeansLevel(cfg: Config, startNs: int, events: seq<Event>, k: nat)
    requires var log := Run(cfg, startNs, events).log; k < |log| && log[k].Motion? && log[k] != ZERO
    ensures BoardAfter(Run(cfg, startNs, events).log[..k]) == LEVEL
  {
    hide Run;
    RunKeeps(cfg, startNs, events);
  }

  /** Without a holder the camera is level; with one, the last motion sent was a stop. */
  lemma HolderMeansStopped(cfg: Config, startNs: int, events: seq<Event>)
    ensures var w := Run(cfg, startNs, events);
            && (w.state.owner == "" ==> BoardAfter(w.log) == LEVEL)
            && (w.state.owner != "" ==> LastMotion(w.log) == ZERO)
            && (LastMotion(w.log) != ZERO ==> BoardAfter(w.log) == LEVEL)
  {
    hide Run;
    RunKeeps(cfg, startNs, events);
  }

  /** Every camera write stays in range, moves one step at most, and is made at standstill. */
  lemma CameraMovesByOne(cfg: Config, startNs: int, events: seq<Event>, k: nat)
    requires var log := Run(cfg, startNs, events).log; k < |log| && log[k].ServoWrite?
    ensures var log := Run(cfg, startNs, events).log;
            57 <= log[k].command <= 106 && -1 <= log[k].command - BoardAfter(log[..k]) <= 1 && LastMotion(log[..k]) == ZERO
  {
    hide Run;
    RunKeeps(cfg, startNs, events);
  }

  /** Two writes of the same command id are at least 65 writes apart. */
  lemma NoIdWrittenTwice(cfg: Config, startNs: int, events: seq<Event>, i: nat, j: nat)
    requires var a := Attempts(Run(cfg, startNs, events).log); i < j < |a| && a[i].id == a[j].id
    ensures j - i >= 65
  {
    hide Run;
    RunKeeps(cfg, startNs, events);
  }

  lemma {:induction false} LookupFinds(cache: seq<Cached>, i: nat)
    requires i < |cache| && forall j :: 0 <= j < |cache| && j != i ==> cache[j].id != cache[i].id
    ensures Lookup(cache, cache[i].id) == [cache[i]]
    decreases |cache|
  {
    if i > 0 {
      assert cache[0].id != cache[i].id;
      LookupFinds(cache[1..], i - 1);
    }
  }

  lemma LatestHolds(attempts: seq<Cached>, i: nat)
    requires Spaced(attempts) && i < |attempts| && |attempts| - i <= CACHE_SIZE
    ensures Lookup(Latest(attempts), attempts[i].id) == [attempts[i]]
  {
    var cache := Latest(attempts);
    var skipped := |attempts| - |cache|;
    assert forall j :: 0 <= j < |cache| ==> cache[j] == attempts[j + skipped];
    LookupFinds(cache, i - skipped);
  }

  /**
   Asking again for a command among the last 64 written sends nothing and returns what was returned
   then; the same id with another angle is refused.
   */
  lemma AskingAgainReplays(cfg: Config, startNs: int, events: seq<Event>, i: nat, r: ServoRequest, now: int, written: bool)
    requires var w := Run(cfg, startNs, events); var a := Attempts(w.log);
             i < |a| && |a| - i <= CACHE_SIZE && a[i].id == r.id &&
             r.epoch == cfg.epoch && r.owner == w.state.owner != ""
    ensures var w := Run(cfg, startNs, events); var a := Attempts(w.log); var o := Turned(cfg, w.state, r, now, written);
            o.state == w.state && o.calls == [] &&
            if r.expected == a[i].expected && r.command == a[i].command then o.response == ServoResponse(a[i].sent, a[i].board)
            else !o.response.sent
  {
    hide Run, Executable, Lookup, Spaced, Latest;
    RunKeeps(cfg, startNs, events);
    LatestHolds(Attempts(Run(cfg, startNs, events).log), i);
  }

  /** Control gains are changed only at standstill. */
  lemma GainsChangeAtStandstill(cfg: Config, startNs: int, events: seq<Event>, k: nat)
    requires var log := Run(cfg, startNs, events).log; k < |log| && log[k].PidWrite?
    ensures LastMotion(Run(cfg, startNs, events).log[..k]) == ZERO
  {
    hide Run;
    RunKeeps(cfg, startNs, events);
    assert Permitted(Run(cfg, startNs, events).log[..k], Run(cfg, startNs, events).log[k]);
  }

  /** And they are written, after three stops, whenever valid ones are to be applied then; the board must confirm them. */
  lemma GainsAreWritten(cfg: Config, startNs: int, events: seq<Event>, valid: bool, apply: bool, confirmed: bool)
    ensures var log := Run(cfg, startNs, events).log;
            Run(cfg, startNs, events + [Pid(valid, apply, confirmed)]).log ==
            log + if valid && apply && LastMotion(log) == ZERO then [ZERO, ZERO, ZERO, PidWrite] else []
    ensures Tuned(Run(cfg, startNs, events).state, valid, apply, confirmed).response <==>
            valid && (apply ==> LastMotion(Run(cfg, startNs, events).log) == ZERO && confirmed)
  {
    hide Run, Safe, Spaced, Latest, BoardAfter, LastMotion, Attempts;
    RunKeeps(cfg, startNs, events);
    RunExtends(cfg, startNs, events, Pid(valid, apply, confirmed));
  }

  /** Nobody but the holder changes anything with a hold or servo request. */
  lemma OthersAreRefused(cfg: Config, s: State, h: HoldRequest, r: ServoRequest, now: int, written: bool)
    requires s.owner != ""
    ensures h.owner != s.owner ==> Held(cfg, s, h) == Outcome(s, [], HoldResponse(false, true, s.board))
    ensures r.owner != s.owner ==> Turned(cfg, s, r, now, written) == Outcome(s, [], ServoResponse(false, s.board))
  {}

  lemma RunExtends(cfg: Config, startNs: int, events: seq<Event>, e: Event)
    ensures Run(cfg, startNs, events + [e]) == Apply(cfg, Run(cfg, startNs, events), e)
  {
    assert (events + [e])[..|events|] == events;
  }

  /** The value within the limit that comes nearest. */
  predicate Nearest(m: real, value: real, limit: real) {
    -limit <= m <= limit && (-limit <= value <= limit ==> m == value) &&
    (value > limit ==> m == limit) && (value < -limit ==> m == -limit)
  }

  /**
   In every run a finite velocity command without a holder is sent as it is, as far as the limits allow; with a
   holder a stop is sent in its place, and nothing is for a command that is not finite.
   */
  lemma CommandsAreObeyed(cfg: Config, startNs: int, events: seq<Event>, finite: bool, x: real, y: real, z: real, now: int)
    requires cfg.maxLinearX >= 0.0 && cfg.maxLinearY >= 0.0 && cfg.maxAngularZ >= 0.0
    ensures var w, log := Run(cfg, startNs, events), Run(cfg, startNs, events + [Velocity(finite, x, y, z, now)]).log;
            if !finite then log == w.log
            else if w.state.owner != "" then log == w.log + [Motion(0.0, 0.0, 0.0)]
            else
              |log| == |w.log| + 1 && w.log < log && log[|w.log|].Motion? &&
              var m := log[|w.log|];
              Nearest(m.x, x, cfg.maxLinearX) && Nearest(m.z, z, cfg.maxAngularZ) &&
              if cfg.holonomic then Nearest(m.y, y, cfg.maxLinearY) else m.y == 0.0
  {
    hide Run;
    RunExtends(cfg, startNs, events, Velocity(finite, x, y, z, now));
  }

  /**
   In every run a hold is granted to anyone of a valid token while nobody else has it, and a release to its holder
   with the camera at 94, or again to the last who released it; the grant and the stop that goes with it take effect.
   */
  lemma HoldsAreGranted(cfg: Config, startNs: int, events: seq<Event>, r: HoldRequest)
    ensures var w, o := Run(cfg, startNs, events), Held(cfg, Run(cfg, startNs, events).state, r);
            && (o.response.accepted <==>
                  16 <= |r.owner| <= 100 && (r.epoch == cfg.epoch || (r.hold && r.epoch == "")) &&
                  if r.hold then w.state.owner == "" || w.state.owner == r.owner
                  else (w.state.owner == r.owner && BoardAfter(w.log) == 94) ||
                       (w.state.owner == "" && w.state.released == r.owner))
            && (if o.response.accepted then o.state.owner == (if r.hold then r.owner else "")
                else o.state == w.state && o.calls == [])
            && (o.response.accepted && o.state.owner != w.state.owner ==> o.calls == [Motion(0.0, 0.0, 0.0)])
            && (o.state.owner == "" != w.state.owner ==> o.state.released == r.owner)
            && (o.response.accepted ==> (o.response.held <==> r.hold))
  {
    hide Run, Safe, Spaced, Latest;
    RunKeeps(cfg, startNs, events);
  }

  /**
   In every run a camera step of the holder that was not asked for lately is written if and only if it is in time,
   within 57 to 106, at most one step from the board's last angle, which it names, and the vehicle was stopped last.
   */
  lemma FreshStepsAreWritten(cfg: Config, startNs: int, events: seq<Event>, r: ServoRequest, now: int, written: bool)
    requires var w := Run(cfg, startNs, events);
             r.epoch == cfg.epoch && r.owner == w.state.owner != "" &&
             forall c :: c in Latest(Attempts(w.log)) ==> c.id != r.id
    ensures var w := Run(cfg, startNs, events); var o := Turned(cfg, w.state, r, now, written);
            var board := BoardAfter(w.log);
            var fits := 0 < r.deadlineNs - now <= 500_000_000 && 16 <= |r.id| <= 100 && 57 <= r.command <= 106 &&
                        -1 <= r.command - board <= 1 && r.expected == board && LastMotion(w.log) == ZERO;
            && o.calls == (if fits then [ServoWrite(r.id, board, r.command, written, if written then r.command else board)] else [])
            && (o.response.sent <==> fits && written)
            && o.response.board == (if fits && written then r.command else board) == o.state.board
  {
    hide Run, Safe, Spaced, Latest, BoardAfter, LastMotion, Attempts;
    RunKeeps(cfg, startNs, events);
  }

  /** When the last velocity command came, or the driver started. */
  function LastCommandAt(startNs: int, events: seq<Event>): int {
    if events == [] then startNs
    else
      var e := events[|events| - 1];
      if e.Velocity? && e.finite then e.velocityNs else LastCommandAt(startNs, events[..|events| - 1])
  }

  lemma {:induction false} CommandTimeKept(cfg: Config, startNs: int, events: seq<Event>)
    ensures Run(cfg, startNs, events).state.lastCommandNs == LastCommandAt(startNs, events)
    decreases |events|
  {
    hide Lookup, Executable;
    if events != [] {
      CommandTimeKept(cfg, startNs, events[..|events| - 1]);
    }
  }

  /** In every run the timer sends a stop if and only if the vehicle was last sent a motion and no command came for the timeout. */
  lemma WatchdogStops(cfg: Config, startNs: int, events: seq<Event>, now: int)
    ensures var log := Run(cfg, startNs, events).log;
            Run(cfg, startNs, events + [Timer(now)]).log ==
            log + if LastMotion(log) != ZERO && (now - LastCommandAt(startNs, events)) as real / 1000000000.0 >= cfg.commandTimeout
                  then [Motion(0.0, 0.0, 0.0)] else []
  {
    hide Run, Safe, Spaced, Latest, BoardAfter, LastMotion, Attempts;
    RunKeeps(cfg, startNs, events);
    CommandTimeKept(cfg, startNs, events);
    RunExtends(cfg, startNs, events, Timer(now));
  }

  /** A stale velocity command leaves a stop as the last motion after the next timer tick. */
  lemma StaleCommandStops(cfg: Config, startNs: int, events: seq<Event>, nowNs: int)
    requires CommandStale(cfg, Run(cfg, startNs, events).state, nowNs)
    ensures LastMotion(Run(cfg, startNs, events + [Timer(nowNs)]).log) == ZERO
  {
    hide CommandStale;
    RunKeeps(cfg, startNs, events + [Timer(nowNs)]);
    assert (events + [Timer(nowNs)])[..|events + [Timer(nowNs)]| - 1] == events;
  }

  // ---------------------------------------------------------------- the node

  class RosmasterNode {
    const config: Config
    var holdOwner: string
    var releasedOwner: string
    var boardCommand: int
    var commandCache: seq<Cached>
    var watchdogStopped: bool
    var lastCommandNs: int

    function Value(): State
      reads this
    {
      State(holdOwner, releasedOwner, boardCommand, commandCache, watchdogStopped, lastCommandNs)
    }

    constructor (config: Config, startNs: int)
      ensures this.config == config && Value() == Boot(startNs).state
    {
      this.config := config;
      holdOwner, releasedOwner, boardCommand, commandCache := "", "", LEVEL, [];
      watchdogStopped, lastCommandNs := true, startNs;
    }

    method OnInspectionHold(request: HoldRequest) returns (response: HoldResponse, calls: seq<Call>)
      modifies `holdOwner, `releasedOwner, `watchdogStopped
      ensures Outcome(Value(), calls, response) == Held(config, old(Value()), request)
    {
      calls := [];
      response := HoldResponse(false, holdOwner != "", boardCommand);
      if !(16 <= |request.owner| <= 100) {
        return;
      }
      if request.epoch != "" && request.epoch != config.epoch {
        return;
      }
      if request.hold {
        if holdOwner != "" && holdOwner != request.owner {
          return;
        }
        holdOwner := request.owner;
        calls := calls + [ZERO];
        watchdogStopped := true;
        response := response.(accepted := true, held := true);
        return;
      }
      if request.epoch != config.epoch {
        return;
      }
      if holdOwner == "" && request.owner == releasedOwner {
        response := response.(accepted := true, held := false);
        return;
      }
      if holdOwner != request.owner || boardCommand != LEVEL {
        return;
      }
      calls := calls + [ZERO];
      watchdogStopped := true;
      holdOwner := "";
      releasedOwner := request.owner;
      response := response.(accepted := true, held := false);
    }

    method OnInspectionServo(request: ServoRequest, nowNs: int, written: bool)
        returns (response: ServoResponse, calls: seq<Call>)
      modifies `boardCommand, `commandCache
      ensures Outcome(Value(), calls, response) == Turned(config, old(Value()), request, nowNs, written)
    {
      calls := [];
      response := ServoResponse(false, boardCommand);
      if request.epoch != config.epoch || holdOwner == "" || request.owner != holdOwner {
        return;
      }
      var cached := Lookup(commandCache, request.id);
      if cached != [] {
        if cached[0].expected != request.expected || cached[0].command != request.command {
          return;
        }
        response := ServoResponse(cached[0].sent, cached[0].board);
        return;
      }
      var remainingNs := request.deadlineNs - nowNs;
      if !(0 < remainingNs <= 500_000_000) {
        return;
      }
      if !(16 <= |request.id| <= 100) {
        return;
      }
      if !(57 <= request.command <= 106) || !(-1 <= request.command - boardCommand <= 1) || request.expected != boardCommand {
        return;
      }
      if !watchdogStopped {
        return;
      }
      if written {
        boardCommand := request.command;
      }
      calls := [ServoWrite(request.id, request.expected, request.command, written, boardCommand)];
      response := ServoResponse(written, boardCommand);
      commandCache := commandCache + [Cached(request.id, request.expected, request.command, written, boardCommand)];
      if |commandCache| > CACHE_SIZE {
        commandCache := commandCache[1..];
      }
    }

    method OnCmdVel(finite: bool, x: real, y: real, z: real, nowNs: int) returns (calls: seq<Call>)
      modifies `watchdogStopped, `lastCommandNs
      ensures Outcome(Value(), calls, ()) == Driven(config, old(Value()), finite, x, y, z, nowNs)
    {
      calls := [];
      if !finite {
        return;
      }
      var velocityX := Clamp(x, -config.maxLinearX, config.maxLinearX);
      var velocityY := 0.0;
      if config.holonomic {
        velocityY := Clamp(y, -config.maxLinearY, config.maxLinearY);
      }
      var angularZ := Clamp(z, -config.maxAngularZ, config.maxAngularZ);
      if holdOwner != "" {
        velocityX, velocityY, angularZ := 0.0, 0.0, 0.0;
      }
      calls := [Motion(velocityX, velocityY, angularZ)];
      lastCommandNs := nowNs;
      watchdogStopped := velocityX == 0.0 && velocityY == 0.0 && angularZ == 0.0;
    }

    method Update(nowNs: int) returns (calls: seq<Call>)
      modifies `watchdogStopped
      ensures Outcome(Value(), calls, ()) == Watched(config, old(Value()), nowNs)
    {
      calls := [];
      var commandAge := (nowNs - lastCommandNs) as real * 0.000000001;
      if commandAge >= config.commandTimeout && !watchdogStopped {
        calls := [ZERO];
        watchdogStopped := true;
      }
    }

    method OnParameters(valid: bool, apply: bool, confirmed: bool) returns (succeeded: bool, calls: seq<Call>)
      ensures Outcome(Value(), calls, succeeded) == Tuned(old(Value()), valid, apply, confirmed)
    {
      calls := [];
      if !valid {
        return false, [];
      }
      if apply {
        if !watchdogStopped {
          return false, [];
        }
        for i := 0 to 3
          invariant calls == [ZERO, ZERO, ZERO][..i]
        {
          calls := calls + [ZERO];
        }
        calls := calls + [PidWrite];
        if !confirmed {
          return false, calls;
        }
      }
      succeeded := true;
    }
  }
}
