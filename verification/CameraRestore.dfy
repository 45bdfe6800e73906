/**
 The console's steps that stop the vehicle, turn the camera for a picture and restore it for driving,
 together with the driver they talk to.

 A restore goes through stages over many calls: hold, turn back one step at a time, settle, reopen depth,
 clear both costmaps, see them rebuilt, release the hold. A request may be answered late, after another
 operation has begun.
 */
module CameraRestore {
  import D = InspectionHold

  const LEVEL: int := D.LEVEL
  const SERVO_INTERVAL: real := 0.3

  datatype Option<T> = None | Some(value: T)

  datatype Kind = Stop | Restore | Adjust(target: int)

  datatype Stage = Fresh | WaitDepth | Rebuild | Releasing | Done

  datatype Settings = Settings(owner: string, operationTimeout: real, settle: real, driver: D.Config)

  /** A request the driver has not answered: hold or release, marking the operation it was made for, or a camera step. */
  datatype Pending =
    | HoldRequest(hold: bool, marks: Option<nat>)
    | ServoRequest(id: string, expected: int, command: int, deadlineNs: int)

  /** What the console knows from its sensors and services in one call; stamps are of the data, times of their arrival. */
  datatype Inputs = Inputs(
    now: real, stamp: int, healthy: bool, still: bool, navigationOver: bool, frameReady: bool,
    perception: bool, perceptionAt: real, forwardedAt: real, filterOk: bool, filterAt: real,
    obstacleStamp: int, clearingStamp: int, clearReady: bool, cleared: bool, clearFailed: bool,
    localStamp: int, globalStamp: int, layersCurrent: bool, layerStamps: (int, int), layerSequences: (int, int),
    servicesReady: bool, commandId: string, deadlineNs: int)

  datatype Console = Console(
    active: bool, kind: Kind, stage: Stage, operationAt: real, generation: nat,
    held: bool, board: int, lastServoAt: real, depthEnabled: bool, pending: Option<Pending>,
    depthOpenAt: real, depthOpenStamp: int, clearStamp: int, clearBarrier: (int, int))

  /** What has been seen since the operation began. */
  datatype Evidence = Evidence(reopened: Option<Inputs>, seen: Option<Inputs>, rebuilt: Option<Inputs>, steps: seq<int>)

  const NOTHING := Evidence(None, None, None, [])

  datatype Result = Success | Waiting | Thrown

  datatype World = World(console: Console, driver: D.State, evidence: Evidence)

  datatype Outcome = Outcome(console: Console, evidence: Evidence, result: Result)

  // ---------------------------------------------------------------- one call of the step function

  /** Nobody needs waiting for, the camera may be turned, and it is not at its target: one step towards it. */
  function TurnStep(cfg: Settings, c: Console, e: Evidence, target: int, i: Inputs): Outcome {
    var closed := c.(depthEnabled := false);
    if i.now - c.lastServoAt >= SERVO_INTERVAL then
      if !i.servicesReady then Outcome(closed, e, Thrown)
      else
        var next := c.board + if target > c.board then 1 else -1;
        Outcome(closed.(pending := Some(ServoRequest(i.commandId, c.board, next, i.deadlineNs))),
                e.(steps := e.steps + [next]), Waiting)
    else Outcome(closed, e, Waiting)
  }

  predicate DepthBack(c: Console, i: Inputs) {
    i.perception && i.perceptionAt >= c.depthOpenAt && i.forwardedAt >= c.depthOpenAt && i.filterOk &&
    i.filterAt >= c.depthOpenAt && i.obstacleStamp > c.depthOpenStamp && i.clearingStamp > c.depthOpenStamp
  }

  predicate MapsRebuilt(c: Console, i: Inputs) {
    i.cleared && i.localStamp > c.clearStamp && i.globalStamp > c.clearStamp && i.perception && i.filterOk &&
    i.obstacleStamp > c.clearStamp && i.clearingStamp > c.clearStamp && i.layersCurrent &&
    i.layerStamps.0 > c.clearStamp && i.layerStamps.1 > c.clearStamp &&
    i.layerSequences.0 > c.clearBarrier.0 && i.layerSequences.1 > c.clearBarrier.1
  }

  /** The stages of a restore once the camera is level and has settled. */
  function StageStep(c: Console, e: Evidence, i: Inputs): Outcome {
    match c.stage
    case Fresh =>
      Outcome(c.(depthEnabled := true, depthOpenStamp := i.stamp, depthOpenAt := i.now, stage := WaitDepth),
              e.(reopened := Some(i)), Waiting)
    case WaitDepth =>
      if !DepthBack(c, i) then Outcome(c, e, Waiting)
      else if !i.clearReady then Outcome(c, e, Thrown)
      else Outcome(c.(clearStamp := i.stamp, clearBarrier := i.layerSequences, stage := Rebuild), e.(seen := Some(i)), Waiting)
    case Rebuild =>
      if !MapsRebuilt(c, i) then Outcome(c, e, Waiting)
      else if i.clearFailed then Outcome(c, e, Thrown)
      else if !i.servicesReady then Outcome(c.(stage := Releasing), e, Thrown)
      else
        Outcome(c.(stage := Releasing, pending := Some(HoldRequest(false, Some(c.generation)))),
                e.(rebuilt := Some(i)), Waiting)
    case Releasing => Outcome(c, e, Waiting)
    case Done => Outcome(c, e, Success)
  }

  function HoldStep(c: Console, e: Evidence, i: Inputs): Outcome {
    if i.servicesReady then Outcome(c.(pending := Some(HoldRequest(true, None))), e, Waiting) else Outcome(c, e, Thrown)
  }

  function CameraStep(cfg: Settings, c: Console, e: Evidence, i: Inputs): Outcome {
    if c.kind == Restore && c.stage == Done then Outcome(c, e, Success)
    else if c.pending.Some? then Outcome(c, e, Waiting)
    else if !c.held then HoldStep(c, e, i)
    else if !i.still then Outcome(c, e, Waiting)
    else
      var target := if c.kind.Adjust? then c.kind.target else LEVEL;
      if c.board != target then TurnStep(cfg, c, e, target, i)
      else if i.now - c.lastServoAt < cfg.settle then Outcome(c, e, Waiting)
      else if c.kind.Adjust? then Outcome(c.(depthEnabled := false), e, if i.frameReady then Success else Waiting)
      else StageStep(c, e, i)
  }

  function StopStep(c: Console, e: Evidence, i: Inputs): Outcome {
    if c.pending.Some? then Outcome(c, e, Waiting)
    else if !c.held then HoldStep(c, e, i)
    else Outcome(c, e, if i.still && i.navigationOver then Success else Waiting)
  }

  /** A step that starts begins a new operation with nothing seen yet. */
  function Begun(c: Console, kind: Kind, now: real): Console {
    c.(active := true, kind := kind, stage := Fresh, operationAt := now, generation := c.generation + 1)
  }

  /** One call; the step stays active only while it is pending. */
  function Called(cfg: Settings, w: World, start: Option<Kind>, i: Inputs): Outcome {
    var c := if start.Some? then Begun(w.console, start.value, i.now) else w.console;
    var e := if start.Some? then NOTHING else w.evidence;
    var o :=
      if !(i.now - c.operationAt < cfg.operationTimeout) || !i.healthy then Outcome(c, e, Thrown)
      else if c.kind == Stop then StopStep(c, e, i)
      else CameraStep(cfg, c, e, i);
    o.(console := o.console.(active := o.result == Waiting))
  }

  /** Everything is stopped; what an earlier operation still waits for no longer concerns anyone. */
  function Halted(c: Console): Console {
    c.(active := false, depthEnabled := false, generation := c.generation + 1)
  }

  // ---------------------------------------------------------------- the driver's answers

  function DriverHold(cfg: Settings, p: Pending): D.HoldRequest
    requires p.HoldRequest?
  {
    D.HoldRequest(cfg.owner, cfg.driver.epoch, p.hold)
  }

  function DriverServo(cfg: Settings, p: Pending): D.ServoRequest
    requires p.ServoRequest?
  {
    D.ServoRequest(cfg.owner, cfg.driver.epoch, p.id, p.expected, p.command, p.deadlineNs)
  }

  /** The driver serves the pending request. */
  function Served(cfg: Settings, d: D.State, p: Pending, nowNs: int, written: bool): D.State {
    match p
    case HoldRequest(_, _) => D.Held(cfg.driver, d, DriverHold(cfg, p)).state
    case ServoRequest(_, _, _, _) => D.Turned(cfg.driver, d, DriverServo(cfg, p), nowNs, written).state
  }

  /** The answer reaches the console; a refusal throws and stops everything. */
  function Answered(cfg: Settings, c: Console, d: D.State, now: real, nowNs: int, written: bool): Console
    requires c.pending.Some?
  {
    var free := c.(pending := None);
    match c.pending.value
    case HoldRequest(hold, marks) =>
      var r := D.Held(cfg.driver, d, DriverHold(cfg, c.pending.value)).response;
      if !r.accepted || r.held != hold then Halted(free)
      else
        var told := free.(board := r.board, held := r.held);
        if marks == Some(c.generation) then told.(stage := Done) else told
    case ServoRequest(_, _, _, _) =>
      var r := D.Turned(cfg.driver, d, DriverServo(cfg, c.pending.value), nowNs, written).response;
      if !r.sent then Halted(free) else free.(board := r.board, lastServoAt := now)
  }

  // ---------------------------------------------------------------- runs

  datatype Event =
    | Start(kind: Kind, inputs: Inputs)
    | Continue(inputs: Inputs)
    | Answer(now: real, nowNs: int, written: bool)
    | Lost(served: bool, nowNs: int, written: bool)
    | Halt
    | Others(event: D.Event)

  /** A step is continued only while it is active; other clients of the driver use other owner tokens. */
  function Step(cfg: Settings, w: World, e: Event): World {
    match e
    case Start(kind, i) => var o := Called(cfg, w, Some(kind), i); World(After(o), w.driver, o.evidence)
    case Continue(i) =>
      if !w.console.active then w else var o := Called(cfg, w, None, i); World(After(o), w.driver, o.evidence)
    case Answer(now, nowNs, written) =>
      if w.console.pending.None? then w
      else w.(console := Answered(cfg, w.console, w.driver, now, nowNs, written),
              driver := Served(cfg, w.driver, w.console.pending.value, nowNs, written))
    case Lost(served, nowNs, written) =>
      if w.console.pending.None? then w
      else w.(console := Halted(w.console.(pending := None)),
              driver := if served then Served(cfg, w.driver, w.console.pending.value, nowNs, written) else w.driver)
    case Halt => w.(console := Halted(w.console))
    case Others(event) => if Foreign(cfg, event) then w.(driver := D.Apply(cfg.driver, D.World(w.driver, []), event).state) else w
  }

  /** A step that threw has stopped everything. */
  function After(o: Outcome): Console {
    if o.result == Thrown then Halted(o.console) else o.console
  }

  predicate Foreign(cfg: Settings, e: D.Event) {
    match e
    case Hold(r) => r.owner != cfg.owner
    case Servo(r, _, _) => r.owner != cfg.owner
    case _ => true
  }

  function Boot(startNs: int): World {
    World(Console(false, Stop, Fresh, 0.0, 0, false, LEVEL, -1.0, false, None, 0.0, 0, 0, (0, 0)),
          D.Boot(startNs).state, NOTHING)
  }

  function Run(cfg: Settings, startNs: int, events: seq<Event>): World {
    if events == [] then Boot(startNs)
    else Step(cfg, Run(cfg, startNs, events[..|events| - 1]), events[|events| - 1])
  }

  // ---------------------------------------------------------------- what every run keeps

  /** The driver's own interlock, as far as it is needed here. */
  predicate LevelWhenFree(d: D.State) {
    d.owner == "" ==> d.board == LEVEL
  }

  /** Depth data newer than the moment depth was opened again. */
  predicate NewerThanReopening(a: Inputs, b: Inputs) {
    b.perception && b.perceptionAt >= a.now && b.forwardedAt >= a.now && b.filterOk && b.filterAt >= a.now &&
    b.obstacleStamp > a.stamp && b.clearingStamp > a.stamp
  }

  /** Maps, layers and depth data newer than the moment the costmaps were asked to clear. */
  predicate NewerThanClearing(b: Inputs, r: Inputs) {
    r.cleared && !r.clearFailed && r.localStamp > b.stamp && r.globalStamp > b.stamp && r.perception && r.filterOk &&
    r.obstacleStamp > b.stamp && r.clearingStamp > b.stamp && r.layersCurrent &&
    r.layerStamps.0 > b.stamp && r.layerStamps.1 > b.stamp &&
    r.layerSequences.0 > b.layerSequences.0 && r.layerSequences.1 > b.layerSequences.1
  }

  predicate Reopened(cfg: Settings, c: Console, e: Evidence) {
    e.reopened.Some? && c.depthEnabled && c.board == LEVEL &&
    c.depthOpenAt == e.reopened.value.now && c.depthOpenStamp == e.reopened.value.stamp &&
    e.reopened.value.now - c.lastServoAt >= cfg.settle && e.reopened.value.still
  }

  predicate Clearing(c: Console, e: Evidence) {
    e.reopened.Some? && e.seen.Some? && NewerThanReopening(e.reopened.value, e.seen.value) &&
    c.clearStamp == e.seen.value.stamp && c.clearBarrier == e.seen.value.layerSequences
  }

  predicate Complete(e: Evidence) {
    e.reopened.Some? && e.seen.Some? && e.rebuilt.Some? &&
    NewerThanReopening(e.reopened.value, e.seen.value) && NewerThanClearing(e.seen.value, e.rebuilt.value)
  }

  /** What an active restore has established in each stage. */
  predicate StageKept(cfg: Settings, c: Console, e: Evidence) {
    match c.stage
    case Fresh => true
    case WaitDepth => Reopened(cfg, c, e) && c.held && c.pending.None?
    case Rebuild => Reopened(cfg, c, e) && Clearing(c, e) && c.held && c.pending.None?
    case Releasing =>
      Reopened(cfg, c, e) && Complete(e) && c.held && c.pending == Some(HoldRequest(false, Some(c.generation)))
    case Done => Reopened(cfg, c, e) && Complete(e) && !c.held && c.pending.None?
  }

  /** A pending release marks the operation that asked for it, and only the latest operation can be marked done. */
  predicate MarksKept(c: Console) {
    c.pending.Some? && c.pending.value.HoldRequest? && c.pending.value.marks.Some? ==>
      && !c.pending.value.hold && c.pending.value.marks.value <= c.generation
      && (c.pending.value.marks.value == c.generation ==> c.active && c.kind == Restore && c.stage == Releasing)
  }

  /** A pending release was made for this operation or an earlier one. */
  predicate MarksPast(c: Console) {
    c.pending.Some? && c.pending.value.HoldRequest? && c.pending.value.marks.Some? ==>
      !c.pending.value.hold && c.pending.value.marks.value <= c.generation
  }

  predicate Invariant(cfg: Settings, w: World) {
    && LevelWhenFree(w.driver) && MarksKept(w.console)
    && (w.console.active && w.console.kind == Restore ==> StageKept(cfg, w.console, w.evidence))
    && (w.console.active && w.console.kind != Restore ==> w.console.stage == Fresh)
  }

  lemma DriverKeeps(cfg: Settings, d: D.State, e: D.Event)
    requires LevelWhenFree(d)
    ensures LevelWhenFree(D.Apply(cfg.driver, D.World(d, []), e).state)
  {}

  lemma ServedKeeps(cfg: Settings, d: D.State, p: Pending, nowNs: int, written: bool)
    requires LevelWhenFree(d)
    ensures LevelWhenFree(Served(cfg, d, p, nowNs, written))
  {}

  /** The driver accepts a release only with the camera level, and says so. */
  lemma ReleaseMeansLevel(cfg: Settings, d: D.State, p: Pending)
    requires LevelWhenFree(d) && p.HoldRequest? && !p.hold
    ensures var r := D.Held(cfg.driver, d, DriverHold(cfg, p)).response;
            r.accepted && r.held == p.hold ==> r.board == LEVEL
  {}

  lemma StageStepKeeps(cfg: Settings, c: Console, e: Evidence, i: Inputs)
    requires c.kind == Restore && c.board == LEVEL && c.held && c.pending.None? && i.still
    requires i.now - c.lastServoAt >= cfg.settle && c.stage != Done && StageKept(cfg, c, e)
    ensures var o := StageStep(c, e, i); o.result != Success && (o.result == Waiting ==> StageKept(cfg, o.console, o.evidence))
    ensures var o := StageStep(c, e, i);
            o.console.kind == c.kind && o.console.generation == c.generation && MarksPast(o.console) &&
            (o.result == Waiting ==>
               (o.console.pending.None? ||
                (o.console.pending == Some(HoldRequest(false, Some(c.generation))) && o.console.stage == Releasing)))
  {}

  /** A call keeps what an active step has established. */
  lemma CameraStepKeeps(cfg: Settings, c: Console, e: Evidence, i: Inputs)
    requires MarksKept(c) && c.active && (c.kind == Restore || c.kind.Adjust?)
    requires if c.kind == Restore then StageKept(cfg, c, e) else c.stage == Fresh
    ensures var o := CameraStep(cfg, c, e, i); var d := o.console.(active := o.result == Waiting);
            && d.kind == c.kind && d.generation == c.generation && MarksPast(d)
            && (o.result == Waiting ==>
                  (MarksKept(d) && if c.kind == Restore then StageKept(cfg, d, o.evidence) else d.stage == Fresh))
            && (o.result == Success ==> o.console.pending.None?)
            && (o.result == Success && c.kind == Restore ==> o.console == c && o.evidence == e && c.stage == Done)
  {
    hide Reopened, Clearing, Complete;
    if c.kind == Restore && c.stage != Done && c.pending.None? && c.held && i.still && c.board == LEVEL &&
       i.now - c.lastServoAt >= cfg.settle {
      StageStepKeeps(cfg, c, e, i);
      hide StageStep;
    }
    BoardOfStages(cfg, c, e);
  }

  /** Once depth has been opened again the camera stays level, so it is not turned any more. */
  lemma BoardOfStages(cfg: Settings, c: Console, e: Evidence)
    ensures StageKept(cfg, c, e) && c.stage != Fresh ==> c.board == LEVEL
  {}

  lemma BegunKeeps(cfg: Settings, c: Console, e: Evidence, kind: Kind, now: real)
    requires MarksKept(c)
    ensures MarksKept(Begun(c, kind, now)) && Begun(c, kind, now).stage == Fresh && StageKept(cfg, Begun(c, kind, now), NOTHING)
  {}

  lemma StopStepKeeps(c: Console, e: Evidence, i: Inputs)
    requires MarksKept(c) && c.active && c.kind == Stop && c.stage == Fresh
    ensures var o := StopStep(c, e, i); var d := o.console.(active := o.result == Waiting);
            && d.kind == Stop && d.stage == Fresh && d.generation == c.generation && MarksPast(d)
            && (o.result == Waiting ==> MarksKept(d))
            && (o.result == Success ==> o.console.pending.None?)
  {}

  lemma HaltedKeeps(c: Console)
    requires MarksPast(c)
    ensures MarksKept(Halted(c)) && !Halted(c).active
  {}

  lemma CalledKeeps(cfg: Settings, w: World, start: Option<Kind>, i: Inputs)
    requires Invariant(cfg, w) && (start.Some? || w.console.active)
    ensures var o := Called(cfg, w, start, i); Invariant(cfg, World(After(o), w.driver, o.evidence))
    ensures var o := Called(cfg, w, start, i);
            o.result == Success && o.console.kind == Restore ==>
              start.None? && w.console.kind == Restore && w.console.stage == Done && o.evidence == w.evidence &&
              o.console == w.console.(active := false)
  {
    hide StageKept, MarksKept, MarksPast, CameraStep, StopStep, Begun;
    KeptIsPast(w.console);
    var c := if start.Some? then Begun(w.console, start.value, i.now) else w.console;
    var e := if start.Some? then NOTHING else w.evidence;
    if start.Some? {
      BegunKeeps(cfg, w.console, w.evidence, start.value, i.now);
      BegunFields(w.console, start.value, i.now);
    }
    if c.kind == Stop {
      StopStepKeeps(c, e, i);
    } else {
      CameraStepKeeps(cfg, c, e, i);
    }
    var o := Called(cfg, w, start, i);
    MarksWhenDone(o.console);
    KeptIsPast(c);
    ActivePast(c);
    if o.result == Thrown {
      HaltedKeeps(o.console);
    }
  }

  lemma BegunFields(c: Console, kind: Kind, now: real)
    ensures var d := Begun(c, kind, now); d.active && d.kind == kind && d.stage == Fresh
  {}

  lemma MarksWhenDone(c: Console)
    ensures c.pending.None? ==> MarksKept(c)
  {}

  lemma KeptIsPast(c: Console)
    ensures MarksKept(c) ==> MarksPast(c)
  {}

  lemma ActivePast(c: Console)
    ensures MarksPast(c) <==> MarksPast(c.(active := !c.active))
  {}

  lemma AnsweredKeeps(cfg: Settings, w: World, now: real, nowNs: int, written: bool)
    requires Invariant(cfg, w) && w.console.pending.Some?
    ensures var c := Answered(cfg, w.console, w.driver, now, nowNs, written);
            && MarksKept(c)
            && (c.active && c.kind == Restore ==> StageKept(cfg, c, w.evidence))
            && (c.active && c.kind != Restore ==> c.stage == Fresh)
  {
    if w.console.pending.value.HoldRequest? && !w.console.pending.value.hold {
      ReleaseMeansLevel(cfg, w.driver, w.console.pending.value);
    }
    hide LevelWhenFree, Complete, Clearing;
  }

  lemma StepKeeps(cfg: Settings, w: World, e: Event)
    requires Invariant(cfg, w)
    ensures Invariant(cfg, Step(cfg, w, e))
  {
    hide StageKept, MarksKept, LevelWhenFree, Called, Answered, Served, Halted;
    KeptIsPast(w.console);
    match e
    case Start(kind, i) => CalledKeeps(cfg, w, Some(kind), i);
    case Continue(i) => if w.console.active { CalledKeeps(cfg, w, None, i); }
    case Answer(now, nowNs, written) =>
      if w.console.pending.Some? {
        AnsweredKeeps(cfg, w, now, nowNs, written);
        ServedKeeps(cfg, w.driver, w.console.pending.value, nowNs, written);
      }
    case Lost(served, nowNs, written) =>
      if w.console.pending.Some? {
        ServedKeeps(cfg, w.driver, w.console.pending.value, nowNs, written);
        MarksWhenDone(w.console.(pending := None));
        KeptIsPast(w.console.(pending := None));
        HaltedKeeps(w.console.(pending := None));
      }
    case Halt => HaltedKeeps(w.console);
    case Others(event) => DriverKeeps(cfg, w.driver, event);
  }

  lemma {:induction false} RunKeeps(cfg: Settings, startNs: int, events: seq<Event>)
    ensures Invariant(cfg, Run(cfg, startNs, events))
    decreases |events|
  {
    hide Invariant, Step;
    if events == [] {
      BootKeeps(cfg, startNs);
    } else {
      RunKeeps(cfg, startNs, events[..|events| - 1]);
      StepKeeps(cfg, Run(cfg, startNs, events[..|events| - 1]), events[|events| - 1]);
    }
  }

  lemma BootKeeps(cfg: Settings, startNs: int)
    ensures Invariant(cfg, Boot(startNs))
  {}

  // ---------------------------------------------------------------- what a reader gets from it

  /**
   When a restore succeeds, in any run, the driver has accepted this very operation's release with the
   camera level, depth is open, and since the camera settled there the depth data was renewed and both
   costmaps and both depth layers were rebuilt after a clear that came later still.
   */
  lemma RestoreMeansReadyToDrive(cfg: Settings, startNs: int, events: seq<Event>, start: Option<Kind>, i: Inputs)
    requires var w := Run(cfg, startNs, events);
             (start.Some? || w.console.active) && Called(cfg, w, start, i).result == Success &&
             Called(cfg, w, start, i).console.kind == Restore
    ensures var w := Run(cfg, startNs, events); var c := Called(cfg, w, start, i).console;
            && start.None? && !c.held && c.board == LEVEL && c.depthEnabled && c.pending.None?
            && Complete(w.evidence) && w.evidence.reopened.value.still
            && w.evidence.reopened.value.now - c.lastServoAt >= cfg.settle
  {
    hide Run, Called, MarksKept, LevelWhenFree, Complete;
    RunKeeps(cfg, startNs, events);
    CalledKeeps(cfg, Run(cfg, startNs, events), start, i);
  }

  /** A restore is completed only by the answer to its own release, never by one to an earlier operation's. */
  lemma OnlyOwnReleaseCompletes(cfg: Settings, startNs: int, events: seq<Event>, e: Event)
    requires var w := Run(cfg, startNs, events);
             w.console.stage != Done && Step(cfg, w, e).console.stage == Done
    ensures var c := Run(cfg, startNs, events).console;
            && e.Answer? && c.active && c.kind == Restore && c.stage == Releasing
            && c.pending == Some(HoldRequest(false, Some(c.generation)))
  {
    hide Run, StageKept, LevelWhenFree, Served;
    RunKeeps(cfg, startNs, events);
    var w := Run(cfg, startNs, events);
    match e
    case Start(kind, i) => NeverDoneByCalls(cfg, w, Some(kind), i);
    case Continue(i) => NeverDoneByCalls(cfg, w, None, i);
    case _ =>
  }

  lemma NeverDoneByCalls(cfg: Settings, w: World, start: Option<Kind>, i: Inputs)
    requires start.Some? || w.console.stage != Done
    ensures After(Called(cfg, w, start, i)).stage != Done
  {
    hide CameraStep, StopStep;
    var c := if start.Some? then Begun(w.console, start.value, i.now) else w.console;
    StepsNeverDone(cfg, c, if start.Some? then NOTHING else w.evidence, i);
  }

  lemma StepsNeverDone(cfg: Settings, c: Console, e: Evidence, i: Inputs)
    requires c.stage != Done
    ensures CameraStep(cfg, c, e, i).console.stage != Done && StopStep(c, e, i).console.stage != Done
  {
    hide DepthBack, MapsRebuilt;
  }

  function Apart(x: int, y: int): nat {
    if x >= y then x - y else y - x
  }

  /** A camera request made while the driver agrees on the board angle is one it executes, and one step nearer. */
  lemma StepsAreExecutable(cfg: Settings, c: Console, e: Evidence, target: int, i: Inputs, d: D.State, nowNs: int, written: bool)
    requires c.pending.None? && c.board == d.board != target && 57 <= d.board <= 106 && 57 <= target <= 106
    requires d.owner == cfg.owner != "" && d.watchdogStopped
    requires i.now - c.lastServoAt >= SERVO_INTERVAL && i.servicesReady
    requires 16 <= |i.commandId| <= 100 && D.Lookup(d.cache, i.commandId) == [] && 0 < i.deadlineNs - nowNs <= 500_000_000
    ensures var p := TurnStep(cfg, c, e, target, i).console.pending;
            && p.Some? && p.value.ServoRequest? && D.Executable(d, DriverServo(cfg, p.value), nowNs)
            && Apart(p.value.command, target) == Apart(c.board, target) - 1
            && Answered(cfg, TurnStep(cfg, c, e, target, i).console, d, i.now, nowNs, true).board == p.value.command
            && Served(cfg, d, p.value, nowNs, true).board == p.value.command
  {}

  /** The driver confirms a camera step. */
  predicate Confirms(cfg: Settings, w: World, e: Event) {
    e.Answer? && w.console.pending.Some? && w.console.pending.value.ServoRequest? &&
    D.Turned(cfg.driver, w.driver, DriverServo(cfg, w.console.pending.value), e.nowNs, e.written).response.sent
  }

  /** When that last happened, told by the run; long ago when it never did. */
  function LastTurn(cfg: Settings, startNs: int, events: seq<Event>): real {
    if events == [] then -1.0
    else
      var e := events[|events| - 1];
      if Confirms(cfg, Run(cfg, startNs, events[..|events| - 1]), e) then e.now else LastTurn(cfg, startNs, events[..|events| - 1])
  }

  lemma CameraKeepsTurnTime(cfg: Settings, c: Console, e: Evidence, i: Inputs)
    ensures CameraStep(cfg, c, e, i).console.lastServoAt == c.lastServoAt
  {
    hide DepthBack, MapsRebuilt;
  }

  lemma StepKeepsTurnTime(cfg: Settings, w: World, e: Event)
    ensures Step(cfg, w, e).console.lastServoAt == if Confirms(cfg, w, e) then e.now else w.console.lastServoAt
  {
    hide CameraStep, Served, D.Held, D.Turned;
    match e
    case Start(kind, i) => CameraKeepsTurnTime(cfg, Begun(w.console, kind, i.now), NOTHING, i);
    case Continue(i) => CameraKeepsTurnTime(cfg, w.console, w.evidence, i);
    case _ =>
  }

  lemma {:induction false} TurnTimesKept(cfg: Settings, startNs: int, events: seq<Event>)
    ensures Run(cfg, startNs, events).console.lastServoAt == LastTurn(cfg, startNs, events)
    decreases |events|
  {
    hide Step, Confirms;
    if events != [] {
      TurnTimesKept(cfg, startNs, events[..|events| - 1]);
      StepKeepsTurnTime(cfg, Run(cfg, startNs, events[..|events| - 1]), events[|events| - 1]);
    }
  }

  /**
   In every run the camera is asked to turn only under hold with the vehicle standing still, at least 0.3 seconds after
   the last confirmed step, one step towards the target of its operation, and with depth closed.
   */
  lemma TurnsOnlyWhenSafe(cfg: Settings, startNs: int, events: seq<Event>, start: Option<Kind>, i: Inputs)
    requires var w := Run(cfg, startNs, events); start.Some? || w.console.active
    requires var w := Run(cfg, startNs, events); var o := Called(cfg, w, start, i);
             o.console.pending != w.console.pending && o.console.pending.Some? && o.console.pending.value.ServoRequest?
    ensures var w := Run(cfg, startNs, events); var o := Called(cfg, w, start, i);
            var p, target := o.console.pending.value, Target(o.console.kind);
            && w.console.held && i.still && i.healthy && !o.console.depthEnabled && o.console.kind != Stop
            && i.now - LastTurn(cfg, startNs, events) >= 0.3
            && p.expected == w.console.board != target && Apart(p.command, target) == Apart(w.console.board, target) - 1
  {
    hide Run, LastTurn, Called;
    TurnTimesKept(cfg, startNs, events);
    CallsTurn(cfg, Run(cfg, startNs, events), start, i);
  }

  /** A camera step is asked of the driver. */
  predicate AsksToTurn(c: Console, d: Console) {
    d.pending != c.pending && d.pending.Some? && d.pending.value.ServoRequest?
  }

  lemma StagesNeverTurn(c: Console, e: Evidence, i: Inputs)
    ensures !AsksToTurn(c, StageStep(c, e, i).console) && !AsksToTurn(c, StopStep(c, e, i).console)
  {
    hide DepthBack, MapsRebuilt;
  }

  lemma CameraTurns(cfg: Settings, c: Console, e: Evidence, i: Inputs)
    requires c.kind != Stop && AsksToTurn(c, CameraStep(cfg, c, e, i).console)
    ensures var d := CameraStep(cfg, c, e, i).console; var p := d.pending.value;
            && c.held && i.still && !d.depthEnabled && d.kind == c.kind && i.now - c.lastServoAt >= 0.3
            && p.expected == c.board != Target(c.kind) && Apart(p.command, Target(c.kind)) == Apart(c.board, Target(c.kind)) - 1
  {
    hide StageStep;
    StagesNeverTurn(c, e, i);
  }

  lemma CallsTurn(cfg: Settings, w: World, start: Option<Kind>, i: Inputs)
    requires AsksToTurn(w.console, Called(cfg, w, start, i).console)
    ensures var o := Called(cfg, w, start, i); var p, target := o.console.pending.value, Target(o.console.kind);
            && w.console.held && i.still && i.healthy && !o.console.depthEnabled && o.console.kind != Stop
            && i.now - w.console.lastServoAt >= 0.3
            && p.expected == w.console.board != target && Apart(p.command, target) == Apart(w.console.board, target) - 1
  {
    hide CameraStep, StopStep, Target, Apart;
    var c := CalledOn(w, start, i);
    var e := if start.Some? then NOTHING else w.evidence;
    StagesNeverTurn(c, e, i);
    if c.kind != Stop && AsksToTurn(c, CameraStep(cfg, c, e, i).console) {
      CameraTurns(cfg, c, e, i);
    }
  }

  /**
   What an answer does: one that does not grant what was asked stops everything and closes depth; after any other the
   console knows what the driver says of the hold and the board, and a step is timed from its confirmation.
   */
  lemma AnswersMean(cfg: Settings, w: World, now: real, nowNs: int, written: bool)
    requires w.console.pending.Some?
    ensures var c, p := Step(cfg, w, Answer(now, nowNs, written)).console, w.console.pending.value;
            && c.pending.None?
            && match p
               case HoldRequest(hold, _) =>
                 var r := D.Held(cfg.driver, w.driver, DriverHold(cfg, p)).response;
                 if r.accepted && r.held == hold then
                   c.held == hold && c.board == w.driver.board && c.active == w.console.active && c.lastServoAt == w.console.lastServoAt
                 else !c.active && !c.depthEnabled && c.generation > w.console.generation
               case ServoRequest(_, _, _, _) =>
                 var r := D.Turned(cfg.driver, w.driver, DriverServo(cfg, p), nowNs, written).response;
                 if r.sent then c.board == r.board && c.lastServoAt == now && c.active == w.console.active && c.held == w.console.held
                 else !c.active && !c.depthEnabled && c.generation > w.console.generation
  {}

  /** The operation is within its time and its sensors are well. */
  predicate GoingOn(cfg: Settings, c: Console, i: Inputs) {
    i.now - c.operationAt < cfg.operationTimeout && i.healthy
  }

  /** The driver has the hold, nothing is asked of it, the camera is at the angle and has been for long enough. */
  predicate Turned(cfg: Settings, c: Console, i: Inputs, target: int) {
    c.pending.None? && c.held && i.still && c.board == target && i.now - c.lastServoAt >= cfg.settle
  }

  /** What a call starts from. */
  function CalledOn(w: World, start: Option<Kind>, i: Inputs): Console {
    if start.Some? then Begun(w.console, start.value, i.now) else w.console
  }

  /** A driver or costmap service is needed now and is not there, or the costmaps could not be cleared. */
  predicate Stuck(cfg: Settings, c: Console, i: Inputs) {
    var restoring := c.kind == Restore && Turned(cfg, c, i, LEVEL);
    c.pending.None? && !(c.kind == Restore && c.stage == Done) && (
      || (!c.held && !i.servicesReady)
      || (c.kind != Stop && c.held && i.still && c.board != Target(c.kind)
          && i.now - c.lastServoAt >= SERVO_INTERVAL && !i.servicesReady)
      || (restoring && c.stage == WaitDepth && DepthBack(c, i) && !i.clearReady)
      || (restoring && c.stage == Rebuild && MapsRebuilt(c, i) && (i.clearFailed || !i.servicesReady)))
  }

  function Target(kind: Kind): int {
    if kind.Adjust? then kind.target else LEVEL
  }

  /**
   A call succeeds exactly when its operation goes on and is complete: stopped under hold, turned with a picture ready,
   or restored. It throws exactly when the operation does not go on, when the driver has to be asked but cannot be,
   and when the costmaps cannot be cleared; and then everything is stopped and depth is closed.
   */
  lemma CallsEndExactly(cfg: Settings, w: World, start: Option<Kind>, i: Inputs)
    requires start.Some? || w.console.active
    ensures var c, o := CalledOn(w, start, i), Called(cfg, w, start, i);
            && (o.result == Success <==> GoingOn(cfg, c, i) && match c.kind
                  case Stop => c.pending.None? && c.held && i.still && i.navigationOver
                  case Adjust(target) => Turned(cfg, c, i, target) && i.frameReady
                  case Restore => c.stage == Done)
            && (o.result == Thrown <==> !GoingOn(cfg, c, i) || Stuck(cfg, c, i))
            && (o.result == Thrown ==> !After(o).active && !After(o).depthEnabled)
            && (o.result == Success && c.kind.Adjust? ==> !o.console.depthEnabled)
  {
    hide DepthBack, MapsRebuilt;
  }

  lemma RunExtends(cfg: Settings, startNs: int, events: seq<Event>, e: Event)
    ensures Run(cfg, startNs, events + [e]) == Step(cfg, Run(cfg, startNs, events), e)
  {
    assert (events + [e])[..|events|] == events;
  }

  /** A restore that needs no turning: hold, reopen depth, clear, release. */
  function Restoring(asked: Inputs, reopening: Inputs, seen: Inputs, rebuilt: Inputs): seq<Event> {
    [Start(Restore, asked), Answer(asked.now, 0, true), Continue(reopening), Continue(seen), Continue(rebuilt),
     Answer(rebuilt.now, 0, true)]
  }

  /** Inputs that come in time. */
  predicate InTime(cfg: Settings, asked: Inputs, i: Inputs) {
    i.healthy && i.servicesReady && i.now - asked.now < cfg.operationTimeout
  }

  /**
   From every state of a run with the camera level and nothing pending, a restore goes through once the evidence that
   RestoreMeansReadyToDrive speaks of arrives in time: the release is accepted and the next call succeeds.
   */
  lemma RestoreCanSucceed(cfg: Settings, startNs: int, events: seq<Event>, asked: Inputs, reopening: Inputs, seen: Inputs,
                          rebuilt: Inputs, last: Inputs)
    requires var w := Run(cfg, startNs, events);
             && w.console.pending.None? && !w.console.held && (w.driver.owner == "" || w.driver.owner == cfg.owner)
             && w.driver.board == LEVEL && w.console.lastServoAt + cfg.settle <= reopening.now
    requires 16 <= |cfg.owner| <= 100
    requires InTime(cfg, asked, asked) && InTime(cfg, asked, reopening) && InTime(cfg, asked, seen) &&
             InTime(cfg, asked, rebuilt) && InTime(cfg, asked, last)
    requires reopening.still && seen.still && rebuilt.still && reopening.now <= seen.now && reopening.now <= rebuilt.now
    requires NewerThanReopening(reopening, seen) && seen.clearReady && NewerThanClearing(seen, rebuilt)
    ensures var after := Run(cfg, startNs, events + Restoring(asked, reopening, seen, rebuilt));
            && Called(cfg, after, None, last).result == Success && after.console.active && after.console.depthEnabled
            && after.driver.owner == "" && after.driver.board == LEVEL
  {
    hide Run;
    var w := Run(cfg, startNs, events);
    var more := Restoring(asked, reopening, seen, rebuilt);
    RunExtends(cfg, startNs, events, more[0]);
    RunExtends(cfg, startNs, events + [more[0]], more[1]);
    RunExtends(cfg, startNs, events + [more[0]] + [more[1]], more[2]);
    RunExtends(cfg, startNs, events + [more[0]] + [more[1]] + [more[2]], more[3]);
    RunExtends(cfg, startNs, events + [more[0]] + [more[1]] + [more[2]] + [more[3]], more[4]);
    RunExtends(cfg, startNs, events + [more[0]] + [more[1]] + [more[2]] + [more[3]] + [more[4]], more[5]);
    assert events + [more[0]] + [more[1]] + [more[2]] + [more[3]] + [more[4]] + [more[5]] == events + more;
    var held := HoldTaken(cfg, w, asked);
    var again := DepthReopened(cfg, held, asked, reopening);
    var cleared := CostmapsCleared(cfg, again, asked, reopening, seen);
    ReleaseTaken(cfg, cleared, asked, seen, rebuilt);
  }

  /** The hold is taken: nothing pending, the restore under way, the camera level. */
  predicate UnderHold(cfg: Settings, w: World, asked: Inputs) {
    && w.console.active && w.console.kind == Restore && w.console.operationAt == asked.now
    && w.console.pending.None? && w.console.held && w.console.board == LEVEL
    && w.driver.owner == cfg.owner && w.driver.board == LEVEL
  }

  lemma HoldTaken(cfg: Settings, w: World, asked: Inputs) returns (held: World)
    requires w.console.pending.None? && !w.console.held && (w.driver.owner == "" || w.driver.owner == cfg.owner)
    requires w.driver.board == LEVEL && 16 <= |cfg.owner| <= 100 && InTime(cfg, asked, asked)
    ensures held == Step(cfg, Step(cfg, w, Start(Restore, asked)), Answer(asked.now, 0, true))
    ensures UnderHold(cfg, held, asked) && held.console.stage == Fresh && held.console.lastServoAt == w.console.lastServoAt
  {
    var first := Step(cfg, w, Start(Restore, asked));
    assert first.console.pending == Some(HoldRequest(true, None)) && first.driver == w.driver;
    held := Step(cfg, first, Answer(asked.now, 0, true));
  }

  lemma DepthReopened(cfg: Settings, w: World, asked: Inputs, reopening: Inputs) returns (again: World)
    requires UnderHold(cfg, w, asked) && w.console.stage == Fresh && w.console.lastServoAt + cfg.settle <= reopening.now
    requires InTime(cfg, asked, reopening) && reopening.still
    ensures again == Step(cfg, w, Continue(reopening))
    ensures UnderHold(cfg, again, asked) && again.console.lastServoAt == w.console.lastServoAt
    ensures again.console.stage == WaitDepth && again.console.depthEnabled
    ensures again.console.depthOpenAt == reopening.now && again.console.depthOpenStamp == reopening.stamp
  {
    again := Step(cfg, w, Continue(reopening));
  }

  lemma CostmapsCleared(cfg: Settings, w: World, asked: Inputs, reopening: Inputs, seen: Inputs) returns (cleared: World)
    requires UnderHold(cfg, w, asked) && w.console.stage == WaitDepth && w.console.depthEnabled
    requires w.console.depthOpenAt == reopening.now && w.console.depthOpenStamp == reopening.stamp
    requires w.console.lastServoAt + cfg.settle <= reopening.now <= seen.now && InTime(cfg, asked, seen) && seen.still
    requires NewerThanReopening(reopening, seen) && seen.clearReady
    ensures cleared == Step(cfg, w, Continue(seen))
    ensures UnderHold(cfg, cleared, asked) && cleared.console.lastServoAt == w.console.lastServoAt
    ensures cleared.console.stage == Rebuild && cleared.console.depthEnabled
    ensures cleared.console.clearStamp == seen.stamp && cleared.console.clearBarrier == seen.layerSequences
  {
    cleared := Step(cfg, w, Continue(seen));
  }

  lemma ReleaseTaken(cfg: Settings, w: World, asked: Inputs, seen: Inputs, rebuilt: Inputs)
    requires UnderHold(cfg, w, asked) && w.console.stage == Rebuild && w.console.depthEnabled
    requires w.console.clearStamp == seen.stamp && w.console.clearBarrier == seen.layerSequences
    requires w.console.lastServoAt + cfg.settle <= rebuilt.now && InTime(cfg, asked, rebuilt) && rebuilt.still
    requires NewerThanClearing(seen, rebuilt) && 16 <= |cfg.owner| <= 100
    ensures var after := Step(cfg, Step(cfg, w, Continue(rebuilt)), Answer(rebuilt.now, 0, true));
            && after.console.active && after.console.kind == Restore && after.console.stage == Done && after.console.depthEnabled
            && after.console.operationAt == asked.now && after.driver.owner == "" && after.driver.board == LEVEL
  {
    var asking := Step(cfg, w, Continue(rebuilt));
    assert asking.console.pending == Some(HoldRequest(false, Some(w.console.generation))) && asking.driver == w.driver;
  }

  // ---------------------------------------------------------------- the console

  /** The fields the step function works on, kept in one record; the ghost field records what was seen. */
  class StepRunner {
    const settings: Settings
    var console: Console
    ghost var evidence: Evidence

    constructor (settings: Settings, startNs: int)
      ensures this.settings == settings && console == Boot(startNs).console && evidence == NOTHING
    {
      this.settings := settings;
      console := Boot(startNs).console;
      evidence := NOTHING;
    }

    method Hold(i: Inputs) returns (result: Result)
      requires console.pending.None?
      modifies `console
      ensures Outcome(console, evidence, result) == HoldStep(old(console), evidence, i)
    {
      if !i.servicesReady {
        return Thrown;
      }
      console := console.(pending := Some(HoldRequest(true, None)));
      result := Waiting;
    }

    method Turn(target: int, i: Inputs) returns (result: Result)
      requires console.board != target
      modifies this
      ensures Outcome(console, evidence, result) == TurnStep(settings, old(console), old(evidence), target, i)
    {
      console := console.(depthEnabled := false);
      if i.now - console.lastServoAt >= SERVO_INTERVAL {
        if !i.servicesReady {
          return Thrown;
        }
        var next := console.board + if target > console.board then 1 else -1;
        console := console.(pending := Some(ServoRequest(i.commandId, console.board, next, i.deadlineNs)));
        evidence := evidence.(steps := evidence.steps + [next]);
      }
      result := Waiting;
    }

    method Advance(i: Inputs) returns (result: Result)
      modifies this
      ensures Outcome(console, evidence, result) == StageStep(old(console), old(evidence), i)
    {
      result := Waiting;
      match console.stage
      case Fresh =>
        console := console.(depthEnabled := true, depthOpenStamp := i.stamp, depthOpenAt := i.now, stage := WaitDepth);
        evidence := evidence.(reopened := Some(i));
      case WaitDepth =>
        if !DepthBack(console, i) {
          return;
        }
        if !i.clearReady {
          return Thrown;
        }
        console := console.(clearStamp := i.stamp, clearBarrier := i.layerSequences, stage := Rebuild);
        evidence := evidence.(seen := Some(i));
      case Rebuild =>
        if !MapsRebuilt(console, i) {
          return;
        }
        if i.clearFailed {
          return Thrown;
        }
        console := console.(stage := Releasing);
        if !i.servicesReady {
          return Thrown;
        }
        console := console.(pending := Some(HoldRequest(false, Some(console.generation))));
        evidence := evidence.(rebuilt := Some(i));
      case Releasing =>
      case Done =>
        result := Success;
    }

    method Camera(i: Inputs) returns (result: Result)
      modifies this
      ensures Outcome(console, evidence, result) == CameraStep(settings, old(console), old(evidence), i)
    {
      hide StageStep, TurnStep, HoldStep;
      if console.kind == Restore && console.stage == Done {
        return Success;
      }
      if console.pending.Some? {
        return Waiting;
      }
      if !console.held {
        result := Hold(i);
        return;
      }
      if !i.still {
        return Waiting;
      }
      var target := if console.kind.Adjust? then console.kind.target else LEVEL;
      if console.board != target {
        result := Turn(target, i);
        return;
      }
      if i.now - console.lastServoAt < settings.settle {
        return Waiting;
      }
      if console.kind.Adjust? {
        console := console.(depthEnabled := false);
        return if i.frameReady then Success else Waiting;
      }
      result := Advance(i);
    }

    method StopVehicle(i: Inputs) returns (result: Result)
      modifies `console
      ensures Outcome(console, evidence, result) == StopStep(old(console), evidence, i)
    {
      if console.pending.Some? {
        return Waiting;
      }
      if !console.held {
        result := Hold(i);
        return;
      }
      result := if i.still && i.navigationOver then Success else Waiting;
    }

    /** One call of the step function; start is given when a step begins. */
    method Step(start: Option<Kind>, i: Inputs) returns (result: Result)
      modifies this
      ensures forall driver :: Outcome(console, evidence, result) ==
                Called(settings, World(old(console), driver, old(evidence)), start, i)
    {
      hide CameraStep, StopStep;
      if start.Some? {
        console := console.(active := true, kind := start.value, stage := Fresh, operationAt := i.now,
                            generation := console.generation + 1);
        evidence := NOTHING;
      }
      if !(i.now - console.operationAt < settings.operationTimeout) || !i.healthy {
        result := Thrown;
      } else if console.kind == Stop {
        result := StopVehicle(i);
      } else {
        result := Camera(i);
      }
      console := console.(active := result == Waiting);
    }

    method Stopped()
      modifies `console
      ensures console == Halted(old(console))
    {
      console := console.(active := false, depthEnabled := false, generation := console.generation + 1);
    }
  }
}
