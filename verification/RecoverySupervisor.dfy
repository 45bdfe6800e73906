/**
 The recovery supervisor: it ticks either the navigation child (0) or the recovery child (1), and every
 time it changes between them, or between tasks, it first crosses a barrier: the motion goal is over and
 the vehicle has been still.
 */
module RecoverySupervisor {
  import opened RecoveryRuntime

  const UUID_WAIT: real := 2.0

  datatype Sup = Sup(
    initialized: bool, switching: bool, replanTried: bool, startingTask: bool, inputWaiting: bool,
    active: nat, next: nat, cancelDeadline: real, settleStarted: Option<real>, uuidWait: Option<real>,
    inputWaitStarted: real, inputHealthySince: Option<real>, perceptionWait: Option<real>,
    uuid: string, startingUuid: string, goal: int, goals: seq<int>)

  const REST := Sup(false, false, false, false, false, 0, 0, 0.0, None, None, 0.0, None, None, "", "", 0, [])

  /** What the input check says; a missing input and a lost localization are handled differently. */
  datatype Ready = Ready | Unlocalized | Missing

  /**
   What one tick finds: the task's id, its goals, the health of perception and inputs, whether odometry
   is fresh, what happens below the active child while it is ticked, its answer, and the goals left then.
   */
  datatype Finds = Finds(
    at: real, uuid: string, through: bool, goal: int, goals: seq<int>, perception: bool, ready: Ready,
    odomFresh: bool, ops: seq<Op>, child: Status, remaining: Option<seq<int>>)

  /** A step of the tick, with the status it returns, if it ends the tick. */
  datatype Stage = Stage(sup: Sup, rt: Runtime, out: Option<Status>)

  datatype World = World(sup: Sup, rt: Runtime, status: Status)

  /** A tick that ends here leaves no permission to move. */
  predicate Held(s: Stage) {
    Sound(s.rt) && (s.out.Some? ==> s.rt.permission == 0)
  }

  function Since(now: real, start: Option<real>): real {
    now - if start.Some? then start.value else 0.0
  }

  // ---------------------------------------------------------------- stopping

  /** Take the permit back, halt every leaf and cancel the motion goal. */
  function Quieted(rt: Runtime): (t: Runtime)
    requires Sound(rt)
    ensures Sound(t) && Quieter(rt, t) && t.permission == 0
  {
    QuietedSound(rt);
    var halted := AllHalted(Revoked(rt), 0);
    Canceled(halted, halted.motion)
  }

  lemma QuietedSound(rt: Runtime)
    requires Sound(rt)
    ensures Sound(Revoked(rt)) && Linked(Revoked(rt))
    ensures var halted := AllHalted(Revoked(rt), 0);
            Sound(halted) && Linked(halted) && Sound(Canceled(halted, halted.motion)) &&
            Quieter(Revoked(rt), Canceled(halted, halted.motion))
  {
    hide Sound, AllHalted, Canceled;
    PlainChanges(rt, rt.now);
    AllHaltedSound(Revoked(rt), 0);
    var halted := AllHalted(Revoked(rt), 0);
    SoundIsLinked(halted);
    CancelSound(halted, halted.motion);
  }

  /** Stop, then go on with the given child; a stop already under way keeps its deadlines. */
  function StopThen(cfg: Settings, sup: Sup, rt: Runtime, next: nat): (s: Stage)
    requires Sound(rt)
    ensures Held(s) && Quieter(rt, s.rt) && s.rt.permission == 0 && s.out.None? && s.sup.switching && s.sup.next == next
  {
    var t := sup.(next := next);
    Stage(if sup.switching then t
          else t.(switching := true, cancelDeadline := rt.now + cfg.cancelTimeout, settleStarted := None),
          Quieted(rt), None)
  }

  function Failed(sup: Sup, rt: Runtime): (s: Stage)
    requires Sound(rt)
    ensures Held(s) && Quieter(rt, s.rt) && s.out == Some(Failure) && s.sup == sup
  {
    PlainChanges(rt, rt.now);
    Stage(sup, Quieted(Faulted(rt)), Some(Failure))
  }

  function Returning(s: Stage, status: Status): Stage {
    s.(out := Some(status))
  }

  /** Settling begins once, and stillness is timed anew from there. */
  function SettlingBegun(sup: Sup, rt: Runtime): (s: Stage)
    requires Sound(rt)
    ensures Held(s) && Quieter(rt, s.rt) && s.sup.settleStarted.Some? && s.rt.motion == rt.motion && s.rt.sessions == rt.sessions
  {
    PlainChanges(rt, rt.now);
    if sup.settleStarted.None? then Stage(sup.(settleStarted := Some(rt.now)), rt.(still := None), None)
    else Stage(sup, rt, None)
  }

  /** Still long enough ends the stop; not in time is a fault. */
  function StillnessAwaited(cfg: Settings, sup: Sup, rt: Runtime, odomFresh: bool): (s: Stage)
    requires Sound(rt) && Linked(rt) && !MotionBusy(rt) && sup.settleStarted.Some? && rt.permission == 0
    ensures Held(s) && Quieter(rt, s.rt)
  {
    if StillFor(rt, cfg.stillDuration, odomFresh) then
      MotionForgotten(rt);
      Stage(sup.(switching := false, active := sup.next), rt.(motion := None), None)
    else if rt.now - sup.settleStarted.value >= cfg.settleTimeout then Failed(sup, rt)
    else Stage(sup, rt, Some(Running))
  }

  /** The barrier: the motion goal over, then stillness confirmed since settling began. */
  function FinishStop(cfg: Settings, sup: Sup, rt0: Runtime, odomFresh: bool): (s: Stage)
    requires Sound(rt0)
    ensures Held(s) && Quieter(rt0, s.rt)
  {
    PlainChanges(rt0, rt0.now);
    SoundIsLinked(rt0);
    var rt := Revoked(rt0);
    if MotionBusy(rt) then
      if rt.now >= sup.cancelDeadline then Failed(sup, rt) else Stage(sup, rt, Some(Running))
    else if sup.inputWaiting && !odomFresh then Stage(sup.(settleStarted := None), rt, Some(Running))
    else
      var settling := SettlingBegun(sup, rt);
      SoundIsLinked(settling.rt);
      StillnessAwaited(cfg, settling.sup, settling.rt, odomFresh)
  }

  /** When a stop is pending, the tick goes no further before the barrier is crossed. */
  function Crossed(cfg: Settings, s: Stage, odomFresh: bool): (t: Stage)
    requires Held(s)
    ensures Held(t) && Quieter(s.rt, t.rt)
  {
    if s.out.Some? || !s.sup.switching then s else FinishStop(cfg, s.sup, s.rt, odomFresh)
  }

  /** No motion goal is left and odometry has shown a stopped vehicle for the still duration. */
  ghost predicate AtBarrier(cfg: Settings, rt: Runtime) {
    && rt.motion.None?
    && (forall id :: 0 <= id < |rt.sessions| ==> !Live(rt.sessions[id]))
    && rt.still.Some? && rt.now - rt.still.value >= cfg.stillDuration
    && Sample(rt.still.value, true) in rt.samples
    && (forall i :: 0 <= i < |rt.samples| && rt.samples[i].at > rt.still.value ==> rt.samples[i].stopped)
  }

  /** Stillness timed before settling began does not count; the children are two. */
  predicate Settled(sup: Sup, rt: Runtime) {
    && (sup.switching && sup.settleStarted.Some? ==>
          sup.settleStarted.value <= rt.now && (rt.still.Some? ==> rt.still.value >= sup.settleStarted.value))
    && sup.active <= 1 && sup.next <= 1
  }

  /** A stop was already settling, and what odometry reports as stillness began after that. */
  predicate StillSince(sup: Sup, rt: Runtime) {
    sup.switching && sup.settleStarted.Some? && rt.still.Some? && rt.still.value >= sup.settleStarted.value
  }

  /** A stop that is settling was so before, from the same moment. */
  predicate SettlingAsBefore(sup: Sup, t: Sup) {
    t.switching && t.settleStarted.Some? ==> sup.switching && sup.settleStarted == t.settleStarted
  }

  /** Settling is not disturbed by anything that only makes the runtime quieter. */
  lemma SettledLater(sup: Sup, rt: Runtime, t: Runtime)
    requires Settled(sup, rt) && Steady(rt, t)
    ensures Settled(sup, t)
  {}

  lemma StillnessCrosses(cfg: Settings, sup: Sup, rt: Runtime, odomFresh: bool)
    requires Sound(rt) && Linked(rt) && !MotionBusy(rt) && sup.settleStarted.Some? && rt.permission == 0
    requires sup.switching && Settled(sup, rt)
    ensures var s := StillnessAwaited(cfg, sup, rt, odomFresh);
            && Settled(s.sup, s.rt)
            && (if s.out.None? then
                  && AtBarrier(cfg, s.rt) && s.sup == sup.(switching := false, active := sup.next)
                  && s.rt.still == rt.still && s.rt.still.value >= sup.settleStarted.value
                else s.sup == sup)
  {
    hide Quieted, Linked;
    NoneLive(rt);
  }

  lemma SettlingSettled(sup: Sup, rt: Runtime)
    requires Sound(rt) && sup.switching && Settled(sup, rt)
    ensures var s := SettlingBegun(sup, rt);
            && Settled(s.sup, s.rt) && s.sup == sup.(settleStarted := s.sup.settleStarted) && s.sup.settleStarted.Some?
            && (sup.settleStarted.None? ==> s.rt.still.None?) && (sup.settleStarted.Some? ==> s.sup == sup)
  {
    hide Sound;
  }

  /** The stop ends only at the barrier, with stillness that began after settling did. */
  lemma FinishStopCrosses(cfg: Settings, sup: Sup, rt0: Runtime, odomFresh: bool)
    requires Sound(rt0) && sup.switching && Settled(sup, rt0)
    ensures var s := FinishStop(cfg, sup, rt0, odomFresh);
            && Settled(s.sup, s.rt)
            && (if s.out.None? then
                  && AtBarrier(cfg, s.rt) && s.sup == sup.(switching := false, active := sup.next)
                  && StillSince(sup, s.rt)
                else s.sup == sup.(settleStarted := s.sup.settleStarted))
  {
    hide Sound, Failed, StillnessAwaited, AtBarrier, SettlingBegun, Settled, MotionBusy;
    var rt := Revoked(rt0);
    PlainChanges(rt0, rt0.now);
    SoundIsLinked(rt);
    SettledLater(sup, rt0, rt);
    if MotionBusy(rt) {
      SettledLater(sup, rt, Failed(sup, rt).rt);
    } else if sup.inputWaiting && !odomFresh {
      Unsettled(sup, rt);
    } else {
      SettlingSettled(sup, rt);
      var settling := SettlingBegun(sup, rt);
      SoundIsLinked(settling.rt);
      SameMotion(rt, settling.rt);
      StillnessCrosses(cfg, settling.sup, settling.rt, odomFresh);
      BarrierIsStill(cfg, StillnessAwaited(cfg, settling.sup, settling.rt, odomFresh).rt);
    }
  }

  lemma BarrierIsStill(cfg: Settings, rt: Runtime)
    ensures AtBarrier(cfg, rt) ==> rt.still.Some?
  {}

  lemma Unsettled(sup: Sup, rt: Runtime)
    requires Settled(sup, rt)
    ensures Settled(sup.(settleStarted := None), rt)
  {}

  lemma SameMotion(rt: Runtime, t: Runtime)
    requires Linked(rt) && Linked(t) && t.motion == rt.motion && t.sessions == rt.sessions
    ensures MotionBusy(rt) <==> MotionBusy(t)
  {}

  lemma NoneLive(rt: Runtime)
    requires Sound(rt)
    ensures Linked(rt)
    ensures !MotionBusy(rt) ==> forall id :: 0 <= id < |rt.sessions| ==> !Live(rt.sessions[id])
  {}

  // ---------------------------------------------------------------- a new task

  /** Nothing of an earlier task is kept but the barrier just crossed. */
  function NewTask(sup: Sup, rt: Runtime, goal: int, goals: seq<int>): Stage {
    Stage(sup.(inputWaiting := false, inputWaitStarted := 0.0, inputHealthySince := None, initialized := true,
               goal := goal, goals := goals, uuid := sup.startingUuid, replanTried := false, active := 0,
               startingTask := false, startingUuid := "", uuidWait := None),
          rt.(permission := 0, fault := false, recoveryActive := false, recoveryStarted := 0.0, motion := None),
          Some(Running))
  }

  predicate StaleUuid(sup: Sup, uuid: string) {
    uuid == "" || (sup.uuid != "" && uuid == sup.uuid)
  }

  /** Waits for a new task id; once there is one, stops whatever the previous task left. */
  function TaskNamed(cfg: Settings, sup: Sup, rt0: Runtime, f: Finds): (s: Stage)
    requires Sound(rt0)
    ensures Held(s) && Quieter(rt0, s.rt)
  {
    PlainChanges(rt0, rt0.now);
    var rt := Revoked(rt0);
    if sup.startingUuid != "" then Stage(sup, rt, None)
    else if StaleUuid(sup, f.uuid) then
      if Since(rt.now, sup.uuidWait) > UUID_WAIT then Failed(sup, rt) else Stage(sup, rt, Some(Running))
    else StopThen(cfg, sup.(startingUuid := f.uuid), rt, 0)
  }

  /** Between naming a new task and starting it the motion goal is gone, or the stop is still pending. */
  predicate TaskPending(sup: Sup, rt: Runtime) {
    sup.startingUuid == "" || sup.switching || rt.motion.None?
  }

  function TaskStarted(cfg: Settings, sup: Sup, rt: Runtime, f: Finds): (s: Stage)
    requires Sound(rt) && TaskPending(sup, rt)
    ensures Held(s) && Quieter(rt, s.rt) && s.out.Some?
  {
    var s := Crossed(cfg, TaskNamed(cfg, sup, rt, f), f.odomFresh);
    if s.out.Some? then s
    else if f.ready != Ready.Ready then Returning(s, Running)
    else if !StillFor(s.rt, cfg.stillDuration, f.odomFresh) then Returning(StopThen(cfg, s.sup, s.rt, 0), Running)
    else
      NoMotionLeft(cfg, sup, rt, f);
      IdleReset(s.rt);
      NewTask(s.sup, s.rt, f.goal, f.goals)
  }

  lemma NoMotionLeft(cfg: Settings, sup: Sup, rt: Runtime, f: Finds)
    requires Sound(rt) && TaskPending(sup, rt)
    ensures var s := Crossed(cfg, TaskNamed(cfg, sup, rt, f), f.odomFresh);
            s.out.None? ==> s.rt.motion.None? && s.sup.startingUuid != "" && !s.sup.switching
  {
    hide Sound, FinishStop, Quieted, Failed, StillFor;
    CrossedClears(cfg, TaskNamed(cfg, sup, rt, f), f.odomFresh);
    PlainChanges(rt, rt.now);
  }

  lemma CrossedClears(cfg: Settings, s: Stage, odomFresh: bool)
    requires Held(s)
    ensures var t := Crossed(cfg, s, odomFresh);
            s.out.None? && t.out.None? ==>
              !t.sup.switching && t.sup.startingUuid == s.sup.startingUuid && (s.sup.switching ==> t.rt.motion.None?) &&
              (!s.sup.switching ==> t == s)
  {
    hide Sound, Quieted, Failed, StillFor;
  }

  lemma IdleReset(rt: Runtime)
    requires Sound(rt) && rt.motion.None?
    ensures Sound(rt.(permission := 0, fault := false, recoveryActive := false, recoveryStarted := 0.0, motion := None))
  {}

  // ---------------------------------------------------------------- before the child

  /** A changed task or goal stops the vehicle and plans again. */
  function GoalsNoted(cfg: Settings, sup: Sup, rt: Runtime, f: Finds): (s: Stage)
    requires Sound(rt)
    ensures Held(s) && Quieter(rt, s.rt)
  {
    if rt.fault then Failed(sup, rt)
    else
      var changed := sup.initialized &&
        ((f.uuid != "" && sup.uuid != "" && f.uuid != sup.uuid) || f.goal != sup.goal || f.goals != sup.goals);
      var named := if f.uuid != "" then sup.(uuid := f.uuid) else sup;
      if !sup.initialized || changed then
        StopThen(cfg, named.(initialized := true, goal := f.goal, goals := f.goals, replanTried := false), rt, 0)
      else Stage(if sup.uuid == "" then named else sup, rt, None)
  }

  /** Without perception the vehicle stops and waits. */
  function PerceptionMissing(cfg: Settings, sup: Sup, rt: Runtime, f: Finds): (t: Stage)
    requires Sound(rt)
    ensures Held(t) && Quieter(rt, t.rt) && t.out.Some?
  {
    var stopped := if sup.perceptionWait.None? then StopThen(cfg, sup.(perceptionWait := Some(rt.now)), rt, 0)
                   else Stage(sup, rt, None);
    PlainChanges(stopped.rt, rt.now);
    var crossed := Crossed(cfg, stopped.(rt := Revoked(stopped.rt)), f.odomFresh);
    if crossed.out.Some? then crossed else Returning(crossed, Running)
  }

  /** Perception is back: the vehicle stops again and the other waits are extended by the pause. */
  function PerceptionBack(cfg: Settings, sup: Sup, rt: Runtime, since: real): (t: Stage)
    requires Sound(rt)
    ensures Held(t) && Quieter(rt, t.rt) && t.out.None?
  {
    var paused := rt.now - since;
    var extended := if rt.recoveryActive then rt.(recoveryStarted := rt.recoveryStarted + paused) else rt;
    var waiting := if sup.inputWaiting then sup.(inputWaitStarted := sup.inputWaitStarted + paused) else sup;
    RecoveryRestarted(rt, rt.recoveryStarted + paused);
    StopThen(cfg, waiting.(perceptionWait := None), extended, 0)
  }

  function PerceptionAwaited(cfg: Settings, s: Stage, f: Finds): (t: Stage)
    requires Held(s)
    ensures Held(t) && Quieter(s.rt, t.rt)
  {
    if s.out.Some? then s
    else if !f.perception then PerceptionMissing(cfg, s.sup, s.rt, f)
    else if s.sup.perceptionWait.Some? then PerceptionBack(cfg, s.sup, s.rt, s.sup.perceptionWait.value)
    else s
  }

  lemma RecoveryRestarted(rt: Runtime, at: real)
    requires Sound(rt)
    ensures Sound(rt.(recoveryStarted := at))
  {}

  /** The whole recovery, and the wait for inputs, are limited in time. */
  function TimeLimited(cfg: Settings, s: Stage): (t: Stage)
    requires Held(s)
    ensures Held(t) && Quieter(s.rt, t.rt)
  {
    if s.out.Some? then s
    else if s.rt.recoveryActive && s.rt.now - s.rt.recoveryStarted >= cfg.recoveryTimeout then Failed(s.sup, s.rt)
    else if s.sup.inputWaiting && s.rt.now - s.sup.inputWaitStarted >= cfg.inputWaitTimeout then Failed(s.sup, s.rt)
    else s
  }

  /** Missing inputs stop everything; once back they must stay good for a while. */
  function InputsAwaited(cfg: Settings, s: Stage, f: Finds): (t: Stage)
    requires Held(s)
    ensures Held(t) && Quieter(s.rt, t.rt)
  {
    RecoveryFlagged(s.rt);
    PlainChanges(s.rt, s.rt.now);
    if s.out.Some? then s
    else if f.ready == Missing then
      var sup := if s.sup.inputWaiting then s.sup else s.sup.(inputWaiting := true, inputWaitStarted := s.rt.now);
      Returning(StopThen(cfg, sup.(inputHealthySince := None), BegunRecovery(s.rt), 0), Running)
    else if s.sup.inputWaiting then
      var rt := Revoked(s.rt);
      if f.ready == Unlocalized then
        var stopped := StopThen(cfg, s.sup.(inputHealthySince := None), rt, 1);
        Returning(stopped.(sup := stopped.sup.(inputWaiting := false)), Running)
      else
        var since := if s.sup.inputHealthySince.None? then Some(rt.now) else s.sup.inputHealthySince;
        if rt.now - since.value < cfg.inputHealthyDuration then
          Stage(s.sup.(inputHealthySince := since), rt, Some(Running))
        else Stage(s.sup.(inputHealthySince := since, inputWaiting := false), rt, None)
    else s
  }

  /** Lost localization and an unnamed task keep the navigation child from running. */
  function NavigationGated(cfg: Settings, s: Stage, f: Finds): (t: Stage)
    requires Held(s)
    ensures Held(t) && Quieter(s.rt, t.rt)
  {
    if s.out.Some? || s.sup.active != 0 then s
    else if f.ready != Ready.Ready then
      var stopped := StopThen(cfg, s.sup, s.rt, 1);
      RecoveryFlagged(stopped.rt);
      Stage(stopped.sup, BegunRecovery(stopped.rt), Some(Running))
    else if f.uuid == "" then
      PlainChanges(s.rt, s.rt.now);
      var rt := Revoked(s.rt);
      var sup := if s.sup.uuidWait.None? then s.sup.(uuidWait := Some(rt.now)) else s.sup;
      if Since(rt.now, sup.uuidWait) > UUID_WAIT then Failed(sup, rt) else Stage(sup, rt, Some(Running))
    else s
  }

  /** Everything a tick does before it ticks the active child; it does tick it when no status is returned. */
  function BeforeChild(cfg: Settings, sup: Sup, rt: Runtime, f: Finds): (s: Stage)
    requires Sound(rt)
    ensures Held(s) && Quieter(rt, s.rt)
  {
    var noted := GoalsNoted(cfg, sup, rt, f);
    var perceived := PerceptionAwaited(cfg, noted, f);
    var limited := TimeLimited(cfg, perceived);
    var crossed := Crossed(cfg, limited, f.odomFresh);
    var supplied := InputsAwaited(cfg, crossed, f);
    NavigationGated(cfg, supplied, f)
  }

  // ---------------------------------------------------------------- the child and after

  /** Whether the motion goal may move the vehicle now. */
  predicate Movable(rt: Runtime, ready: Ready)
    requires Linked(rt)
  {
    rt.motion.Some? && ready == Ready.Ready &&
    var s := rt.sessions[rt.motion.value];
    s.accepted && !s.terminal && !s.cancelRequested && !s.timedOut
  }

  /** Goals passed in this tick are dropped from the list the supervisor compares with. */
  function GoalsLeft(sup: Sup, f: Finds): Sup {
    if f.through && f.remaining.Some? && f.remaining.value != [] && |f.remaining.value| < |sup.goals| &&
       f.remaining.value == sup.goals[|sup.goals| - |f.remaining.value|..]
    then sup.(goals := f.remaining.value) else sup
  }

  /** The one place that can give permission to move. */
  function Judged(cfg: Settings, sup: Sup, rt0: Runtime, f: Finds): (s: Stage)
    requires Sound(rt0)
    ensures Sound(s.rt) && Steady(rt0, s.rt)
  {
    SoundIsLinked(rt0);
    var allow := Movable(rt0, f.ready);
    var s := if f.ready != Ready.Ready && MotionBusy(rt0) then StopThen(cfg, sup, rt0, 1) else Stage(sup, rt0, None);
    PermittedSound(s.rt, allow && !s.sup.switching);
    s.(rt := Permitted(s.rt, allow && !s.sup.switching))
  }

  lemma PermittedSound(rt: Runtime, allowed: bool)
    requires Sound(rt)
    ensures Sound(Permitted(rt, allowed))
  {}

  /** What the child's answer leads to. */
  function Concluded(cfg: Settings, sup: Sup, rt0: Runtime, child: Status): (s: Stage)
    requires Sound(rt0)
    ensures Sound(s.rt) && Quieter(rt0, s.rt) && s.out.Some?
  {
    if rt0.fault then Failed(sup, rt0)
    else if sup.switching || child == Running then Stage(sup, rt0, Some(Running))
    else
      PlainChanges(rt0, rt0.now);
      var rt := Revoked(rt0);
      if child == Success && sup.active == 0 then
        SoundIsLinked(rt);
        AllHaltedSound(rt, 0);
        Stage(sup.(initialized := false), AllHalted(rt, 0), Some(Success))
      else if child == Failure && sup.active == 1 then Failed(sup, rt)
      else if sup.active == 0 then
        RecoveryFlagged(rt);
        Returning(StopThen(cfg, sup.(replanTried := true), BegunRecovery(rt), if sup.replanTried then 1 else 0), Running)
      else Returning(StopThen(cfg, sup, rt, 0), Running)
  }

  function AfterChild(cfg: Settings, sup: Sup, rt: Runtime, f: Finds): (s: Stage)
    requires Sound(rt)
    ensures Sound(s.rt) && Steady(rt, s.rt) && s.out.Some?
  {
    var judged := Judged(cfg, GoalsLeft(sup, f), rt, f);
    Concluded(cfg, judged.sup, judged.rt, f.child)
  }

  // ---------------------------------------------------------------- the node

  function Entered(w: World, now: real): Sup {
    if w.status == Idle then w.sup.(startingTask := true, startingUuid := "", uuidWait := Some(now)) else w.sup
  }

  predicate WellFormed(w: World) {
    Sound(w.rt) && (w.sup.startingTask ==> TaskPending(w.sup, w.rt))
  }

  function Staged(cfg: Settings, w: World, f: Finds): (s: Stage)
    requires WellFormed(w)
    ensures Held(s) && Quieter(w.rt, s.rt)
  {
    TimePasses(w.rt, f.at);
    var rt := At(w.rt, f.at);
    var sup := Entered(w, rt.now);
    if sup.startingTask then TaskStarted(cfg, sup, rt, f) else BeforeChild(cfg, sup, rt, f)
  }

  function Ticked(cfg: Settings, w: World, f: Finds): World
    requires WellFormed(w)
  {
    var s := Staged(cfg, w, f);
    if s.out.Some? then World(s.sup, s.rt, s.out.value)
    else
      var below := AppliedAll(cfg, s.rt, f.ops);
      var done := AfterChild(cfg, s.sup, below, f);
      World(done.sup, done.rt, done.out.value)
  }

  // ---------------------------------------------------------------- the barrier over a whole tick

  /** Nothing new moves, and stillness is as it was. */
  predicate Calm(rt: Runtime, t: Runtime) {
    && t.motion == rt.motion && |t.sessions| == |rt.sessions|
    && (forall id :: 0 <= id < |t.sessions| && Live(t.sessions[id]) ==> Live(rt.sessions[id]))
    && t.still == rt.still && t.samples == rt.samples && t.now == rt.now
  }

  lemma CancelCalm(rt: Runtime, id: Option<nat>)
    requires Known(rt, id)
    ensures Calm(rt, Canceled(rt, id))
  {}

  lemma HaltCalm(rt: Runtime, i: nat)
    requires Linked(rt) && i < |rt.leaves|
    ensures Calm(rt, LeafHalts(rt, i))
  {
    hide Canceled;
    var quiet := if rt.leaves[i].moves then Revoked(rt) else rt;
    CancelCalm(quiet, rt.leaves[i].session);
  }

  lemma {:induction false} AllHaltedCalm(rt: Runtime, from: nat)
    requires Linked(rt) && from <= |rt.leaves|
    ensures Calm(rt, AllHalted(rt, from))
    decreases |rt.leaves| - from
  {
    hide LeafHalts, Linked;
    if from < |rt.leaves| {
      HaltKeepsLinks(rt, from);
      HaltCalm(rt, from);
      AllHaltedCalm(LeafHalts(rt, from), from + 1);
    }
  }

  lemma QuietedCalm(rt: Runtime)
    requires Sound(rt)
    ensures Calm(rt, Quieted(rt))
  {
    hide Sound, AllHalted, Canceled, Linked, Known;
    QuietedSound(rt);
    AllHaltedCalm(Revoked(rt), 0);
    var halted := AllHalted(Revoked(rt), 0);
    SoundIsLinked(halted);
    MotionKnown(halted);
    CancelCalm(halted, halted.motion);
  }

  lemma MotionKnown(rt: Runtime)
    requires Linked(rt)
    ensures Known(rt, rt.motion)
  {}

  lemma CalmStays(cfg: Settings, rt: Runtime, t: Runtime)
    requires AtBarrier(cfg, rt) && Calm(rt, t)
    ensures AtBarrier(cfg, t)
  {}

  /** The active child stays, a pending stop stays pending, and a task start is not touched. */
  predicate KeptCourse(sup: Sup, t: Sup) {
    t.active == sup.active && (sup.switching ==> t.switching) &&
    t.startingTask == sup.startingTask && t.startingUuid == sup.startingUuid
  }

  /** What a stage that only waits or stops does. */
  ghost predicate Waits(cfg: Settings, s: Stage, t: Stage) {
    && KeptCourse(s.sup, t.sup) && Settled(t.sup, t.rt) && SettlingAsBefore(s.sup, t.sup) && t.rt.still == s.rt.still
    && (t.out.None? ==> s.out.None?)
    && (AtBarrier(cfg, s.rt) ==> AtBarrier(cfg, t.rt))
  }

  lemma StopThenWaits(cfg: Settings, sup: Sup, rt: Runtime, next: nat)
    requires Sound(rt) && Settled(sup, rt) && next <= 1
    ensures var t := StopThen(cfg, sup, rt, next);
            Waits(cfg, Stage(sup, rt, None), t) && t.sup.switching && t.sup.uuid == sup.uuid
  {
    hide Sound, Quieted, AtBarrier;
    QuietedCalm(rt);
    if AtBarrier(cfg, rt) {
      CalmStays(cfg, rt, Quieted(rt));
    }
  }

  lemma FailedWaits(cfg: Settings, sup: Sup, rt: Runtime)
    requires Sound(rt) && Settled(sup, rt)
    ensures Waits(cfg, Stage(sup, rt, None), Failed(sup, rt))
  {
    hide Sound, Quieted, AtBarrier;
    PlainChanges(rt, rt.now);
    QuietedCalm(Faulted(rt));
    if AtBarrier(cfg, rt) {
      CalmStays(cfg, rt, Quieted(Faulted(rt)));
    }
  }

  lemma RevokedWaits(cfg: Settings, sup: Sup, rt: Runtime)
    requires Settled(sup, rt)
    ensures Waits(cfg, Stage(sup, rt, None), Stage(sup, Revoked(rt), None))
    ensures Waits(cfg, Stage(sup, rt, None), Stage(sup, BegunRecovery(rt), None))
  {}

  lemma GoalsNotedWaits(cfg: Settings, sup: Sup, rt: Runtime, f: Finds)
    requires Sound(rt) && Settled(sup, rt)
    ensures Waits(cfg, Stage(sup, rt, None), GoalsNoted(cfg, sup, rt, f))
  {
    hide Sound, StopThen, Failed, AtBarrier;
    FailedWaits(cfg, sup, rt);
    var named := if f.uuid != "" then sup.(uuid := f.uuid) else sup;
    var stopping := named.(initialized := true, goal := f.goal, goals := f.goals, replanTried := false);
    StopThenWaits(cfg, stopping, rt, 0);
  }

  /** Crossing ends a pending stop, at the barrier; otherwise the tick ends there. */
  lemma CrossedAtBarrier(cfg: Settings, s: Stage, odomFresh: bool)
    requires Held(s) && Settled(s.sup, s.rt)
    ensures var t := Crossed(cfg, s, odomFresh);
            && Settled(t.sup, t.rt) && t.sup.startingTask == s.sup.startingTask && t.sup.startingUuid == s.sup.startingUuid
            && t.sup.uuid == s.sup.uuid && t.sup.next == s.sup.next
            && (s.out.Some? ==> t == s)
            && (t.out.Some? ==> t.sup.active == s.sup.active && t.sup.switching == s.sup.switching)
            && (t.out.None? ==>
                  s.out.None? && !t.sup.switching &&
                  if s.sup.switching then AtBarrier(cfg, t.rt) && StillSince(s.sup, t.rt) && t.sup.active == s.sup.next else t == s)
  {
    hide Sound, FinishStop, AtBarrier;
    if s.out.None? && s.sup.switching {
      FinishStopCrosses(cfg, s.sup, s.rt, odomFresh);
    }
  }

  /** While perception is missing the tick ends; the active child can change only at the barrier. */
  lemma MissingSteers(cfg: Settings, sup: Sup, rt: Runtime, f: Finds)
    requires Sound(rt) && Settled(sup, rt)
    ensures var t := PerceptionMissing(cfg, sup, rt, f);
            && Settled(t.sup, t.rt) && t.sup.startingTask == sup.startingTask && t.sup.startingUuid == sup.startingUuid
            && (KeptCourse(sup, t.sup) || (AtBarrier(cfg, t.rt) && StillSince(sup, t.rt)))
  {
    hide Sound, StopThen, Crossed, AtBarrier;
    var waiting := sup.(perceptionWait := Some(rt.now));
    StopThenWaits(cfg, waiting, rt, 0);
    var stopped := if sup.perceptionWait.None? then StopThen(cfg, waiting, rt, 0) else Stage(sup, rt, None);
    PlainChanges(stopped.rt, rt.now);
    RevokedWaits(cfg, stopped.sup, stopped.rt);
    CrossedAtBarrier(cfg, stopped.(rt := Revoked(stopped.rt)), f.odomFresh);
  }

  lemma BackWaits(cfg: Settings, sup: Sup, rt: Runtime, since: real)
    requires Sound(rt) && Settled(sup, rt)
    ensures var t := PerceptionBack(cfg, sup, rt, since); KeptCourse(sup, t.sup) && Settled(t.sup, t.rt) && SettlingAsBefore(sup, t.sup)
  {
    hide Sound, StopThen, AtBarrier;
    var paused := rt.now - since;
    var extended := if rt.recoveryActive then rt.(recoveryStarted := rt.recoveryStarted + paused) else rt;
    var waiting := if sup.inputWaiting then sup.(inputWaitStarted := sup.inputWaitStarted + paused) else sup;
    RecoveryRestarted(rt, rt.recoveryStarted + paused);
    StopThenWaits(cfg, waiting.(perceptionWait := None), extended, 0);
  }

  lemma PerceptionSteers(cfg: Settings, s: Stage, f: Finds)
    requires Held(s) && Settled(s.sup, s.rt)
    ensures var t := PerceptionAwaited(cfg, s, f);
            && Settled(t.sup, t.rt) && t.sup.startingTask == s.sup.startingTask && t.sup.startingUuid == s.sup.startingUuid
            && (t.out.None? ==> s.out.None? && KeptCourse(s.sup, t.sup) && SettlingAsBefore(s.sup, t.sup))
            && (KeptCourse(s.sup, t.sup) || (AtBarrier(cfg, t.rt) && StillSince(s.sup, t.rt)))
  {
    hide Sound, PerceptionMissing, PerceptionBack, AtBarrier, Settled;
    if s.out.None? && !f.perception {
      MissingSteers(cfg, s.sup, s.rt, f);
    } else if s.out.None? && s.sup.perceptionWait.Some? {
      BackWaits(cfg, s.sup, s.rt, s.sup.perceptionWait.value);
    }
  }

  lemma TimeLimitedWaits(cfg: Settings, s: Stage)
    requires Held(s) && Settled(s.sup, s.rt)
    ensures Waits(cfg, s, TimeLimited(cfg, s))
  {
    hide Sound, Failed, AtBarrier;
    FailedWaits(cfg, s.sup, s.rt);
  }

  lemma InputsAwaitedWaits(cfg: Settings, s: Stage, f: Finds)
    requires Held(s) && Settled(s.sup, s.rt)
    ensures var t := InputsAwaited(cfg, s, f);
            Waits(cfg, s, t) && (t.out.None? ==> t.sup.switching == s.sup.switching)
  {
    hide Sound, StopThen, AtBarrier, BegunRecovery;
    RecoveryFlagged(s.rt);
    PlainChanges(s.rt, s.rt.now);
    RevokedWaits(cfg, s.sup, s.rt);
    if s.out.None? {
      if f.ready == Missing {
        var sup := if s.sup.inputWaiting then s.sup else s.sup.(inputWaiting := true, inputWaitStarted := s.rt.now);
        StopThenWaits(cfg, sup.(inputHealthySince := None), BegunRecovery(s.rt), 0);
      } else if s.sup.inputWaiting && f.ready == Unlocalized {
        StopThenWaits(cfg, s.sup.(inputHealthySince := None), Revoked(s.rt), 1);
      }
    }
  }

  lemma NavigationGatedWaits(cfg: Settings, s: Stage, f: Finds)
    requires Held(s) && Settled(s.sup, s.rt)
    ensures var t := NavigationGated(cfg, s, f);
            Waits(cfg, s, t) && (t.out.None? ==> t == s && (s.sup.active == 0 ==> f.ready == Ready.Ready && f.uuid != ""))
  {
    hide Sound, StopThen, Failed, AtBarrier, BegunRecovery;
    if s.out.None? && s.sup.active == 0 {
      if f.ready != Ready.Ready {
        StopThenWaits(cfg, s.sup, s.rt, 1);
        var stopped := StopThen(cfg, s.sup, s.rt, 1);
        RevokedWaits(cfg, stopped.sup, stopped.rt);
      } else if f.uuid == "" {
        PlainChanges(s.rt, s.rt.now);
        RevokedWaits(cfg, s.sup, s.rt);
        var sup := if s.sup.uuidWait.None? then s.sup.(uuidWait := Some(s.rt.now)) else s.sup;
        FailedWaits(cfg, sup, Revoked(s.rt));
      }
    }
  }

  /** What a whole tick does with the barrier before it reaches the child. */
  ghost predicate Steered(cfg: Settings, sup: Sup, t: Stage) {
    && Settled(t.sup, t.rt)
    && (KeptCourse(sup, t.sup) || (AtBarrier(cfg, t.rt) && StillSince(sup, t.rt)))
    && (t.out.None? ==> !t.sup.switching && !t.sup.startingTask && (sup.switching ==> AtBarrier(cfg, t.rt)))
  }

  lemma BeforeChildSteers(cfg: Settings, sup: Sup, rt: Runtime, f: Finds)
    requires Sound(rt) && Settled(sup, rt) && !sup.startingTask
    ensures var t := BeforeChild(cfg, sup, rt, f);
            && Steered(cfg, sup, t) && !t.sup.startingTask
            && (t.out.None? && t.sup.active == 0 ==> f.ready == Ready.Ready && f.uuid != "")
  {
    hide Sound, Held, Settled, GoalsNoted, PerceptionAwaited, TimeLimited, Crossed, InputsAwaited, NavigationGated, AtBarrier;
    GoalsNotedWaits(cfg, sup, rt, f);
    var noted := GoalsNoted(cfg, sup, rt, f);
    PerceptionSteers(cfg, noted, f);
    var perceived := PerceptionAwaited(cfg, noted, f);
    TimeLimitedWaits(cfg, perceived);
    var limited := TimeLimited(cfg, perceived);
    CrossedAtBarrier(cfg, limited, f.odomFresh);
    var crossed := Crossed(cfg, limited, f.odomFresh);
    InputsAwaitedWaits(cfg, crossed, f);
    NavigationGatedWaits(cfg, InputsAwaited(cfg, crossed, f), f);
  }

  // ---------------------------------------------------------------- starting a task

  /** A task being started was named by an id that the previous task did not have, and begins with child 0. */
  predicate StartNamed(sup: Sup) {
    sup.startingTask && sup.startingUuid != "" ==>
      !StaleUuid(sup, sup.startingUuid) && sup.next == 0 && (sup.switching || sup.active == 0)
  }

  lemma TaskNamedKeeps(cfg: Settings, sup: Sup, rt0: Runtime, f: Finds)
    requires Sound(rt0) && Settled(sup, rt0) && StartNamed(sup) && sup.startingTask
    ensures var t := TaskNamed(cfg, sup, rt0, f);
            && Settled(t.sup, t.rt) && StartNamed(t.sup) && t.sup.startingTask && t.sup.uuid == sup.uuid
            && t.sup.active == sup.active && (sup.switching ==> t.sup.switching)
            && (if t.out.None? then t.sup.startingUuid != "" else t.sup.startingUuid == "")
            && (t.out.None? && sup.startingUuid == "" ==> t.sup.switching) && SettlingAsBefore(sup, t.sup)
            && (t.out.None? && sup.startingUuid != "" ==> t.sup == sup && t.rt.motion == rt0.motion)
  {
    hide Sound, StopThen, Failed, AtBarrier;
    PlainChanges(rt0, rt0.now);
    RevokedWaits(cfg, sup, rt0);
    FailedWaits(cfg, sup, Revoked(rt0));
    StopThenWaits(cfg, sup.(startingUuid := f.uuid), Revoked(rt0), 0);
  }

  /** What starting a task leaves: still starting, or started with a fresh id and at the barrier. */
  ghost predicate StartSteered(cfg: Settings, sup: Sup, t: Stage) {
    && Settled(t.sup, t.rt) && StartNamed(t.sup) && TaskPending(t.sup, t.rt)
    && (if t.sup.startingTask then
          && t.sup.uuid == sup.uuid
          && ((t.sup.active == sup.active && (sup.switching ==> t.sup.switching)) || (AtBarrier(cfg, t.rt) && StillSince(sup, t.rt)))
        else
          && AtBarrier(cfg, t.rt) && t.sup.uuid != "" && (sup.uuid == "" || t.sup.uuid != sup.uuid) && t.sup.active == 0
          && ((sup.active == 0 && !sup.switching) || StillSince(sup, t.rt)))
  }

  /** Without a live goal, stillness for the whole duration is the barrier. */
  lemma StillWithoutMotion(cfg: Settings, rt: Runtime, odomFresh: bool)
    requires Sound(rt) && rt.motion.None? && StillFor(rt, cfg.stillDuration, odomFresh)
    ensures AtBarrier(cfg, rt)
  {}

  lemma NewTaskSettled(cfg: Settings, s: Stage, goal: int, goals: seq<int>)
    requires Settled(s.sup, s.rt) && AtBarrier(cfg, s.rt) && !s.sup.switching
    ensures var t := NewTask(s.sup, s.rt, goal, goals); Settled(t.sup, t.rt) && AtBarrier(cfg, t.rt)
  {}

  lemma TaskStartedSteers(cfg: Settings, sup: Sup, rt: Runtime, f: Finds)
    requires Sound(rt) && Settled(sup, rt) && StartNamed(sup) && TaskPending(sup, rt) && sup.startingTask
    ensures StartSteered(cfg, sup, TaskStarted(cfg, sup, rt, f))
    ensures rt.fault && !TaskStarted(cfg, sup, rt, f).rt.fault ==> !TaskStarted(cfg, sup, rt, f).sup.startingTask
  {
    hide Sound, StopThen, Failed, AtBarrier, TaskNamed, Crossed, StillFor, Settled, NewTask;
    TaskNamedKeeps(cfg, sup, rt, f);
    var named := TaskNamed(cfg, sup, rt, f);
    CrossedAtBarrier(cfg, named, f.odomFresh);
    CrossedKeepsPending(cfg, named, f.odomFresh);
    FaultLatched(cfg, sup, rt, f);
    var s := Crossed(cfg, named, f.odomFresh);
    if s.out.None? {
      NoMotionLeft(cfg, sup, rt, f);
      if f.ready == Ready.Ready && !StillFor(s.rt, cfg.stillDuration, f.odomFresh) {
        StopThenWaits(cfg, s.sup, s.rt, 0);
        StopKeepsFault(cfg, s.sup, s.rt);
      }
      if f.ready == Ready.Ready && StillFor(s.rt, cfg.stillDuration, f.odomFresh) {
        StillWithoutMotion(cfg, s.rt, f.odomFresh);
        NewTaskSettled(cfg, s, f.goal, f.goals);
        NewTaskFields(s, f.goal, f.goals);
      }
    }
  }

  lemma NewTaskFields(s: Stage, goal: int, goals: seq<int>)
    ensures var t := NewTask(s.sup, s.rt, goal, goals);
            && !t.sup.startingTask && t.sup.uuid == s.sup.startingUuid && t.sup.startingUuid == "" && t.sup.active == 0
            && t.out == Some(Running) && t.rt.permission == 0 && t.rt.still == s.rt.still
  {}

  /** A pending start either keeps its stop pending or has lost the motion goal. */
  lemma CrossedKeepsPending(cfg: Settings, s: Stage, odomFresh: bool)
    requires Held(s)
    ensures var t := Crossed(cfg, s, odomFresh);
            TaskPending(s.sup, s.rt) && Settled(s.sup, s.rt) ==> TaskPending(t.sup, t.rt)
  {
    hide Sound, FinishStop;
    if s.out.None? && s.sup.switching && Settled(s.sup, s.rt) {
      FinishStopCrosses(cfg, s.sup, s.rt, odomFresh);
    }
  }

  lemma QuietedKeepsFault(rt: Runtime)
    requires Sound(rt)
    ensures Quieted(rt).fault == rt.fault
  {
    hide Sound, AllHalted;
    QuietedSound(rt);
    AllHaltedKeepsFault(Revoked(rt), 0);
  }

  lemma {:induction false} AllHaltedKeepsFault(rt: Runtime, from: nat)
    requires Linked(rt) && from <= |rt.leaves|
    ensures AllHalted(rt, from).fault == rt.fault
    decreases |rt.leaves| - from
  {
    hide Linked;
    if from < |rt.leaves| {
      HaltKeepsLinks(rt, from);
      HaltKeepsFault(rt, from);
      hide LeafHalts;
      AllHaltedKeepsFault(LeafHalts(rt, from), from + 1);
    }
  }

  lemma HaltKeepsFault(rt: Runtime, i: nat)
    requires Linked(rt) && i < |rt.leaves|
    ensures LeafHalts(rt, i).fault == rt.fault
  {}

  lemma StopKeepsFault(cfg: Settings, sup: Sup, rt: Runtime)
    requires Sound(rt)
    ensures StopThen(cfg, sup, rt, 0).rt.fault == rt.fault
  {
    hide Sound, Quieted;
    QuietedKeepsFault(rt);
  }

  lemma FailedFaults(sup: Sup, rt: Runtime)
    requires Sound(rt)
    ensures Failed(sup, rt).rt.fault
  {
    hide Sound, Quieted;
    PlainChanges(rt, rt.now);
    QuietedKeepsFault(Faulted(rt));
  }

  /** Naming a task and crossing the barrier do not clear a fault. */
  lemma FaultLatched(cfg: Settings, sup: Sup, rt: Runtime, f: Finds)
    requires Sound(rt)
    ensures rt.fault ==> TaskNamed(cfg, sup, rt, f).rt.fault
    ensures rt.fault ==> Crossed(cfg, TaskNamed(cfg, sup, rt, f), f.odomFresh).rt.fault
  {
    hide Sound, StopThen, Failed, StillFor;
    PlainChanges(rt, rt.now);
    FailedFaults(sup, Revoked(rt));
    StopKeepsFault(cfg, sup.(startingUuid := f.uuid), Revoked(rt));
    CrossedKeepsFault(cfg, TaskNamed(cfg, sup, rt, f), f.odomFresh);
  }

  lemma CrossedKeepsFault(cfg: Settings, s: Stage, odomFresh: bool)
    requires Held(s)
    ensures s.rt.fault ==> Crossed(cfg, s, odomFresh).rt.fault
  {
    hide Sound, Failed, StillFor;
    PlainChanges(s.rt, s.rt.now);
    FailedFaults(s.sup, Revoked(s.rt));
    var settling := SettlingBegun(s.sup, Revoked(s.rt));
    FailedFaults(settling.sup, settling.rt);
  }

  // ---------------------------------------------------------------- permission

  /** What permission to move stands for at the end of a tick. */
  predicate PermissionMeans(rt: Runtime, ready: Ready)
    requires Linked(rt)
  {
    rt.permission != 0 ==> Movable(rt, ready) && rt.permission == rt.sequence && !rt.fault
  }

  lemma JudgedGrants(cfg: Settings, sup: Sup, rt0: Runtime, f: Finds)
    requires Sound(rt0) && Settled(sup, rt0)
    ensures Linked(Judged(cfg, sup, rt0, f).rt)
    ensures var s := Judged(cfg, sup, rt0, f);
            && Settled(s.sup, s.rt) && KeptCourse(sup, s.sup) && s.sup.uuid == sup.uuid
            && PermissionMeans(s.rt, f.ready) && (s.rt.permission != 0 ==> !s.sup.switching)
  {
    hide Sound, StopThen, AtBarrier, Linked;
    SoundIsLinked(rt0);
    StopThenWaits(cfg, sup, rt0, 1);
    SoundIsLinked(Judged(cfg, sup, rt0, f).rt);
    SoundIsLinked(StopThen(cfg, sup, rt0, 1).rt);
  }

  lemma ConcludedKeeps(cfg: Settings, sup: Sup, rt0: Runtime, child: Status)
    requires Sound(rt0) && Settled(sup, rt0)
    ensures var s := Concluded(cfg, sup, rt0, child);
            && Settled(s.sup, s.rt) && KeptCourse(sup, s.sup) && s.sup.uuid == sup.uuid
            && (s.rt.permission != 0 ==> s == Stage(sup, rt0, Some(Running)) && (sup.switching || child == Running))
  {
    hide Sound, StopThen, Failed, AtBarrier, AllHalted, BegunRecovery;
    PlainChanges(rt0, rt0.now);
    var rt := Revoked(rt0);
    FailedWaits(cfg, sup, rt0);
    RevokedWaits(cfg, sup, rt0);
    FailedWaits(cfg, sup, rt);
    SoundIsLinked(rt);
    AllHaltedSound(rt, 0);
    RecoveryFlagged(rt);
    RevokedWaits(cfg, sup, rt);
    StopThenWaits(cfg, sup.(replanTried := true), BegunRecovery(rt), if sup.replanTried then 1 else 0);
    StopThenWaits(cfg, sup, rt, 0);
  }

  /** After the child, permission is left only for a live, accepted motion goal of a running child with good inputs. */
  lemma AfterChildGrants(cfg: Settings, sup: Sup, rt: Runtime, f: Finds)
    requires Sound(rt) && Settled(sup, rt)
    ensures Linked(AfterChild(cfg, sup, rt, f).rt)
    ensures var s := AfterChild(cfg, sup, rt, f);
            && Settled(s.sup, s.rt) && KeptCourse(sup, s.sup) && s.sup.uuid == sup.uuid
            && PermissionMeans(s.rt, f.ready)
            && (s.rt.permission != 0 ==> !s.sup.switching && s.out == Some(Running) && f.child == Running)
  {
    hide Sound, Judged, Concluded, Linked, Movable;
    GoalsLeftKeeps(sup, rt, f);
    JudgedGrants(cfg, GoalsLeft(sup, f), rt, f);
    var judged := Judged(cfg, GoalsLeft(sup, f), rt, f);
    ConcludedKeeps(cfg, judged.sup, judged.rt, f.child);
    SoundIsLinked(AfterChild(cfg, sup, rt, f).rt);
  }

  /** And then it is given, under the number of the action it is for. */
  lemma AfterChildGives(cfg: Settings, sup: Sup, rt: Runtime, f: Finds)
    requires Sound(rt) && !sup.switching && !rt.fault && f.child == Running && f.ready == Ready.Ready
    requires rt.motion.Some? && rt.motion.value < |rt.sessions|
    requires var s := rt.sessions[rt.motion.value]; s.accepted && !s.terminal && !s.cancelRequested && !s.timedOut
    ensures AfterChild(cfg, sup, rt, f).rt.permission == rt.sequence > 0
    ensures AfterChild(cfg, sup, rt, f).out == Some(Running)
  {
    hide StopThen, Failed, AllHalted, BegunRecovery;
    SoundIsLinked(rt);
  }

  lemma GoalsLeftKeeps(sup: Sup, rt: Runtime, f: Finds)
    requires Settled(sup, rt)
    ensures Settled(GoalsLeft(sup, f), rt) && KeptCourse(sup, GoalsLeft(sup, f)) && GoalsLeft(sup, f).uuid == sup.uuid
    ensures GoalsLeft(sup, f).switching == sup.switching
  {}

  // ---------------------------------------------------------------- whole runs

  datatype Event =
    | Tick(finds: Finds)
    | Halt
    | Release
    | Meanwhile(op: Op)

  /** The tree halts the node: everything stops and the task is forgotten. */
  function Halted(w: World): World
    requires Sound(w.rt)
  {
    World(w.sup.(initialized := false, switching := false, startingTask := false, startingUuid := "",
                 inputWaiting := false, inputWaitStarted := 0.0, inputHealthySince := None, perceptionWait := None,
                 uuidWait := None),
          Quieted(w.rt), Idle)
  }

  /** Between ticks only callbacks and odometry messages arrive; a node that is not running may be set idle. */
  function Step(cfg: Settings, w: World, e: Event): World
    requires WellFormed(w)
  {
    match e
    case Tick(f) => Ticked(cfg, w, f)
    case Halt => Halted(w)
    case Release => if w.status == Running then w else w.(status := Idle)
    case Meanwhile(op) =>
      SoundIsLinked(w.rt);
      if op.Report? || op.Odometry? then w.(rt := Applied(cfg, w.rt, op)) else w
  }

  predicate Invariant(w: World) {
    && WellFormed(w) && Settled(w.sup, w.rt) && StartNamed(w.sup)
    && (w.rt.permission != 0 ==> w.status == Running && !w.sup.switching && !w.sup.startingTask)
  }

  lemma EnteredKeeps(cfg: Settings, w: World, at: real)
    requires Invariant(w)
    ensures var rt := At(w.rt, at); var sup := Entered(w, rt.now);
            && Sound(rt) && Settled(sup, rt) && StartNamed(sup) && (sup.startingTask ==> TaskPending(sup, rt))
            && sup.active == w.sup.active && sup.uuid == w.sup.uuid && sup.switching == w.sup.switching
            && sup.settleStarted == w.sup.settleStarted
            && rt.fault == w.rt.fault
  {
    hide Sound;
    TimePasses(w.rt, at);
  }

  /** Up to the child: the barrier is respected, and a tick that ends there leaves no permission. */
  lemma StagedSteers(cfg: Settings, w: World, f: Finds)
    requires Invariant(w)
    ensures var s := Staged(cfg, w, f);
            && Settled(s.sup, s.rt) && StartNamed(s.sup) && (s.sup.startingTask ==> TaskPending(s.sup, s.rt))
            && (s.out.Some? ==> s.rt.permission == 0)
            && ((s.sup.active == w.sup.active && (w.sup.switching ==> s.sup.switching)) ||
                (AtBarrier(cfg, s.rt) && StillSince(w.sup, s.rt)))
            && (s.out.None? ==> !s.sup.switching && !s.sup.startingTask)
            && (s.out.None? && s.sup.active == 0 ==> f.ready == Ready.Ready && f.uuid != "")
  {
    hide Sound, Settled, TaskStarted, BeforeChild, AtBarrier, At, Entered;
    EnteredKeeps(cfg, w, f.at);
    var rt := At(w.rt, f.at);
    var sup := Entered(w, rt.now);
    if sup.startingTask {
      TaskStartedSteers(cfg, sup, rt, f);
    } else {
      BeforeChildSteers(cfg, sup, rt, f);
    }
  }

  /** A tick keeps the invariant and leaves permission only for what it stands for. */
  lemma TickKeeps(cfg: Settings, w: World, f: Finds)
    requires Invariant(w)
    ensures Invariant(Ticked(cfg, w, f))
    ensures Linked(Ticked(cfg, w, f).rt) && PermissionMeans(Ticked(cfg, w, f).rt, f.ready)
    ensures Ticked(cfg, w, f).rt.permission != 0 ==> f.child == Running && Staged(cfg, w, f).out.None?
    ensures Ticked(cfg, w, f).sup.active == Staged(cfg, w, f).sup.active
  {
    hide Sound, Settled, Staged, AppliedAll, AfterChild, AtBarrier, Linked, Movable;
    StagedSteers(cfg, w, f);
    var s := Staged(cfg, w, f);
    SoundIsLinked(s.rt);
    if s.out.None? {
      var below := AppliedAll(cfg, s.rt, f.ops);
      SettledLater(s.sup, s.rt, below);
      AfterChildGrants(cfg, s.sup, below, f);
    }
  }

  lemma HaltKeeps(w: World)
    requires Invariant(w)
    ensures Invariant(Halted(w))
  {
    hide Sound, Quieted;
  }

  lemma MeanwhileKeeps(cfg: Settings, w: World, op: Op)
    requires Invariant(w) && (op.Report? || op.Odometry?)
    ensures Linked(w.rt)
    ensures Invariant(w.(rt := Applied(cfg, w.rt, op)))
  {
    hide Sound, Settled;
    SoundIsLinked(w.rt);
    AppliedSound(cfg, w.rt, op);
    SettledLater(w.sup, w.rt, Applied(cfg, w.rt, op));
    hide Observed;
  }

  lemma StepKeeps(cfg: Settings, w: World, e: Event)
    requires Invariant(w)
    ensures Invariant(Step(cfg, w, e))
  {
    hide Sound, Settled, Ticked, Halted, Applied;
    match e
    case Tick(f) => TickKeeps(cfg, w, f);
    case Halt => HaltKeeps(w);
    case Release =>
    case Meanwhile(op) => if op.Report? || op.Odometry? { MeanwhileKeeps(cfg, w, op); }
  }

  /** A new tree over leaves that move the vehicle or do not. */
  function Boot(leaves: seq<bool>, now: real): World {
    World(REST,
          Runtime([], seq(|leaves|, i requires 0 <= i < |leaves| => Leaf(leaves[i], false, None, None, false, 0.0)),
                  None, 0, 0, false, None, [], now, false, 0.0),
          Idle)
  }

  lemma BootKeeps(leaves: seq<bool>, now: real)
    ensures Invariant(Boot(leaves, now))
  {}

  function Run(cfg: Settings, leaves: seq<bool>, boot: real, events: seq<Event>): (w: World)
    ensures Invariant(w)
    decreases |events|
  {
    if events == [] then
      BootKeeps(leaves, boot);
      Boot(leaves, boot)
    else
      var w := Run(cfg, leaves, boot, events[..|events| - 1]);
      StepKeeps(cfg, w, events[|events| - 1]);
      Step(cfg, w, events[|events| - 1])
  }

  /** In every run at most one motion goal is live, and it is the one the runtime holds. */
  lemma AtMostOneMotion(cfg: Settings, leaves: seq<bool>, boot: real, events: seq<Event>, a: nat, b: nat)
    requires var rt := Run(cfg, leaves, boot, events).rt;
             a < |rt.sessions| && b < |rt.sessions| && Live(rt.sessions[a]) && Live(rt.sessions[b])
    ensures a == b && Run(cfg, leaves, boot, events).rt.motion == Some(a)
  {
    hide Run;
    assert Invariant(Run(cfg, leaves, boot, events));
  }

  /** What the tick leaves below the child once it was ticked. */
  function Below(cfg: Settings, w: World, f: Finds): (rt: Runtime)
    requires WellFormed(w)
    ensures Sound(rt)
  {
    AppliedAll(cfg, Staged(cfg, w, f).rt, f.ops)
  }

  /** A goal that may move the vehicle: accepted, not over, not cancelled, in time. */
  predicate MayMove(rt: Runtime) {
    rt.motion.Some? && rt.motion.value < |rt.sessions| &&
    var s := rt.sessions[rt.motion.value];
    s.moves && s.accepted && !s.terminal && !s.cancelRequested && !s.timedOut
  }

  /**
   In every run a tick ends with permission to move if and only if it ticked the active child, which is running,
   with inputs ready and no fault, and left a motion goal that may move. The permission names that goal's action,
   and it never stands beside a pending stop.
   */
  lemma PermissionIsEarned(cfg: Settings, leaves: seq<bool>, boot: real, events: seq<Event>, f: Finds)
    ensures var w := Run(cfg, leaves, boot, events);
            Ticked(cfg, w, f).rt.permission != 0 <==>
            Staged(cfg, w, f).out.None? && f.child == Running && f.ready == Ready.Ready &&
            !Below(cfg, w, f).fault && MayMove(Below(cfg, w, f))
    ensures var after := Ticked(cfg, Run(cfg, leaves, boot, events), f);
            after.rt.permission != 0 ==>
              && after.rt.permission == after.rt.sequence && MayMove(after.rt)
              && after.status == Running && !after.sup.switching && !after.rt.fault
  {
    hide Run, Ticked, Staged, Below;
    var w := Run(cfg, leaves, boot, events);
    TickKeeps(cfg, w, f);
    PermissionFollows(cfg, w, f);
  }

  lemma PermissionFollows(cfg: Settings, w: World, f: Finds)
    requires Invariant(w)
    ensures Ticked(cfg, w, f).rt.permission != 0 ==>
              Staged(cfg, w, f).out.None? && f.ready == Ready.Ready && !Below(cfg, w, f).fault && MayMove(Below(cfg, w, f))
    ensures (Staged(cfg, w, f).out.None? && f.child == Running && f.ready == Ready.Ready &&
             !Below(cfg, w, f).fault && MayMove(Below(cfg, w, f))) ==> Ticked(cfg, w, f).rt.permission != 0
  {
    hide Sound, Settled, Staged, AppliedAll, AfterChild, AtBarrier, Linked;
    StagedSteers(cfg, w, f);
    var s := Staged(cfg, w, f);
    SoundIsLinked(s.rt);
    if s.out.None? {
      var below := AppliedAll(cfg, s.rt, f.ops);
      SettledLater(s.sup, s.rt, below);
      OnlyIfMayMove(cfg, s.sup, below, f);
      if f.child == Running && f.ready == Ready.Ready && !below.fault && MayMove(below) {
        AfterChildGives(cfg, s.sup, below, f);
      }
    }
  }

  lemma OnlyIfMayMove(cfg: Settings, sup: Sup, rt: Runtime, f: Finds)
    requires Sound(rt)
    ensures AfterChild(cfg, sup, rt, f).rt.permission != 0 ==> f.ready == Ready.Ready && !rt.fault && MayMove(rt)
  {
    hide StopThen, Failed, AllHalted, BegunRecovery;
    SoundIsLinked(rt);
  }

  /** Between ticks permission is never raised. */
  lemma OnlyTicksGrant(cfg: Settings, leaves: seq<bool>, boot: real, events: seq<Event>, e: Event)
    requires !e.Tick?
    ensures var w := Run(cfg, leaves, boot, events);
            Step(cfg, w, e).rt.permission == 0 || Step(cfg, w, e).rt.permission == w.rt.permission
  {
    hide Run, Sound, Applied, Quieted;
    var w := Run(cfg, leaves, boot, events);
    SoundIsLinked(w.rt);
    if e.Meanwhile? {
      AppliedSound(cfg, w.rt, e.op);
    }
  }

  /** A child is ticked only when no stop is pending and no task is being started. */
  lemma ChildrenWaitForStops(cfg: Settings, leaves: seq<bool>, boot: real, events: seq<Event>, f: Finds)
    requires Staged(cfg, Run(cfg, leaves, boot, events), f).out.None?
    ensures var w := Run(cfg, leaves, boot, events); var s := Staged(cfg, w, f);
            && !s.sup.switching && !s.sup.startingTask
            && (w.sup.switching ==> AtBarrier(cfg, s.rt))
            && (s.sup.active == 0 ==> f.ready == Ready.Ready && f.uuid != "")
  {
    hide Run, Staged, AtBarrier;
    StagedSteers(cfg, Run(cfg, leaves, boot, events), f);
  }

  /**
   The active child changes only in a tick, and only at the barrier: no motion goal is live and odometry has
   reported a stopped vehicle, and nothing else, for the still duration, which began after an earlier tick
   began to settle the stop. So the tick that asks for a stop never changes the child.
   */
  lemma ChildChangesAtBarrier(cfg: Settings, leaves: seq<bool>, boot: real, events: seq<Event>, e: Event)
    requires var w := Run(cfg, leaves, boot, events); Step(cfg, w, e).sup.active != w.sup.active
    ensures e.Tick?
    ensures var w := Run(cfg, leaves, boot, events); var rt := Staged(cfg, w, e.finds).rt;
            && AtBarrier(cfg, rt) && w.sup.switching && w.sup.settleStarted.Some?
            && rt.still.value >= w.sup.settleStarted.value
  {
    hide Run, Staged, AtBarrier, Ticked;
    var w := Run(cfg, leaves, boot, events);
    if e.Tick? {
      StagedSteers(cfg, w, e.finds);
      TickKeeps(cfg, w, e.finds);
    }
  }

  /** A latched fault is cleared only in a tick that starts a task with an id the last task did not have, at the barrier. */
  lemma FaultNeedsNewTask(cfg: Settings, leaves: seq<bool>, boot: real, events: seq<Event>, e: Event)
    requires var w := Run(cfg, leaves, boot, events); w.rt.fault && !Step(cfg, w, e).rt.fault
    ensures var w := Run(cfg, leaves, boot, events); var after := Step(cfg, w, e);
            && e.Tick? && AtBarrier(cfg, after.rt) && !after.sup.startingTask
            && after.sup.uuid != "" && (w.sup.uuid == "" || after.sup.uuid != w.sup.uuid)
  {
    hide Run, Sound, Settled, Ticked, AtBarrier, Quieted;
    var w := Run(cfg, leaves, boot, events);
    match e
    case Tick(f) => FaultClears(cfg, w, f);
    case Halt => QuietedKeepsFault(w.rt);
    case Release =>
    case Meanwhile(op) => SoundIsLinked(w.rt);
  }

  lemma FaultClears(cfg: Settings, w: World, f: Finds)
    requires Invariant(w) && w.rt.fault && !Ticked(cfg, w, f).rt.fault
    ensures var after := Ticked(cfg, w, f);
            && AtBarrier(cfg, after.rt) && !after.sup.startingTask
            && after.sup.uuid != "" && (w.sup.uuid == "" || after.sup.uuid != w.sup.uuid)
  {
    hide Sound, Settled, TaskStarted, AtBarrier, At, Entered, AppliedAll, AfterChild, PerceptionAwaited;
    EnteredKeeps(cfg, w, f.at);
    var rt := At(w.rt, f.at);
    var sup := Entered(w, rt.now);
    if sup.startingTask {
      TaskStartedSteers(cfg, sup, rt, f);
    } else {
      FaultEndsTick(cfg, sup, rt, f);
    }
  }

  /** With a fault latched nothing happens in a tick of a started task but another failure. */
  lemma FaultEndsTick(cfg: Settings, sup: Sup, rt: Runtime, f: Finds)
    requires Sound(rt) && rt.fault
    ensures BeforeChild(cfg, sup, rt, f) == Failed(sup, rt) && Failed(sup, rt).rt.fault
  {
    hide Sound, Failed, StopThen, FinishStop;
    FailedFaults(sup, rt);
  }

  // ---------------------------------------------------------------- the node

  /** The control node: its own fields, kept in one record, and the runtime it shares with the leaves. */
  class RecoverySupervisorNode {
    const settings: Settings
    var sup: Sup
    var runtime: Runtime
    var status: Status

    ghost predicate Valid()
      reads this
    {
      Sound(runtime)
    }

    function Value(): World
      reads this
    {
      World(sup, runtime, status)
    }

    constructor (settings: Settings, runtime: Runtime)
      ensures this.settings == settings && Value() == World(REST, runtime, Idle)
    {
      this.settings, this.sup, this.runtime, this.status := settings, REST, runtime, Idle;
    }

    method Permit(allowed: bool)
      requires Valid()
      modifies `runtime
      ensures Valid() && runtime == Permitted(old(runtime), allowed)
    {
      PermittedSound(runtime, allowed);
      runtime := runtime.(permission := if allowed && !runtime.fault then runtime.sequence else 0);
    }

    method HaltChildren()
      requires Valid()
      modifies `runtime
      ensures Valid() && Linked(old(runtime)) && runtime == AllHalted(old(runtime), 0)
    {
      hide Sound, LeafHalts;
      SoundIsLinked(runtime);
      var i := 0;
      while i < |runtime.leaves|
        invariant Sound(runtime) && Linked(runtime) && i <= |runtime.leaves|
        invariant AllHalted(runtime, i) == AllHalted(old(runtime), 0)
        decreases |runtime.leaves| - i
      {
        HaltKeepsLinks(runtime, i);
        LeafHaltsSound(runtime, i);
        runtime := LeafHalts(runtime, i);
        i := i + 1;
      }
    }

    method CancelMotion()
      requires Valid()
      modifies `runtime
      ensures Valid() && Linked(old(runtime)) && runtime == Canceled(old(runtime), old(runtime).motion)
    {
      SoundIsLinked(runtime);
      CancelSound(runtime, runtime.motion);
      if runtime.motion.Some? && !runtime.sessions[runtime.motion.value].terminal {
        var id := runtime.motion.value;
        runtime := runtime.(sessions := runtime.sessions[id := runtime.sessions[id].(cancelRequested := true)]);
      }
    }

    method Quiet()
      requires Valid()
      modifies `runtime
      ensures Valid() && runtime == Quieted(old(runtime))
    {
      hide Sound, AllHalted, Canceled, Linked;
      QuietedSound(runtime);
      Permit(false);
      HaltChildren();
      CancelMotion();
    }

    method StopAndThen(next: nat)
      requires Valid()
      modifies `sup, `runtime
      ensures Valid() && Stage(sup, runtime, None) == StopThen(settings, old(sup), old(runtime), next)
    {
      hide Sound, Quieted;
      var deadline := runtime.now + settings.cancelTimeout;
      Quiet();
      sup := sup.(next := next);
      if !sup.switching {
        sup := sup.(switching := true, cancelDeadline := deadline, settleStarted := None);
      }
    }

    method Fail() returns (out: Option<Status>)
      requires Valid()
      modifies `runtime
      ensures Valid() && Stage(sup, runtime, out) == Failed(sup, old(runtime))
    {
      hide Sound, Quieted;
      PlainChanges(runtime, runtime.now);
      runtime := Faulted(runtime);
      Quiet();
      out := Some(Failure);
    }

    method Finish(odomFresh: bool) returns (out: Option<Status>)
      requires Valid()
      modifies `sup, `runtime
      ensures Valid() && Stage(sup, runtime, out) == FinishStop(settings, old(sup), old(runtime), odomFresh)
    {
      hide Sound, Failed, Linked, StillFor;
      PlainChanges(runtime, runtime.now);
      SoundIsLinked(runtime);
      Permit(false);
      SoundIsLinked(runtime);
      if MotionBusy(runtime) {
        if runtime.now >= sup.cancelDeadline {
          out := Fail();
          return;
        }
        return Some(Running);
      }
      if sup.inputWaiting && !odomFresh {
        sup := sup.(settleStarted := None);
        return Some(Running);
      }
      if sup.settleStarted.None? {
        PlainChanges(runtime, runtime.now);
        sup := sup.(settleStarted := Some(runtime.now));
        runtime := runtime.(still := None);
      }
      SoundIsLinked(runtime);
      if !StillFor(runtime, settings.stillDuration, odomFresh) {
        if runtime.now - sup.settleStarted.value >= settings.settleTimeout {
          out := Fail();
          return;
        }
        return Some(Running);
      }
      MotionForgotten(runtime);
      runtime := runtime.(motion := None);
      sup := sup.(switching := false, active := sup.next);
      out := None;
    }

    /** Crosses the barrier if a stop is pending; out is what ends the tick. */
    method Cross(odomFresh: bool) returns (out: Option<Status>)
      requires Valid()
      modifies `sup, `runtime
      ensures Valid()
      ensures Held(Stage(old(sup), old(runtime), None)) &&
              Stage(sup, runtime, out) == Crossed(settings, Stage(old(sup), old(runtime), None), odomFresh)
    {
      hide Sound, FinishStop;
      out := None;
      if sup.switching {
        out := Finish(odomFresh);
      }
    }

    method StartTask(f: Finds) returns (out: Option<Status>)
      requires Valid() && TaskPending(sup, runtime)
      modifies `sup, `runtime
      ensures Valid() && Stage(sup, runtime, out) == TaskStarted(settings, old(sup), old(runtime), f)
    {
      hide Sound, StopThen, Failed, Crossed, StillFor;
      PlainChanges(runtime, runtime.now);
      Permit(false);
      NoMotionLeft(settings, sup, old(runtime), f);
      if sup.startingUuid == "" {
        if StaleUuid(sup, f.uuid) {
          if Since(runtime.now, sup.uuidWait) > UUID_WAIT {
            out := Fail();
          } else {
            out := Some(Running);
          }
          CrossedStays(settings, Stage(sup, runtime, out), f.odomFresh);
          return;
        }
        sup := sup.(startingUuid := f.uuid);
        StopAndThen(0);
      }
      out := Cross(f.odomFresh);
      if out.Some? {
        return;
      }
      if f.ready != Ready.Ready {
        return Some(Running);
      }
      if !StillFor(runtime, settings.stillDuration, f.odomFresh) {
        StopAndThen(0);
        return Some(Running);
      }
      IdleReset(runtime);
      runtime := runtime.(permission := 0, fault := false, recoveryActive := false, recoveryStarted := 0.0, motion := None);
      sup := sup.(inputWaiting := false, inputWaitStarted := 0.0, inputHealthySince := None, initialized := true,
                  goal := f.goal, goals := f.goals, uuid := sup.startingUuid, replanTried := false, active := 0,
                  startingTask := false, startingUuid := "", uuidWait := None);
      out := Some(Running);
    }

    method NoteGoals(f: Finds) returns (out: Option<Status>)
      requires Valid()
      modifies `sup, `runtime
      ensures Valid() && Stage(sup, runtime, out) == GoalsNoted(settings, old(sup), old(runtime), f)
    {
      hide Sound, StopThen, Failed;
      if runtime.fault {
        out := Fail();
        return;
      }
      var changed := sup.initialized &&
        ((f.uuid != "" && sup.uuid != "" && f.uuid != sup.uuid) || f.goal != sup.goal || f.goals != sup.goals);
      if !sup.initialized || changed {
        if f.uuid != "" {
          sup := sup.(uuid := f.uuid);
        }
        sup := sup.(initialized := true, goal := f.goal, goals := f.goals, replanTried := false);
        StopAndThen(0);
      } else if sup.uuid == "" && f.uuid != "" {
        sup := sup.(uuid := f.uuid);
      }
      out := None;
    }

    method AwaitPerception(f: Finds) returns (out: Option<Status>)
      requires Valid()
      modifies `sup, `runtime
      ensures Valid()
      ensures Held(Stage(old(sup), old(runtime), None)) &&
              Stage(sup, runtime, out) == PerceptionAwaited(settings, Stage(old(sup), old(runtime), None), f)
    {
      hide Sound, StopThen, Crossed;
      out := None;
      if !f.perception {
        if sup.perceptionWait.None? {
          sup := sup.(perceptionWait := Some(runtime.now));
          StopAndThen(0);
        }
        PlainChanges(runtime, runtime.now);
        Permit(false);
        out := Cross(f.odomFresh);
        if out.None? {
          out := Some(Running);
        }
      } else if sup.perceptionWait.Some? {
        var paused := runtime.now - sup.perceptionWait.value;
        RecoveryRestarted(runtime, runtime.recoveryStarted + paused);
        if runtime.recoveryActive {
          runtime := runtime.(recoveryStarted := runtime.recoveryStarted + paused);
        }
        if sup.inputWaiting {
          sup := sup.(inputWaitStarted := sup.inputWaitStarted + paused);
        }
        sup := sup.(perceptionWait := None);
        StopAndThen(0);
      }
    }

    method LimitTime() returns (out: Option<Status>)
      requires Valid()
      modifies `runtime
      ensures Valid()
      ensures Held(Stage(sup, old(runtime), None)) &&
              Stage(sup, runtime, out) == TimeLimited(settings, Stage(sup, old(runtime), None))
    {
      hide Sound, Failed;
      out := None;
      if runtime.recoveryActive && runtime.now - runtime.recoveryStarted >= settings.recoveryTimeout {
        out := Fail();
      } else if sup.inputWaiting && runtime.now - sup.inputWaitStarted >= settings.inputWaitTimeout {
        out := Fail();
      }
    }

    method AwaitInputs(f: Finds) returns (out: Option<Status>)
      requires Valid()
      modifies `sup, `runtime
      ensures Valid()
      ensures Held(Stage(old(sup), old(runtime), None)) &&
              Stage(sup, runtime, out) == InputsAwaited(settings, Stage(old(sup), old(runtime), None), f)
    {
      hide Sound, StopThen;
      out := None;
      RecoveryFlagged(runtime);
      PlainChanges(runtime, runtime.now);
      if f.ready == Missing {
        if !sup.inputWaiting {
          sup := sup.(inputWaiting := true, inputWaitStarted := runtime.now);
        }
        sup := sup.(inputHealthySince := None);
        runtime := BegunRecovery(runtime);
        StopAndThen(0);
        return Some(Running);
      }
      if sup.inputWaiting {
        Permit(false);
        if f.ready == Unlocalized {
          sup := sup.(inputHealthySince := None);
          StopAndThen(1);
          sup := sup.(inputWaiting := false);
          return Some(Running);
        }
        if sup.inputHealthySince.None? {
          sup := sup.(inputHealthySince := Some(runtime.now));
        }
        if runtime.now - sup.inputHealthySince.value < settings.inputHealthyDuration {
          return Some(Running);
        }
        sup := sup.(inputWaiting := false);
      }
    }

    method GateNavigation(f: Finds) returns (out: Option<Status>)
      requires Valid()
      modifies `sup, `runtime
      ensures Valid()
      ensures Held(Stage(old(sup), old(runtime), None)) &&
              Stage(sup, runtime, out) == NavigationGated(settings, Stage(old(sup), old(runtime), None), f)
    {
      hide Sound, StopThen, Failed;
      out := None;
      if f.ready != Ready.Ready && sup.active == 0 {
        StopAndThen(1);
        RecoveryFlagged(runtime);
        runtime := BegunRecovery(runtime);
        return Some(Running);
      }
      if f.uuid == "" && sup.active == 0 {
        PlainChanges(runtime, runtime.now);
        Permit(false);
        if sup.uuidWait.None? {
          sup := sup.(uuidWait := Some(runtime.now));
        }
        if Since(runtime.now, sup.uuidWait) > UUID_WAIT {
          out := Fail();
          return;
        }
        return Some(Running);
      }
    }

    method Prepare(f: Finds) returns (out: Option<Status>)
      requires Valid()
      modifies `sup, `runtime
      ensures Valid() && Stage(sup, runtime, out) == BeforeChild(settings, old(sup), old(runtime), f)
    {
      hide Sound, GoalsNoted, PerceptionAwaited, TimeLimited, Crossed, InputsAwaited, NavigationGated;
      StagesEnd(settings, old(sup), old(runtime), f);
      out := NoteGoals(f);
      if out.None? {
        out := AwaitPerception(f);
      }
      if out.None? {
        out := LimitTime();
      }
      if out.None? {
        out := Cross(f.odomFresh);
      }
      if out.None? {
        out := AwaitInputs(f);
      }
      if out.None? {
        out := GateNavigation(f);
      }
    }

    method Judge(f: Finds)
      requires Valid()
      modifies `sup, `runtime
      ensures Valid() && Stage(sup, runtime, None) == Judged(settings, old(sup), old(runtime), f)
    {
      hide Sound, StopThen, Linked;
      SoundIsLinked(runtime);
      var allow := false;
      if runtime.motion.Some? {
        allow := Movable(runtime, f.ready);
        if f.ready != Ready.Ready && MotionBusy(runtime) {
          StopAndThen(1);
        }
      }
      Permit(allow && !sup.switching);
    }

    method Conclude(child: Status) returns (out: Option<Status>)
      requires Valid()
      modifies `sup, `runtime
      ensures Valid() && Stage(sup, runtime, out) == Concluded(settings, old(sup), old(runtime), child)
    {
      hide Sound, StopThen, Failed, AllHalted, Linked;
      if runtime.fault {
        out := Fail();
        return;
      }
      if sup.switching || child == Running {
        return Some(Running);
      }
      PlainChanges(runtime, runtime.now);
      Permit(false);
      if child == Success && sup.active == 0 {
        HaltChildren();
        sup := sup.(initialized := false);
        return Some(Success);
      }
      if child == Failure && sup.active == 1 {
        out := Fail();
        return;
      }
      if sup.active == 0 {
        RecoveryFlagged(runtime);
        runtime := BegunRecovery(runtime);
        if !sup.replanTried {
          sup := sup.(replanTried := true);
          StopAndThen(0);
        } else {
          StopAndThen(1);
        }
      } else {
        StopAndThen(0);
      }
      out := Some(Running);
    }

    /** One tick of the node; what happens below the child is applied to the runtime in between. */
    method Tick(f: Finds)
      requires WellFormed(Value())
      modifies this
      ensures Value() == Ticked(settings, old(Value()), f)
    {
      hide Sound, TaskStarted, BeforeChild, AppliedAll, Judged, Concluded, TaskPending;
      TimePasses(runtime, f.at);
      EnteredPending(Value(), f.at);
      runtime := At(runtime, f.at);
      if status == Idle {
        sup := sup.(startingTask := true, startingUuid := "", uuidWait := Some(runtime.now));
      }
      var out: Option<Status>;
      if sup.startingTask {
        out := StartTask(f);
      } else {
        out := Prepare(f);
      }
      if out.None? {
        runtime := AppliedAll(settings, runtime, f.ops);
        sup := GoalsLeft(sup, f);
        Judge(f);
        out := Conclude(f.child);
      }
      status := out.value;
    }

    method HaltNode()
      requires Valid()
      modifies this
      ensures Value() == Halted(old(Value()))
    {
      hide Sound, Quieted;
      Quiet();
      sup := sup.(initialized := false, switching := false, startingTask := false, startingUuid := "",
                  inputWaiting := false, inputWaitStarted := 0.0, inputHealthySince := None, perceptionWait := None,
                  uuidWait := None);
      status := Idle;
    }
  }

  lemma CrossedStays(cfg: Settings, s: Stage, odomFresh: bool)
    requires Held(s)
    ensures s.out.Some? ==> Crossed(cfg, s, odomFresh) == s
  {}

  lemma EnteredPending(w: World, at: real)
    requires WellFormed(w)
    ensures var rt := At(w.rt, at); Entered(w, rt.now).startingTask ==> TaskPending(Entered(w, rt.now), rt)
  {}

  /** Once a stage has ended the tick the later stages do nothing. */
  lemma StagesEnd(cfg: Settings, sup: Sup, rt: Runtime, f: Finds)
    requires Sound(rt)
    ensures var s1 := GoalsNoted(cfg, sup, rt, f);
            var s2 := PerceptionAwaited(cfg, s1, f);
            var s3 := TimeLimited(cfg, s2);
            var s4 := Crossed(cfg, s3, f.odomFresh);
            var s5 := InputsAwaited(cfg, s4, f);
            var s6 := NavigationGated(cfg, s5, f);
            (s1.out.Some? ==> s2 == s1) && (s2.out.Some? ==> s3 == s2) && (s3.out.Some? ==> s4 == s3) &&
            (s4.out.Some? ==> s5 == s4) && (s5.out.Some? ==> s6 == s5)
  {
    hide Sound, GoalsNoted, StopThen, Failed, FinishStop, StillFor, BegunRecovery, Quieted;
  }
}
