/**
 What the recovery supervisor does with what a tick finds, over whole runs: exactly when a child is ticked and
 when a task starts, how each trouble stops the vehicle, what a child's end leads to, and which waits are limited.
 */
module RecoveryReactions {
  import opened RecoveryRuntime
  import opened RecoverySupervisor

  // ---------------------------------------------------------------- braking

  /** Every goal that may still be moving the vehicle was asked to stop. */
  predicate Braked(rt: Runtime) {
    forall id :: 0 <= id < |rt.sessions| && Live(rt.sessions[id]) ==> rt.sessions[id].cancelRequested
  }

  /** The same moment, the same goals, none further along, and cancel requests only added. */
  predicate Alike(rt: Runtime, t: Runtime) {
    && t.now == rt.now && t.still == rt.still && t.samples == rt.samples && t.motion == rt.motion && t.fault == rt.fault
    && t.recoveryActive == rt.recoveryActive && |t.sessions| == |rt.sessions|
    && forall id :: 0 <= id < |t.sessions| ==>
         t.sessions[id].moves == rt.sessions[id].moves && t.sessions[id].terminal == rt.sessions[id].terminal &&
         (rt.sessions[id].cancelRequested ==> t.sessions[id].cancelRequested)
  }

  lemma AlikeTrans(a: Runtime, b: Runtime, c: Runtime)
    requires Alike(a, b) && Alike(b, c)
    ensures Alike(a, c)
  {}

  lemma AlikeBraked(rt: Runtime, t: Runtime)
    requires Alike(rt, t) && Braked(rt)
    ensures Braked(t)
  {}

  lemma CancelAlike(rt: Runtime, id: Option<nat>)
    requires Known(rt, id)
    ensures Alike(rt, Canceled(rt, id)) && Canceled(rt, id).recoveryStarted == rt.recoveryStarted
    ensures id.Some? && Live(rt.sessions[id.value]) ==> Canceled(rt, id).sessions[id.value].cancelRequested
  {}

  lemma HaltAlike(rt: Runtime, i: nat)
    requires Linked(rt) && i < |rt.leaves|
    ensures Alike(rt, LeafHalts(rt, i)) && LeafHalts(rt, i).recoveryStarted == rt.recoveryStarted
  {
    hide Canceled, Linked;
    var quiet := if rt.leaves[i].moves then Revoked(rt) else rt;
    LinkedLeaf(rt, i);
    CancelAlike(quiet, rt.leaves[i].session);
  }

  lemma LinkedLeaf(rt: Runtime, i: nat)
    requires Linked(rt) && i < |rt.leaves|
    ensures Known(rt, rt.leaves[i].session)
  {}

  lemma {:induction false} AllHaltedAlike(rt: Runtime, from: nat)
    requires Linked(rt) && from <= |rt.leaves|
    ensures Alike(rt, AllHalted(rt, from)) && AllHalted(rt, from).recoveryStarted == rt.recoveryStarted
    decreases |rt.leaves| - from
  {
    hide LeafHalts, Linked, Alike;
    if from < |rt.leaves| {
      HaltKeepsLinks(rt, from);
      HaltAlike(rt, from);
      AllHaltedAlike(LeafHalts(rt, from), from + 1);
      AlikeTrans(rt, LeafHalts(rt, from), AllHalted(rt, from));
    } else {
      AlikeItself(rt);
    }
  }

  lemma AlikeItself(rt: Runtime)
    ensures Alike(rt, rt) && Alike(rt, Revoked(rt))
  {}

  /** Stopping asks the one live motion goal, if there is one, to stop. */
  lemma QuietedBrakes(rt: Runtime)
    requires Sound(rt)
    ensures Alike(rt, Quieted(rt)) && Quieted(rt).recoveryStarted == rt.recoveryStarted
    ensures Braked(Quieted(rt))
  {
    hide AllHalted, Canceled, Alike;
    QuietedSound(rt);
    var halted := AllHalted(Revoked(rt), 0);
    AlikeItself(rt);
    AllHaltedAlike(Revoked(rt), 0);
    AlikeTrans(rt, Revoked(rt), halted);
    CancelAlike(halted, halted.motion);
    AlikeTrans(rt, halted, Quieted(rt));
    MotionBrakes(halted);
  }

  lemma MotionBrakes(rt: Runtime)
    requires Sound(rt)
    ensures Known(rt, rt.motion) && Braked(Canceled(rt, rt.motion))
  {}

  lemma StopThenBrakes(cfg: Settings, sup: Sup, rt: Runtime, next: nat)
    requires Sound(rt)
    ensures var s := StopThen(cfg, sup, rt, next);
            && Alike(rt, s.rt) && Braked(s.rt) && s.rt.recoveryStarted == rt.recoveryStarted
            && s.sup == sup.(next := next, switching := true, cancelDeadline := s.sup.cancelDeadline,
                             settleStarted := if sup.switching then sup.settleStarted else None)
            && s.sup.cancelDeadline == if sup.switching then sup.cancelDeadline else rt.now + cfg.cancelTimeout
  {
    hide Sound, Quieted, Alike, Braked;
    QuietedBrakes(rt);
  }

  lemma FailedBrakes(sup: Sup, rt: Runtime)
    requires Sound(rt)
    ensures Failed(sup, rt).rt.fault && Braked(Failed(sup, rt).rt)
  {
    hide Sound, Quieted, Braked;
    PlainChanges(rt, rt.now);
    QuietedBrakes(Faulted(rt));
    FailedFaults(sup, rt);
  }

  /** A pending stop, a latched fault and a failed tick leave no goal that was not asked to stop. */
  predicate StopsBrake(s: Stage) {
    s.sup.switching || s.rt.fault || s.out == Some(Failure) ==> Braked(s.rt)
  }

  lemma FailedStopsBrake(sup: Sup, rt: Runtime)
    requires Sound(rt)
    ensures StopsBrake(Failed(sup, rt))
  {
    hide Failed, Braked;
    FailedBrakes(sup, rt);
  }

  lemma RevokedBrakes(sup: Sup, rt: Runtime)
    requires StopsBrake(Stage(sup, rt, None))
    ensures StopsBrake(Stage(sup, Revoked(rt), None)) && StopsBrake(Stage(sup, BegunRecovery(rt), None))
    ensures StopsBrake(Stage(sup, rt.(still := None), None))
  {}

  lemma CrossedBrakes(cfg: Settings, s: Stage, odomFresh: bool)
    requires Held(s) && StopsBrake(s)
    ensures StopsBrake(Crossed(cfg, s, odomFresh))
  {
    hide Failed, Sound;
    if s.out.None? && s.sup.switching {
      PlainChanges(s.rt, s.rt.now);
      SoundIsLinked(s.rt);
      var rt := Revoked(s.rt);
      FailedStopsBrake(s.sup, rt);
      if !MotionBusy(rt) {
        var settling := SettlingBegun(s.sup, rt);
        FailedStopsBrake(settling.sup, settling.rt);
      }
    }
  }

  lemma GoalsNotedBrakes(cfg: Settings, sup: Sup, rt: Runtime, f: Finds)
    requires Sound(rt) && StopsBrake(Stage(sup, rt, None))
    ensures StopsBrake(GoalsNoted(cfg, sup, rt, f))
  {
    hide Sound, StopThen, Failed, Braked;
    FailedStopsBrake(sup, rt);
    var named := if f.uuid != "" then sup.(uuid := f.uuid) else sup;
    StopThenBrakes(cfg, named.(initialized := true, goal := f.goal, goals := f.goals, replanTried := false), rt, 0);
  }

  lemma PerceptionBrakes(cfg: Settings, s: Stage, f: Finds)
    requires Held(s) && StopsBrake(s)
    ensures StopsBrake(PerceptionAwaited(cfg, s, f))
  {
    hide Sound, StopThen, Crossed, Braked;
    var sup, rt := s.sup, s.rt;
    if s.out.None? && !f.perception {
      var waiting := sup.(perceptionWait := Some(rt.now));
      StopThenBrakes(cfg, waiting, rt, 0);
      var stopped := if sup.perceptionWait.None? then StopThen(cfg, waiting, rt, 0) else Stage(sup, rt, None);
      PlainChanges(stopped.rt, rt.now);
      RevokedBrakes(stopped.sup, stopped.rt);
      CrossedBrakes(cfg, stopped.(rt := Revoked(stopped.rt)), f.odomFresh);
    } else if s.out.None? && sup.perceptionWait.Some? {
      var paused := rt.now - sup.perceptionWait.value;
      RecoveryRestarted(rt, rt.recoveryStarted + paused);
      var extended := if rt.recoveryActive then rt.(recoveryStarted := rt.recoveryStarted + paused) else rt;
      var waiting := if sup.inputWaiting then sup.(inputWaitStarted := sup.inputWaitStarted + paused) else sup;
      StopThenBrakes(cfg, waiting.(perceptionWait := None), extended, 0);
    }
  }

  lemma TimeLimitedBrakes(cfg: Settings, s: Stage)
    requires Held(s) && StopsBrake(s)
    ensures StopsBrake(TimeLimited(cfg, s))
  {
    hide Sound, Failed, Braked;
    FailedStopsBrake(s.sup, s.rt);
  }

  lemma InputsBrake(cfg: Settings, s: Stage, f: Finds)
    requires Held(s) && StopsBrake(s)
    ensures StopsBrake(InputsAwaited(cfg, s, f))
  {
    hide Sound, StopThen, Braked, BegunRecovery;
    RecoveryFlagged(s.rt);
    PlainChanges(s.rt, s.rt.now);
    RevokedBrakes(s.sup, s.rt);
    if s.out.None? && f.ready == Missing {
      var sup := if s.sup.inputWaiting then s.sup else s.sup.(inputWaiting := true, inputWaitStarted := s.rt.now);
      StopThenBrakes(cfg, sup.(inputHealthySince := None), BegunRecovery(s.rt), 0);
    } else if s.out.None? && s.sup.inputWaiting && f.ready == Unlocalized {
      StopThenBrakes(cfg, s.sup.(inputHealthySince := None), Revoked(s.rt), 1);
    }
  }

  lemma GateBrakes(cfg: Settings, s: Stage, f: Finds)
    requires Held(s) && StopsBrake(s)
    ensures StopsBrake(NavigationGated(cfg, s, f))
  {
    hide Sound, StopThen, Failed, Braked, BegunRecovery;
    if s.out.None? && s.sup.active == 0 {
      PlainChanges(s.rt, s.rt.now);
      RevokedBrakes(s.sup, s.rt);
      StopThenBrakes(cfg, s.sup, s.rt, 1);
      var stopped := StopThen(cfg, s.sup, s.rt, 1);
      RevokedBrakes(stopped.sup, stopped.rt);
      var sup := if s.sup.uuidWait.None? then s.sup.(uuidWait := Some(s.rt.now)) else s.sup;
      FailedStopsBrake(sup, Revoked(s.rt));
    }
  }

  lemma BeforeChildBrakes(cfg: Settings, sup: Sup, rt: Runtime, f: Finds)
    requires Sound(rt) && StopsBrake(Stage(sup, rt, None))
    ensures StopsBrake(BeforeChild(cfg, sup, rt, f))
  {
    hide Sound, Held, StopsBrake, GoalsNoted, PerceptionAwaited, TimeLimited, Crossed, InputsAwaited, NavigationGated;
    GoalsNotedBrakes(cfg, sup, rt, f);
    var noted := GoalsNoted(cfg, sup, rt, f);
    PerceptionBrakes(cfg, noted, f);
    var perceived := PerceptionAwaited(cfg, noted, f);
    TimeLimitedBrakes(cfg, perceived);
    var limited := TimeLimited(cfg, perceived);
    CrossedBrakes(cfg, limited, f.odomFresh);
    var crossed := Crossed(cfg, limited, f.odomFresh);
    InputsBrake(cfg, crossed, f);
    GateBrakes(cfg, InputsAwaited(cfg, crossed, f), f);
  }

  lemma TaskStartBrakes(cfg: Settings, sup: Sup, rt: Runtime, f: Finds)
    requires Sound(rt) && TaskPending(sup, rt) && StopsBrake(Stage(sup, rt, None))
    ensures StopsBrake(TaskStarted(cfg, sup, rt, f))
  {
    hide Sound, StopThen, Failed, Braked, Crossed, StillFor;
    PlainChanges(rt, rt.now);
    RevokedBrakes(sup, rt);
    FailedStopsBrake(sup, Revoked(rt));
    StopThenBrakes(cfg, sup.(startingUuid := f.uuid), Revoked(rt), 0);
    var named := TaskNamed(cfg, sup, rt, f);
    CrossedBrakes(cfg, named, f.odomFresh);
    var s := Crossed(cfg, named, f.odomFresh);
    if s.out.None? {
      NoMotionLeft(cfg, sup, rt, f);
      StopThenBrakes(cfg, s.sup, s.rt, 0);
    }
  }

  lemma ConcludedBrakes(cfg: Settings, sup: Sup, rt0: Runtime, child: Status)
    requires Sound(rt0) && (sup.switching ==> Braked(rt0))
    ensures StopsBrake(Concluded(cfg, sup, rt0, child))
  {
    hide Sound, StopThen, Failed, Braked, BegunRecovery, AllHalted, Linked, Alike;
    PlainChanges(rt0, rt0.now);
    var rt := Revoked(rt0);
    FailedStopsBrake(sup, rt0);
    FailedStopsBrake(sup, rt);
    if !rt0.fault && !sup.switching {
      SoundIsLinked(rt);
      AllHaltedKeepsFault(rt, 0);
      RecoveryFlagged(rt);
      BegunAlike(rt);
      StopThenBrakes(cfg, sup.(replanTried := true), BegunRecovery(rt), if sup.replanTried then 1 else 0);
      StopThenBrakes(cfg, sup, rt, 0);
    }
  }

  lemma AfterChildBrakes(cfg: Settings, sup: Sup, rt: Runtime, f: Finds)
    requires Sound(rt) && !sup.switching
    ensures StopsBrake(AfterChild(cfg, sup, rt, f))
  {
    hide Sound, Judged, Concluded, Braked, StopsBrake;
    var left := GoalsLeft(sup, f);
    JudgedBrakes(cfg, left, rt, f);
    var judged := Judged(cfg, left, rt, f);
    ConcludedBrakes(cfg, judged.sup, judged.rt, f.child);
  }

  lemma PermittedBrakes(rt: Runtime, allowed: bool)
    requires Braked(rt)
    ensures Braked(Permitted(rt, allowed))
  {}

  lemma BegunAlike(rt: Runtime)
    ensures BegunRecovery(rt).fault == rt.fault
  {}

  lemma JudgedBrakes(cfg: Settings, sup: Sup, rt: Runtime, f: Finds)
    requires Sound(rt) && !sup.switching
    ensures var s := Judged(cfg, sup, rt, f); s.sup.switching ==> Braked(s.rt)
    ensures Judged(cfg, sup, rt, f).rt.fault == rt.fault
  {
    hide StopThen, Braked;
    SoundIsLinked(rt);
    StopThenBrakes(cfg, sup, rt, 1);
    var s := StopThen(cfg, sup, rt, 1);
    PermittedBrakes(s.rt, false);
  }

  predicate WorldBrakes(w: World) {
    w.sup.switching || w.rt.fault || w.status == Failure ==> Braked(w.rt)
  }

  lemma TickBrakes(cfg: Settings, w: World, f: Finds)
    requires Invariant(w) && WorldBrakes(w)
    ensures WorldBrakes(Ticked(cfg, w, f))
  {
    hide Sound, Settled, BeforeChild, TaskStarted, AppliedAll, AfterChild, Braked, At, Entered;
    EnteredKeeps(cfg, w, f.at);
    AtAlike(w.rt, f.at);
    var rt := At(w.rt, f.at);
    var sup := Entered(w, rt.now);
    if sup.startingTask {
      TaskStartBrakes(cfg, sup, rt, f);
    } else {
      BeforeChildBrakes(cfg, sup, rt, f);
    }
    StagedSteers(cfg, w, f);
    var s := Staged(cfg, w, f);
    if s.out.None? {
      AfterChildBrakes(cfg, s.sup, AppliedAll(cfg, s.rt, f.ops), f);
    }
  }

  lemma AtAlike(rt: Runtime, at: real)
    ensures Braked(rt) ==> Braked(At(rt, at))
  {}

  lemma StepBrakes(cfg: Settings, w: World, e: Event)
    requires Invariant(w) && WorldBrakes(w)
    ensures WorldBrakes(Step(cfg, w, e))
  {
    hide Sound, Settled, Ticked, Quieted, Observed;
    match e
    case Tick(f) => TickBrakes(cfg, w, f);
    case Halt => QuietedBrakes(w.rt);
    case Release =>
    case Meanwhile(op) =>
      SoundIsLinked(w.rt);
      if op.Odometry? {
        ObservedBrakes(cfg, w.rt, op.at, op.stopped);
      }
  }

  lemma ObservedBrakes(cfg: Settings, rt: Runtime, at: real, stopped: bool)
    ensures Observed(cfg, rt, at, stopped).fault == rt.fault
    ensures Braked(rt) ==> Braked(Observed(cfg, rt, at, stopped))
  {}

  /**
   In every run, while a stop is pending, a fault is latched or the last tick failed, every goal that may still
   be moving the vehicle was asked to stop.
   */
  lemma {:induction false} StopsReachTheMotion(cfg: Settings, leaves: seq<bool>, boot: real, events: seq<Event>, id: nat)
    requires var w := Run(cfg, leaves, boot, events);
             && (w.sup.switching || w.rt.fault || w.status == Failure)
             && id < |w.rt.sessions| && Live(w.rt.sessions[id])
    ensures Run(cfg, leaves, boot, events).rt.sessions[id].cancelRequested
  {
    RunBrakes(cfg, leaves, boot, events);
    hide Run;
  }

  lemma {:induction false} RunBrakes(cfg: Settings, leaves: seq<bool>, boot: real, events: seq<Event>)
    ensures WorldBrakes(Run(cfg, leaves, boot, events))
    decreases |events|
  {
    hide Step, WorldBrakes;
    if events == [] {
      BootBrakes(leaves, boot);
    } else {
      var before := events[..|events| - 1];
      RunBrakes(cfg, leaves, boot, before);
      StepBrakes(cfg, Run(cfg, leaves, boot, before), events[|events| - 1]);
    }
  }

  lemma BootBrakes(leaves: seq<bool>, boot: real)
    ensures WorldBrakes(Boot(leaves, boot))
  {}

  // ---------------------------------------------------------------- exactly when a child is ticked

  /** The task or the goals of the tick are not those the supervisor works on. */
  predicate Changed(sup: Sup, f: Finds) {
    !sup.initialized || (f.uuid != "" && sup.uuid != "" && f.uuid != sup.uuid) || f.goal != sup.goal || f.goals != sup.goals
  }

  /** With perception there, a stop is asked for by a change and by perception having been away. */
  predicate Asked(sup: Sup, f: Finds) {
    Changed(sup, f) || sup.perceptionWait.Some?
  }

  /** How long perception has been away. */
  function Away(sup: Sup, rt: Runtime): real {
    if sup.perceptionWait.Some? then rt.now - sup.perceptionWait.value else 0.0
  }

  /** The recovery or the wait for inputs took too long, not counting the time without perception. */
  predicate Expired(cfg: Settings, sup: Sup, rt: Runtime) {
    || (rt.recoveryActive && rt.now - rt.recoveryStarted - Away(sup, rt) >= cfg.recoveryTimeout)
    || (sup.inputWaiting && rt.now - sup.inputWaitStarted - Away(sup, rt) >= cfg.inputWaitTimeout)
  }

  /** A stop asked for in an earlier tick has settled: no goal moves and the vehicle is still for long enough. */
  predicate Crosses(cfg: Settings, sup: Sup, rt: Runtime, odomFresh: bool)
    requires Linked(rt)
  {
    && sup.switching && sup.settleStarted.Some? && !MotionBusy(rt) && StillFor(rt, cfg.stillDuration, odomFresh)
  }

  /** How long inputs have been good again. */
  function GoodFor(sup: Sup, rt: Runtime): real {
    if sup.inputHealthySince.Some? then rt.now - sup.inputHealthySince.value else 0.0
  }

  /** Inputs are there, and after a wait for them they have been good for a while. */
  predicate Supplied(cfg: Settings, sup: Sup, rt: Runtime, f: Finds) {
    && f.ready != Missing
    && (sup.inputWaiting ==> f.ready == Ready.Ready && GoodFor(sup, rt) >= cfg.inputHealthyDuration)
  }

  /** The child that is active once a pending stop has been crossed. */
  function Heading(sup: Sup, f: Finds): nat {
    if Asked(sup, f) then 0 else if sup.switching then sup.next else sup.active
  }

  /** What the stages up to the barrier hand on. */
  predicate HandsOn(sup: Sup, t: Sup, asked: bool) {
    && t.switching == (sup.switching || asked) && t.next == (if asked then 0 else sup.next) && t.active == sup.active
    && (sup.switching ==> t.settleStarted == sup.settleStarted && t.cancelDeadline == sup.cancelDeadline)
    && (!sup.switching && asked ==> t.settleStarted.None?)
    && t.inputWaiting == sup.inputWaiting && t.inputHealthySince == sup.inputHealthySince && t.uuidWait == sup.uuidWait
    && t.startingTask == sup.startingTask
  }

  lemma GoalsNotedHandsOn(cfg: Settings, sup: Sup, rt: Runtime, f: Finds)
    requires Sound(rt)
    ensures var s := GoalsNoted(cfg, sup, rt, f);
            if rt.fault then s == Failed(sup, rt)
            else
              && s.out.None? && Alike(rt, s.rt) && s.rt.recoveryStarted == rt.recoveryStarted
              && HandsOn(sup, s.sup, Changed(sup, f)) && s.sup.perceptionWait == sup.perceptionWait
              && s.sup.inputWaitStarted == sup.inputWaitStarted
              && s.sup.initialized && s.sup.goal == f.goal && s.sup.goals == f.goals
              && s.sup.replanTried == (sup.replanTried && !Changed(sup, f))
              && (Changed(sup, f) && !sup.switching ==> s.sup.cancelDeadline == rt.now + cfg.cancelTimeout)
  {
    hide Sound, StopThen, Failed, Braked;
    AlikeItself(rt);
    var named := if f.uuid != "" then sup.(uuid := f.uuid) else sup;
    StopThenBrakes(cfg, named.(initialized := true, goal := f.goal, goals := f.goals, replanTried := false), rt, 0);
  }

  lemma PerceptionHandsOn(cfg: Settings, s: Stage, f: Finds)
    requires Held(s) && s.out.None? && f.perception
    ensures var t := PerceptionAwaited(cfg, s, f);
            && t.out.None? && Alike(s.rt, t.rt) && HandsOn(s.sup, t.sup, s.sup.perceptionWait.Some?)
            && t.sup.perceptionWait.None?
            && (t.rt.recoveryActive ==> t.rt.now - t.rt.recoveryStarted == s.rt.now - s.rt.recoveryStarted - Away(s.sup, s.rt))
            && (t.sup.inputWaiting ==>
                  t.rt.now - t.sup.inputWaitStarted == s.rt.now - s.sup.inputWaitStarted - Away(s.sup, s.rt))
            && t.sup.goal == s.sup.goal && t.sup.goals == s.sup.goals && t.sup.replanTried == s.sup.replanTried
            && t.sup.initialized == s.sup.initialized
            && (s.sup.perceptionWait.Some? && !s.sup.switching ==> t.sup.cancelDeadline == s.rt.now + cfg.cancelTimeout)
  {
    hide Sound, StopThen, Braked;
    var sup, rt := s.sup, s.rt;
    AlikeItself(rt);
    if sup.perceptionWait.Some? {
      var paused := rt.now - sup.perceptionWait.value;
      RecoveryRestarted(rt, rt.recoveryStarted + paused);
      var extended := if rt.recoveryActive then rt.(recoveryStarted := rt.recoveryStarted + paused) else rt;
      var waiting := if sup.inputWaiting then sup.(inputWaitStarted := sup.inputWaitStarted + paused) else sup;
      StopThenBrakes(cfg, waiting.(perceptionWait := None), extended, 0);
    }
  }

  lemma StillnessExactly(cfg: Settings, sup: Sup, rt: Runtime, odomFresh: bool)
    requires Sound(rt) && Linked(rt) && !MotionBusy(rt) && sup.settleStarted.Some? && rt.permission == 0
    ensures var t := StillnessAwaited(cfg, sup, rt, odomFresh);
            && (t.out.None? <==> StillFor(rt, cfg.stillDuration, odomFresh))
            && (t.out.None? ==> t.rt == rt.(motion := None) && t.sup == sup.(switching := false, active := sup.next))
            && (t.out.Some? ==> t.sup == sup)
            && (t.out == Some(Failure) ==> t.rt.fault && Braked(t.rt))
  {
    hide Sound, Failed, Braked, StillFor;
    FailedBrakes(sup, rt);
    FailedKeepsSup(sup, rt);
  }

  /** The barrier is crossed, if a stop is pending, exactly when it has settled. */
  lemma CrossedExactly(cfg: Settings, s: Stage, odomFresh: bool)
    requires Held(s) && s.out.None?
    ensures Linked(s.rt)
    ensures var t := Crossed(cfg, s, odomFresh);
            && (t.out.None? <==> (s.sup.switching ==> Crosses(cfg, s.sup, s.rt, odomFresh)))
            && (t.out.None? ==> Alike(s.rt.(motion := t.rt.motion), t.rt) && t.rt.recoveryStarted == s.rt.recoveryStarted)
            && (t.out.None? ==> t.sup == if s.sup.switching then s.sup.(switching := false, active := s.sup.next) else s.sup)
            && (t.out.Some? ==> t.sup == s.sup.(settleStarted := t.sup.settleStarted))
            && (t.out == Some(Failure) ==> t.rt.fault && Braked(t.rt))
  {
    hide Sound, Failed, Braked, StillnessAwaited, SettlingBegun, Alike, Linked, MotionBusy, StillFor;
    SoundIsLinked(s.rt);
    PlainChanges(s.rt, s.rt.now);
    var rt := Revoked(s.rt);
    FailedBrakes(s.sup, rt);
    FailedKeepsSup(s.sup, rt);
    SoundIsLinked(rt);
    SameMotion(s.rt, rt);
    AlikeItself(s.rt);
    RevokedIsAsStill(cfg, s.rt, odomFresh);
    if !MotionBusy(rt) {
      var settling := SettlingBegun(s.sup, rt);
      SettlingExactly(cfg, s.sup, rt, odomFresh);
      SoundIsLinked(settling.rt);
      SameMotion(rt, settling.rt);
      StillnessExactly(cfg, settling.sup, settling.rt, odomFresh);
      ForgottenAlike(s.rt, StillnessAwaited(cfg, settling.sup, settling.rt, odomFresh).rt);
    }
  }

  lemma RevokedIsAsStill(cfg: Settings, rt: Runtime, odomFresh: bool)
    ensures StillFor(Revoked(rt), cfg.stillDuration, odomFresh) == StillFor(rt, cfg.stillDuration, odomFresh)
    ensures !odomFresh ==> !StillFor(rt, cfg.stillDuration, odomFresh)
  {}

  lemma SettlingExactly(cfg: Settings, sup: Sup, rt: Runtime, odomFresh: bool)
    requires Sound(rt)
    ensures var t := SettlingBegun(sup, rt);
            && t.sup == sup.(settleStarted := t.sup.settleStarted) && t.rt.permission == rt.permission
            && (sup.settleStarted.Some? ==> t == Stage(sup, rt, None))
            && (sup.settleStarted.None? ==> !StillFor(t.rt, cfg.stillDuration, odomFresh))
  {
    hide Sound;
  }

  lemma ForgottenAlike(rt: Runtime, t: Runtime)
    ensures t == Revoked(rt).(motion := None) ==> Alike(rt.(motion := t.motion), t) && t.recoveryStarted == rt.recoveryStarted
  {}

  lemma InputsExactly(cfg: Settings, s: Stage, f: Finds)
    requires Held(s) && s.out.None? && !s.sup.switching
    ensures var t := InputsAwaited(cfg, s, f);
            && (t.out.None? <==> Supplied(cfg, s.sup, s.rt, f))
            && t.out != Some(Failure)
            && t.sup.active == s.sup.active && t.sup.uuidWait == s.sup.uuidWait
            && t.sup.goal == s.sup.goal && t.sup.goals == s.sup.goals && t.sup.replanTried == s.sup.replanTried
            && t.sup.perceptionWait == s.sup.perceptionWait
            && (t.out.None? ==> t.rt.now == s.rt.now && !t.sup.switching && t.sup.next == s.sup.next)
            && (f.ready == Missing ==> t.sup.switching && t.sup.next == 0 && t.sup.inputWaiting && t.rt.recoveryActive)
            && (f.ready == Unlocalized && s.sup.inputWaiting ==> t.sup.switching && t.sup.next == 1 && !t.sup.inputWaiting)
            && (f.ready == Ready.Ready ==> !t.sup.switching)
  {
    hide Sound, StopThen, Braked, Alike;
    RecoveryFlagged(s.rt);
    PlainChanges(s.rt, s.rt.now);
    if f.ready == Missing {
      var sup := if s.sup.inputWaiting then s.sup else s.sup.(inputWaiting := true, inputWaitStarted := s.rt.now);
      StopThenBrakes(cfg, sup.(inputHealthySince := None), BegunRecovery(s.rt), 0);
      AlikeFlag(BegunRecovery(s.rt), StopThen(cfg, sup.(inputHealthySince := None), BegunRecovery(s.rt), 0).rt);
    } else if s.sup.inputWaiting && f.ready == Unlocalized {
      StopThenBrakes(cfg, s.sup.(inputHealthySince := None), Revoked(s.rt), 1);
    }
  }

  lemma AlikeFlag(rt: Runtime, t: Runtime)
    requires Alike(rt, t)
    ensures t.recoveryActive == rt.recoveryActive && t.now == rt.now && t.fault == rt.fault
  {}

  lemma GateExactly(cfg: Settings, s: Stage, f: Finds)
    requires Held(s) && s.out.None? && !s.sup.switching
    ensures var t := NavigationGated(cfg, s, f);
            && (t.out.None? <==> (s.sup.active == 0 ==> f.ready == Ready.Ready && f.uuid != ""))
            && (t.out.None? ==> t == s)
            && t.sup.active == s.sup.active && t.sup.goal == s.sup.goal && t.sup.goals == s.sup.goals
            && t.sup.replanTried == s.sup.replanTried && t.sup.perceptionWait == s.sup.perceptionWait
            && t.sup.inputWaiting == s.sup.inputWaiting
            && (s.sup.active == 0 && f.ready != Ready.Ready ==> t.sup.switching && t.sup.next == 1 && t.rt.recoveryActive)
            && (f.ready == Ready.Ready || s.sup.active != 0 ==> !t.sup.switching)
            && (t.out == Some(Failure) <==>
                  s.sup.active == 0 && f.ready == Ready.Ready && f.uuid == "" && Nameless(s.sup, s.rt) > UUID_WAIT)
            && (t.out == Some(Failure) ==> t.rt.fault)
            && (t.out == Some(Running) && !t.sup.switching ==> Nameless(t.sup, t.rt) == Nameless(s.sup, s.rt))
  {
    hide Sound, StopThen, Failed, Braked, Alike;
    PlainChanges(s.rt, s.rt.now);
    StopThenBrakes(cfg, s.sup, s.rt, 1);
    var sup := if s.sup.uuidWait.None? then s.sup.(uuidWait := Some(s.rt.now)) else s.sup;
    FailedBrakes(sup, Revoked(s.rt));
  }

  /** How long the task has had no id. */
  function Nameless(sup: Sup, rt: Runtime): real {
    if sup.uuidWait.Some? then rt.now - sup.uuidWait.value else 0.0
  }

  /** The stages of a tick of a started task, one after the other. */
  lemma StagesExactly(cfg: Settings, sup: Sup, rt: Runtime, f: Finds)
    requires Sound(rt)
    ensures Linked(rt)
    ensures var s := BeforeChild(cfg, sup, rt, f);
            && (s.out.None? <==>
                  && !rt.fault && f.perception && !Expired(cfg, sup, rt)
                  && (sup.switching || Asked(sup, f) ==> Crosses(cfg, sup, rt, f.odomFresh))
                  && Supplied(cfg, sup, rt, f)
                  && (Heading(sup, f) == 0 ==> f.ready == Ready.Ready && f.uuid != ""))
            && (s.out.None? ==> s.sup.active == Heading(sup, f) && s.sup.goals == f.goals &&
                                s.sup.replanTried == (sup.replanTried && !Changed(sup, f)))
  {
    hide Sound, Held, Settled, GoalsNoted, PerceptionAwaited, Crossed, InputsAwaited, NavigationGated, Failed, StillFor,
         Changed, Linked, MotionBusy;
    SoundIsLinked(rt);
    GoalsNotedHandsOn(cfg, sup, rt, f);
    if rt.fault {
      FaultEndsTick(cfg, sup, rt, f);
    } else {
      var noted := GoalsNoted(cfg, sup, rt, f);
      if !f.perception {
        MissingEndsTick(cfg, noted, f);
        assert BeforeChild(cfg, sup, rt, f) == PerceptionAwaited(cfg, noted, f);
      } else {
        PerceptionHandsOn(cfg, noted, f);
        var perceived := PerceptionAwaited(cfg, noted, f);
        AlikeTrans(rt, noted.rt, perceived.rt);
        ExpiredLater(cfg, sup, rt, noted, perceived);
        var limited := TimeLimited(cfg, perceived);
        if limited.out.Some? {
          EndedBefore(cfg, limited, f);
        } else {
          CrossedExactly(cfg, limited, f.odomFresh);
          CrossesLater(cfg, sup, rt, perceived.sup, perceived.rt, f);
          var crossed := Crossed(cfg, limited, f.odomFresh);
          if crossed.out.Some? {
            EndedBefore(cfg, crossed, f);
          } else {
            InputsExactly(cfg, crossed, f);
            var supplied := InputsAwaited(cfg, crossed, f);
            if supplied.out.None? {
              GateExactly(cfg, supplied, f);
            } else {
              EndedBefore(cfg, supplied, f);
            }
          }
        }
      }
    }
  }

  lemma MissingEndsTick(cfg: Settings, s: Stage, f: Finds)
    requires Held(s) && s.out.None? && !f.perception
    ensures PerceptionAwaited(cfg, s, f).out.Some?
    ensures EndedAlready(cfg, PerceptionAwaited(cfg, s, f), f)
  {
    hide Sound, PerceptionMissing, StopThen, Failed;
  }

  lemma EndedBefore(cfg: Settings, s: Stage, f: Finds)
    requires Held(s) && s.out.Some?
    ensures EndedAlready(cfg, s, f) && NavigationGated(cfg, InputsAwaited(cfg, s, f), f) == s && NavigationGated(cfg, s, f) == s
  {
    hide Sound;
  }

  /** A tick that has ended goes through the later stages unchanged. */
  predicate EndedAlready(cfg: Settings, s: Stage, f: Finds)
    requires Held(s)
  {
    NavigationGated(cfg, InputsAwaited(cfg, Crossed(cfg, TimeLimited(cfg, s), f.odomFresh), f), f) == s
  }

  lemma ExpiredLater(cfg: Settings, sup: Sup, rt: Runtime, noted: Stage, perceived: Stage)
    requires Alike(rt, noted.rt) && noted.rt.recoveryStarted == rt.recoveryStarted && Alike(rt, perceived.rt)
    requires Held(perceived) && perceived.out.None?
    requires noted.sup.perceptionWait == sup.perceptionWait && noted.sup.inputWaitStarted == sup.inputWaitStarted
    requires noted.sup.inputWaiting == sup.inputWaiting == perceived.sup.inputWaiting
    requires perceived.rt.recoveryActive ==>
               perceived.rt.now - perceived.rt.recoveryStarted == noted.rt.now - noted.rt.recoveryStarted - Away(noted.sup, noted.rt)
    requires perceived.sup.inputWaiting ==>
               perceived.rt.now - perceived.sup.inputWaitStarted ==
               noted.rt.now - noted.sup.inputWaitStarted - Away(noted.sup, noted.rt)
    ensures TimeLimited(cfg, perceived) == if Expired(cfg, sup, rt) then Failed(perceived.sup, perceived.rt) else perceived
  {
    hide Failed;
  }

  lemma CrossesLater(cfg: Settings, sup: Sup, rt: Runtime, t: Sup, rt2: Runtime, f: Finds)
    requires Linked(rt) && Linked(rt2) && Alike(rt, rt2)
    requires t.switching == (sup.switching || Asked(sup, f))
    requires sup.switching ==> t.settleStarted == sup.settleStarted
    requires !sup.switching && Asked(sup, f) ==> t.settleStarted.None?
    ensures t.switching ==> (Crosses(cfg, t, rt2, f.odomFresh) <==> Crosses(cfg, sup, rt, f.odomFresh))
  {}

  /**
   In every run a tick ticks a child if and only if the node was running a started task and no fault is latched,
   perception is there, no limit has passed, a pending or newly asked stop has settled in full, inputs are there and
   have been good for long enough, and - for the navigation child - localization holds and the task has an id.
   The child is the one the stop was headed for; a changed goal or lost perception heads for navigation.
   */
  lemma ChildTickedExactly(cfg: Settings, leaves: seq<bool>, boot: real, events: seq<Event>, f: Finds)
    ensures Linked(At(Run(cfg, leaves, boot, events).rt, f.at))
    ensures var w := Run(cfg, leaves, boot, events); var rt := At(w.rt, f.at);
            Staged(cfg, w, f).out.None? <==>
              && w.status != Idle && !w.sup.startingTask
              && !rt.fault && f.perception && !Expired(cfg, w.sup, rt)
              && (w.sup.switching || Asked(w.sup, f) ==> Crosses(cfg, w.sup, rt, f.odomFresh))
              && Supplied(cfg, w.sup, rt, f)
              && (Heading(w.sup, f) == 0 ==> f.ready == Ready.Ready && f.uuid != "")
    ensures var w := Run(cfg, leaves, boot, events);
            Staged(cfg, w, f).out.None? ==> Staged(cfg, w, f).sup.active == Heading(w.sup, f)
  {
    hide Run, Sound, Settled, BeforeChild, TaskStarted, Linked, Expired, Asked, Crosses, Supplied, Heading;
    var w := Run(cfg, leaves, boot, events);
    EnteredKeeps(cfg, w, f.at);
    var rt := At(w.rt, f.at);
    SoundIsLinked(rt);
    if w.status != Idle && !w.sup.startingTask {
      StagesExactly(cfg, w.sup, rt, f);
    }
  }

  /** A message of a stopped vehicle goes on with stillness, or begins it after motion or a gap; any other ends it. */
  lemma OdometryTimesStillness(cfg: Settings, rt: Runtime, at: real, stopped: bool)
    ensures var t := Observed(cfg, rt, at, stopped);
            var gap := rt.samples == [] || t.now - rt.samples[|rt.samples| - 1].at > cfg.dataAge;
            && (t.still.Some? <==> stopped) && t.samples == rt.samples + [Sample(t.now, stopped)] && t.now == Later(rt.now, at)
            && (stopped ==> t.still == if rt.still.Some? && !gap then rt.still else Some(t.now))
            && t == rt.(now := t.now, still := t.still, samples := t.samples)
  {}

  /**
   In every run a stop that has begun to settle, its motion goal over, is crossed: once odometry shows a stopped vehicle,
   the first tick a still duration later that finds the rest in order ticks the child the stop was headed for.
   */
  lemma SettledStopIsCrossed(cfg: Settings, leaves: seq<bool>, boot: real, events: seq<Event>, at: real, f: Finds)
    requires var w := Run(cfg, leaves, boot, events);
             && w.status != Idle && !w.sup.startingTask && !w.rt.fault && w.sup.switching && w.sup.settleStarted.Some?
             && (w.rt.motion.None? || (w.rt.motion.value < |w.rt.sessions| && w.rt.sessions[w.rt.motion.value].terminal))
             && f.at >= Later(w.rt.now, at) + cfg.stillDuration && cfg.stillDuration >= 0.0
             && f.odomFresh && f.perception && !Asked(w.sup, f) && f.ready == Ready.Ready && f.uuid != "" && !w.sup.inputWaiting
             && !w.rt.recoveryActive
    ensures var s := Staged(cfg, Run(cfg, leaves, boot, events + [Meanwhile(Odometry(at, true))]), f);
            s.out.None? && s.sup.active == Run(cfg, leaves, boot, events).sup.next
  {
    hide Run, Staged, Asked;
    var w := Run(cfg, leaves, boot, events);
    var more := events + [Meanwhile(Odometry(at, true))];
    RunExtends(cfg, leaves, boot, events, Meanwhile(Odometry(at, true)));
    SoundIsLinked(w.rt);
    OdometryTimesStillness(cfg, w.rt, at, true);
    StillIsPast(w);
    ChildTickedExactly(cfg, leaves, boot, more, f);
  }

  lemma StillIsPast(w: World)
    requires Invariant(w)
    ensures w.rt.still.Some? ==> w.rt.still.value <= w.rt.now
  {}

  lemma RunExtends(cfg: Settings, leaves: seq<bool>, boot: real, events: seq<Event>, e: Event)
    ensures Run(cfg, leaves, boot, events + [e]) == Step(cfg, Run(cfg, leaves, boot, events), e)
  {
    assert (events + [e])[..|events|] == events;
  }

  // ---------------------------------------------------------------- trouble stops the vehicle

  /** A stop asked for in this tick is headed for this child and has not been crossed. */
  predicate StopsFor(sup: Sup, next: nat) {
    sup.switching && sup.next == next
  }

  lemma FreshStopWaits(cfg: Settings, s: Stage, odomFresh: bool)
    requires Held(s) && s.out.None? && s.sup.switching && s.sup.settleStarted.None?
    ensures var t := Crossed(cfg, s, odomFresh);
            t.out.Some? && t.sup == s.sup.(settleStarted := t.sup.settleStarted)
  {
    hide Sound, Crossed, Braked, Alike, StillFor;
    CrossedExactly(cfg, s, odomFresh);
  }

  /** Once it has stopped, a tick without perception only waits. */
  lemma StoppedWaits(cfg: Settings, stopped: Stage, odomFresh: bool)
    requires Held(stopped) && stopped.out.None? && (stopped.sup.switching ==> stopped.sup.settleStarted.None?)
    ensures Sound(Revoked(stopped.rt))
    ensures var t := Crossed(cfg, stopped.(rt := Revoked(stopped.rt)), odomFresh);
            t.sup == stopped.sup.(settleStarted := t.sup.settleStarted)
  {
    hide Sound, FinishStop;
    HeldIsSound(stopped);
    PlainChanges(stopped.rt, stopped.rt.now);
    var s := stopped.(rt := Revoked(stopped.rt));
    if s.sup.switching {
      FreshStopWaits(cfg, s, odomFresh);
    }
  }

  lemma MissingStops(cfg: Settings, s: Stage, f: Finds)
    requires Held(s) && s.out.None? && !f.perception
    requires s.sup.switching ==> s.sup.next == 0 && s.sup.settleStarted.None?
    ensures var t := PerceptionAwaited(cfg, s, f);
            && (s.sup.perceptionWait.None? || s.sup.switching ==> StopsFor(t.sup, 0))
            && t.sup.perceptionWait == (if s.sup.perceptionWait.None? then Some(s.rt.now) else s.sup.perceptionWait)
            && t.sup.goal == s.sup.goal && t.sup.goals == s.sup.goals && t.sup.replanTried == s.sup.replanTried
  {
    hide Sound, StopThen, Crossed, Braked, Alike, Quieter;
    var sup, rt := s.sup, s.rt;
    if sup.perceptionWait.None? {
      var waiting := sup.(perceptionWait := Some(rt.now));
      StopThenBrakes(cfg, waiting, rt, 0);
      StoppedWaits(cfg, StopThen(cfg, waiting, rt, 0), f.odomFresh);
    } else {
      StoppedWaits(cfg, Stage(sup, rt, None), f.odomFresh);
    }
  }

  /** What the stages of a tick do with each trouble when no stop is pending. */
  lemma TroubleStages(cfg: Settings, sup: Sup, rt: Runtime, f: Finds)
    requires Sound(rt) && !rt.fault && !sup.switching
    ensures var s := BeforeChild(cfg, sup, rt, f);
            && (Changed(sup, f) ==> StopsFor(s.sup, 0) && s.sup.goal == f.goal && s.sup.goals == f.goals && !s.sup.replanTried)
            && (!f.perception && sup.perceptionWait.None? ==> StopsFor(s.sup, 0) && s.sup.perceptionWait == Some(rt.now))
            && (!f.perception && sup.perceptionWait.Some? ==> s.sup.perceptionWait == sup.perceptionWait)
            && (f.perception && sup.perceptionWait.Some? ==> StopsFor(s.sup, 0) && s.sup.perceptionWait.None?)
            && (f.perception && Expired(cfg, sup, rt) ==> s.out == Some(Failure) && s.rt.fault)
            && (f.perception && !Expired(cfg, sup, rt) && !Asked(sup, f) ==>
                  && (f.ready == Missing ==> StopsFor(s.sup, 0) && s.sup.inputWaiting && s.rt.recoveryActive)
                  && (f.ready == Unlocalized && (sup.active == 0 || sup.inputWaiting) ==> StopsFor(s.sup, 1)))
  {
    hide Sound, Held, Settled, GoalsNoted, PerceptionAwaited, Crossed, InputsAwaited, NavigationGated, Failed, StillFor,
         Changed, Linked, MotionBusy, Alike;
    SoundIsLinked(rt);
    GoalsNotedHandsOn(cfg, sup, rt, f);
    var noted := GoalsNoted(cfg, sup, rt, f);
    AlikeNow(rt, noted.rt);
    if !f.perception {
      MissingEndsTick(cfg, noted, f);
      MissingStops(cfg, noted, f);
      assert BeforeChild(cfg, sup, rt, f) == PerceptionAwaited(cfg, noted, f);
    } else {
      PerceptionHandsOn(cfg, noted, f);
      var perceived := PerceptionAwaited(cfg, noted, f);
      AlikeTrans(rt, noted.rt, perceived.rt);
      ExpiredLater(cfg, sup, rt, noted, perceived);
      var limited := TimeLimited(cfg, perceived);
      if limited.out.Some? {
        EndedBefore(cfg, limited, f);
        HeldIsSound(perceived);
        FailedBrakes(perceived.sup, perceived.rt);
        FailedKeepsSup(perceived.sup, perceived.rt);
      } else {
        CrossedExactly(cfg, limited, f.odomFresh);
        var crossed := Crossed(cfg, limited, f.odomFresh);
        if crossed.out.Some? {
          EndedBefore(cfg, crossed, f);
        } else {
          LastStages(cfg, crossed, f);
        }
      }
    }
  }

  lemma AlikeNow(rt: Runtime, t: Runtime)
    requires Alike(rt, t)
    ensures t.now == rt.now
  {}

  lemma HeldIsSound(s: Stage)
    requires Held(s)
    ensures Sound(s.rt)
  {}

  lemma FailedKeepsSup(sup: Sup, rt: Runtime)
    requires Sound(rt)
    ensures Failed(sup, rt).sup == sup && Failed(sup, rt).out == Some(Failure)
  {
    hide Sound, Quieted;
  }

  lemma LastStages(cfg: Settings, crossed: Stage, f: Finds)
    requires Held(crossed) && crossed.out.None? && !crossed.sup.switching
    ensures var s := NavigationGated(cfg, InputsAwaited(cfg, crossed, f), f);
            && (f.ready == Missing ==> StopsFor(s.sup, 0) && s.sup.inputWaiting && s.rt.recoveryActive)
            && (f.ready == Unlocalized && (crossed.sup.active == 0 || crossed.sup.inputWaiting) ==> StopsFor(s.sup, 1))
  {
    hide Sound, Held, InputsAwaited, NavigationGated;
    InputsExactly(cfg, crossed, f);
    var supplied := InputsAwaited(cfg, crossed, f);
    if supplied.out.None? {
      GateExactly(cfg, supplied, f);
    } else {
      EndedBefore(cfg, supplied, f);
    }
  }

  /**
   In every run, in a tick that finds a started task and no stop pending: a changed task or goal, perception lost or
   back again, and missing inputs stop the vehicle for navigation to plan anew, with the new goals and a wait begun;
   lost localization stops it for the recovery child; and a limit that has passed is a fault. Either way no child is
   ticked, permission is gone and the motion goal was asked to stop.
   */
  lemma TroubleStops(cfg: Settings, leaves: seq<bool>, boot: real, events: seq<Event>, f: Finds)
    requires var w := Run(cfg, leaves, boot, events);
             w.status != Idle && !w.sup.startingTask && !w.rt.fault && !w.sup.switching
    ensures var w := Run(cfg, leaves, boot, events); var rt := At(w.rt, f.at); var after := Ticked(cfg, w, f);
            && (Changed(w.sup, f) ==>
                  StopsFor(after.sup, 0) && after.sup.goal == f.goal && after.sup.goals == f.goals && !after.sup.replanTried)
            && (!f.perception && w.sup.perceptionWait.None? ==>
                  StopsFor(after.sup, 0) && after.sup.perceptionWait == Some(rt.now))
            && (!f.perception && w.sup.perceptionWait.Some? ==> after.sup.perceptionWait == w.sup.perceptionWait)
            && (f.perception && w.sup.perceptionWait.Some? ==> StopsFor(after.sup, 0) && after.sup.perceptionWait.None?)
            && (f.perception && Expired(cfg, w.sup, rt) ==> after.status == Failure && after.rt.fault)
            && (f.perception && !Expired(cfg, w.sup, rt) && !Asked(w.sup, f) ==>
                  && (f.ready == Missing ==> StopsFor(after.sup, 0) && after.sup.inputWaiting && after.rt.recoveryActive)
                  && (f.ready == Unlocalized && (w.sup.active == 0 || w.sup.inputWaiting) ==> StopsFor(after.sup, 1)))
    ensures var w := Run(cfg, leaves, boot, events); var after := Ticked(cfg, w, f);
            (Asked(w.sup, f) || !f.perception || Expired(cfg, w.sup, At(w.rt, f.at)) || f.ready == Missing ||
             (f.ready == Unlocalized && (w.sup.active == 0 || w.sup.inputWaiting))) ==>
              && Staged(cfg, w, f).out.Some? && after.rt.permission == 0
              && (after.sup.switching || after.rt.fault ==> Braked(after.rt))
  {
    hide Run, Sound, Settled, BeforeChild, TaskStarted, Linked, Changed, Expired, Braked, AppliedAll, AfterChild, StopsFor;
    var w := Run(cfg, leaves, boot, events);
    EnteredKeeps(cfg, w, f.at);
    var rt := At(w.rt, f.at);
    TroubleStages(cfg, w.sup, rt, f);
    ChildTickedExactly(cfg, leaves, boot, events, f);
    StagedSteers(cfg, w, f);
    RunBrakes(cfg, leaves, boot, events);
    TickBrakes(cfg, w, f);
  }

  // ---------------------------------------------------------------- what a child's end leads to

  /** The tick ended with a stop for this child, running, and without permission. */
  predicate Stopping(w: World, next: nat) {
    w.status == Running && StopsFor(w.sup, next) && w.rt.permission == 0
  }

  predicate NoLeafRuns(rt: Runtime) {
    forall i :: 0 <= i < |rt.leaves| ==> !rt.leaves[i].running
  }

  lemma {:induction false} HaltingStopsLeaves(rt: Runtime, from: nat)
    requires Linked(rt) && from <= |rt.leaves|
    ensures |AllHalted(rt, from).leaves| == |rt.leaves|
    ensures forall i :: from <= i < |rt.leaves| ==> !AllHalted(rt, from).leaves[i].running
    ensures forall i :: 0 <= i < from ==> AllHalted(rt, from).leaves[i] == rt.leaves[i]
    decreases |rt.leaves| - from
  {
    hide Linked, LeafHalts;
    if from < |rt.leaves| {
      HaltKeepsLinks(rt, from);
      HaltStopsLeaf(rt, from);
      HaltingStopsLeaves(LeafHalts(rt, from), from + 1);
    }
  }

  lemma HaltStopsLeaf(rt: Runtime, i: nat)
    requires Linked(rt) && i < |rt.leaves|
    ensures var t := LeafHalts(rt, i);
            && |t.leaves| == |rt.leaves| && !t.leaves[i].running
            && forall j :: 0 <= j < |rt.leaves| && j != i ==> t.leaves[j] == rt.leaves[j]
  {
    LinkedLeaf(rt, i);
    var quiet := if rt.leaves[i].moves then Revoked(rt) else rt;
    CancelKeepsLinksOf(quiet, rt.leaves[i].session);
  }

  /** After the child: a fault fails, lost localization stops, and otherwise the child's answer decides. */
  lemma AnswersExactly(cfg: Settings, sup: Sup, rt: Runtime, f: Finds)
    requires Sound(rt) && !sup.switching
    ensures Linked(rt)
    ensures var s := AfterChild(cfg, sup, rt, f); var w := World(s.sup, s.rt, if s.out.Some? then s.out.value else Idle);
            if rt.fault || (f.child == Failure && sup.active == 1 && (f.ready == Ready.Ready || !MotionBusy(rt))) then
              w.status == Failure && w.rt.fault
            else if f.ready != Ready.Ready && MotionBusy(rt) then Stopping(w, 1)
            else if f.child == Running then w.status == Running && !w.sup.switching
            else if sup.active == 0 then
              if f.child == Success then w.status == Success && !w.sup.initialized && NoLeafRuns(w.rt)
              else Stopping(w, if sup.replanTried then 1 else 0) && w.sup.replanTried && w.rt.recoveryActive
            else Stopping(w, 0)
  {
    hide Sound, StopThen, Failed, Braked, BegunRecovery, AllHalted, Linked, Alike, Movable;
    SoundIsLinked(rt);
    var left := GoalsLeft(sup, f);
    JudgedExactly(cfg, left, rt, f);
    var judged := Judged(cfg, left, rt, f);
    hide Judged;
    ConcludedExactly(cfg, judged.sup, judged.rt, f.child);
  }

  lemma JudgedExactly(cfg: Settings, sup: Sup, rt: Runtime, f: Finds)
    requires Sound(rt) && !sup.switching
    ensures Linked(rt)
    ensures var s := Judged(cfg, sup, rt, f);
            && s.rt.fault == rt.fault && s.sup.active == sup.active && s.sup.replanTried == sup.replanTried
            && (if f.ready != Ready.Ready && MotionBusy(rt) then StopsFor(s.sup, 1) && s.rt.permission == 0 else s.sup == sup)
  {
    hide StopThen, Braked;
    SoundIsLinked(rt);
    StopThenBrakes(cfg, sup, rt, 1);
  }

  lemma ConcludedExactly(cfg: Settings, sup: Sup, rt0: Runtime, child: Status)
    requires Sound(rt0) && (sup.switching ==> rt0.permission == 0)
    ensures var s := Concluded(cfg, sup, rt0, child); var w := World(s.sup, s.rt, if s.out.Some? then s.out.value else Idle);
            if rt0.fault then w.status == Failure && w.rt.fault
            else if sup.switching || child == Running then s == Stage(sup, rt0, Some(Running))
            else if child == Failure && sup.active == 1 then w.status == Failure && w.rt.fault
            else if child == Success && sup.active == 0 then w.status == Success && !w.sup.initialized && NoLeafRuns(w.rt)
            else if sup.active == 0 then
              Stopping(w, if sup.replanTried then 1 else 0) && w.sup.replanTried && w.rt.recoveryActive
            else Stopping(w, 0)
  {
    hide Sound, StopThen, Failed, Braked, AllHalted, Linked, Alike;
    PlainChanges(rt0, rt0.now);
    var rt := Revoked(rt0);
    FailedBrakes(sup, rt0);
    FailedKeepsSup(sup, rt0);
    if !rt0.fault && !sup.switching && child != Running {
      FailedBrakes(sup, rt);
      FailedKeepsSup(sup, rt);
      SoundIsLinked(rt);
      AllHaltedSound(rt, 0);
      HaltingStopsLeaves(rt, 0);
      RecoveryFlagged(rt);
      StopThenBrakes(cfg, sup.(replanTried := true), BegunRecovery(rt), if sup.replanTried then 1 else 0);
      AlikeFlag(BegunRecovery(rt), StopThen(cfg, sup.(replanTried := true), BegunRecovery(rt), if sup.replanTried then 1 else 0).rt);
      StopThenBrakes(cfg, sup, rt, 0);
    }
  }

  /**
   In every run, what a ticked child leads to: a fault below it, and a recovery that fails, are final; localization lost
   while a goal may move stops for recovery; navigation that succeeds ends the task with every leaf halted; navigation
   that ends otherwise is planned anew once, and then recovered; a recovery that ends leads back to navigation.
   */
  lemma ChildEndsLeadOn(cfg: Settings, leaves: seq<bool>, boot: real, events: seq<Event>, f: Finds)
    requires Staged(cfg, Run(cfg, leaves, boot, events), f).out.None?
    ensures Linked(Below(cfg, Run(cfg, leaves, boot, events), f))
    ensures var w := Run(cfg, leaves, boot, events); var below := Below(cfg, w, f); var after := Ticked(cfg, w, f);
            var child, replanned := Heading(w.sup, f), w.sup.replanTried && !Changed(w.sup, f);
            if below.fault || (f.child == Failure && child == 1 && (f.ready == Ready.Ready || !MotionBusy(below))) then
              after.status == Failure && after.rt.fault
            else if f.ready != Ready.Ready && MotionBusy(below) then Stopping(after, 1)
            else if f.child == Running then after.status == Running && !after.sup.switching
            else if child == 0 then
              if f.child == Success then after.status == Success && !after.sup.initialized && NoLeafRuns(after.rt)
              else Stopping(after, if replanned then 1 else 0) && after.sup.replanTried && after.rt.recoveryActive
            else Stopping(after, 0)
  {
    hide Run, Sound, Settled, BeforeChild, TaskStarted, Linked, Changed, AppliedAll, AfterChild, StopsFor, MotionBusy,
         Stopping, NoLeafRuns, Heading, Expired, Crosses, Supplied, Asked;
    var w := Run(cfg, leaves, boot, events);
    EnteredKeeps(cfg, w, f.at);
    ChildTickedExactly(cfg, leaves, boot, events, f);
    StagesExactly(cfg, w.sup, At(w.rt, f.at), f);
    StagedSteers(cfg, w, f);
    var s := Staged(cfg, w, f);
    AnswersExactly(cfg, s.sup, Below(cfg, w, f), f);
  }

  /** A new tree moves nothing and is allowed nothing. */
  lemma StartsQuiet(leaves: seq<bool>, now: real)
    ensures var w := Boot(leaves, now);
            && w.status == Idle && w.sup == REST && w.rt.permission == 0 && w.rt.motion.None? && w.rt.sessions == []
            && !w.rt.fault && !w.rt.recoveryActive && w.rt.still.None? && NoLeafRuns(w.rt) && |w.rt.leaves| == |leaves|
  {}

  lemma QuietStopsLeaves(rt: Runtime)
    requires Sound(rt)
    ensures NoLeafRuns(Quieted(rt)) && Quieted(rt).permission == 0
  {
    hide AllHalted, Canceled;
    QuietedSound(rt);
    HaltingStopsLeaves(Revoked(rt), 0);
    var halted := AllHalted(Revoked(rt), 0);
    CancelKeepsLinks(halted, halted.motion);
  }

  /** A node that has answered is set idle, so that its next tick starts a task; nothing else changes. */
  lemma ReleaseMakesIdle(cfg: Settings, leaves: seq<bool>, boot: real, events: seq<Event>)
    ensures var w, v := Run(cfg, leaves, boot, events), Run(cfg, leaves, boot, events + [Release]);
            v.sup == w.sup && v.rt == w.rt && v.status == if w.status == Running then Running else Idle
  {
    hide Run;
    RunExtends(cfg, leaves, boot, events, Release);
  }

  /** In every run halting the node stops every leaf and goal, takes permission back, and forgets task, stop and waits. */
  lemma HaltStopsEverything(cfg: Settings, leaves: seq<bool>, boot: real, events: seq<Event>)
    ensures var w := Run(cfg, leaves, boot, events + [Halt]);
            && w.status == Idle && w.rt.permission == 0 && NoLeafRuns(w.rt) && Braked(w.rt)
            && !w.sup.initialized && !w.sup.switching && !w.sup.startingTask && !w.sup.inputWaiting
            && w.sup.perceptionWait.None? && w.sup.uuidWait.None? && w.sup.inputHealthySince.None?
  {
    hide Run, Sound, Quieted, Braked, NoLeafRuns;
    RunExtends(cfg, leaves, boot, events, Halt);
    var rt := Run(cfg, leaves, boot, events).rt;
    QuietedBrakes(rt);
    QuietStopsLeaves(rt);
  }

  // ---------------------------------------------------------------- starting a task

  lemma NamedExactly(cfg: Settings, sup: Sup, rt: Runtime, f: Finds)
    requires Sound(rt)
    ensures var t := TaskNamed(cfg, sup, rt, f);
            && (t.out.None? <==> sup.startingUuid != "" || !StaleUuid(sup, f.uuid))
            && t.sup.startingTask == sup.startingTask
            && (t.out.None? ==>
                  && t.sup.startingUuid == (if sup.startingUuid != "" then sup.startingUuid else f.uuid)
                  && t.sup.switching == (sup.switching || sup.startingUuid == "")
                  && (t.sup.settleStarted == (if sup.switching then sup.settleStarted else None) || !t.sup.switching))
            && (t.out.Some? ==> t.out.value == if Since(rt.now, sup.uuidWait) > UUID_WAIT then Failure else Running)
  {
    hide Sound, StopThen, Failed, Braked, Alike;
    PlainChanges(rt, rt.now);
    FailedKeepsSup(sup, Revoked(rt));
    StopThenBrakes(cfg, sup.(startingUuid := f.uuid), Revoked(rt), 0);
  }

  lemma StartExactly(cfg: Settings, sup: Sup, rt: Runtime, f: Finds)
    requires Sound(rt) && TaskPending(sup, rt) && sup.startingTask
    ensures Linked(rt)
    ensures var s := TaskStarted(cfg, sup, rt, f);
            && (!s.sup.startingTask <==>
                  && (sup.startingUuid != "" || !StaleUuid(sup, f.uuid)) && f.ready == Ready.Ready
                  && StillFor(rt, cfg.stillDuration, f.odomFresh)
                  && (sup.switching || sup.startingUuid == "" ==> Crosses(cfg, sup, rt, f.odomFresh)))
            && (!s.sup.startingTask ==>
                  && s.sup.uuid == (if sup.startingUuid != "" then sup.startingUuid else f.uuid)
                  && s.sup.goal == f.goal && s.sup.goals == f.goals && s.sup.active == 0 && s.sup.initialized
                  && !s.sup.switching && !s.sup.replanTried && !s.sup.inputWaiting
                  && !s.rt.fault && !s.rt.recoveryActive && s.out == Some(Running))
            && (sup.startingUuid == "" && StaleUuid(sup, f.uuid) ==>
                  s.out == Some(if Since(rt.now, sup.uuidWait) > UUID_WAIT then Failure else Running))
  {
    hide Sound, Held, TaskNamed, StopThen, Braked, Crossed, StillFor, Linked, Crosses, StaleUuid, Alike, Quieter, NewTask;
    SoundIsLinked(rt);
    NamedExactly(cfg, sup, rt, f);
    var named := TaskNamed(cfg, sup, rt, f);
    if named.out.None? {
      CrossedExactly(cfg, named, f.odomFresh);
      NamedIsAlike(cfg, sup, rt, f);
      CrossesAsNamed(cfg, sup, rt, named, f.odomFresh);
      var s := Crossed(cfg, named, f.odomFresh);
      if s.out.None? {
        NoMotionLeft(cfg, sup, rt, f);
        StillAlike(cfg, rt, named.rt, s.rt, f.odomFresh);
        HeldIsSound(s);
        StopThenBrakes(cfg, s.sup, s.rt, 0);
        StartedFields(s, f);
      }
    } else {
      CrossedPasses(cfg, named, f.odomFresh);
    }
  }

  lemma NamedIsAlike(cfg: Settings, sup: Sup, rt: Runtime, f: Finds)
    requires Sound(rt)
    ensures var t := TaskNamed(cfg, sup, rt, f); t.out.None? ==> Alike(rt, t.rt)
  {
    hide Sound, StopThen, Failed, Braked, Alike;
    PlainChanges(rt, rt.now);
    AlikeItself(rt);
    StopThenBrakes(cfg, sup.(startingUuid := f.uuid), Revoked(rt), 0);
    AlikeTrans(rt, Revoked(rt), StopThen(cfg, sup.(startingUuid := f.uuid), Revoked(rt), 0).rt);
  }

  lemma StartedFields(s: Stage, f: Finds)
    ensures var t := NewTask(s.sup, s.rt, f.goal, f.goals);
            && !t.sup.startingTask && t.sup.uuid == s.sup.startingUuid && t.sup.goal == f.goal && t.sup.goals == f.goals
            && t.sup.active == 0 && t.sup.initialized && t.sup.switching == s.sup.switching && !t.sup.replanTried
            && !t.sup.inputWaiting && !t.rt.fault && !t.rt.recoveryActive && t.out == Some(Running)
  {}

  lemma CrossedPasses(cfg: Settings, s: Stage, odomFresh: bool)
    requires Held(s) && s.out.Some?
    ensures Crossed(cfg, s, odomFresh) == s
  {}

  lemma CrossesAsNamed(cfg: Settings, sup: Sup, rt: Runtime, named: Stage, odomFresh: bool)
    requires Linked(rt) && Linked(named.rt) && Alike(rt, named.rt)
    requires named.sup.settleStarted == (if sup.switching then sup.settleStarted else None) || !named.sup.switching
    requires named.sup.switching == (sup.switching || sup.startingUuid == "")
    ensures named.sup.switching ==> (Crosses(cfg, named.sup, named.rt, odomFresh) <==> Crosses(cfg, sup, rt, odomFresh))
  {}

  lemma StillAlike(cfg: Settings, rt: Runtime, named: Runtime, t: Runtime, odomFresh: bool)
    requires Alike(rt, named) && Alike(named.(motion := t.motion), t)
    ensures StillFor(t, cfg.stillDuration, odomFresh) == StillFor(rt, cfg.stillDuration, odomFresh)
  {}

  /**
   In every run a task that is waiting to start does start in a tick if and only if an id other than the last task's has
   named it, inputs are ready, the vehicle has been still for the still duration, and the stop that its naming asked for
   has settled. It then has that id and the goals of the tick, and nothing is left of an earlier fault or recovery. One
   that is not named waits for two seconds and then fails.
   */
  lemma TaskStartsExactly(cfg: Settings, leaves: seq<bool>, boot: real, events: seq<Event>, f: Finds)
    requires var w := Run(cfg, leaves, boot, events); w.status == Idle || w.sup.startingTask
    ensures Linked(At(Run(cfg, leaves, boot, events).rt, f.at))
    ensures var w := Run(cfg, leaves, boot, events); var rt := At(w.rt, f.at); var after := Ticked(cfg, w, f);
            var name := if w.status == Idle then "" else w.sup.startingUuid;
            && (!after.sup.startingTask <==>
                  && (name != "" || !StaleUuid(w.sup, f.uuid)) && f.ready == Ready.Ready
                  && StillFor(rt, cfg.stillDuration, f.odomFresh)
                  && (w.sup.switching || name == "" ==> Crosses(cfg, w.sup, rt, f.odomFresh)))
            && (!after.sup.startingTask ==>
                  && after.sup.uuid == (if name != "" then name else f.uuid)
                  && after.sup.goal == f.goal && after.sup.goals == f.goals && after.sup.active == 0 && after.sup.initialized
                  && !after.sup.switching && !after.sup.replanTried && !after.sup.inputWaiting
                  && !after.rt.fault && !after.rt.recoveryActive && after.status == Running)
            && (name == "" && StaleUuid(w.sup, f.uuid) ==>
                  after.status == if w.status != Idle && Since(rt.now, w.sup.uuidWait) > 2.0 then Failure else Running)
  {
    hide Run, Sound, Settled, BeforeChild, TaskStarted, Linked, StillFor, AppliedAll, AfterChild;
    var w := Run(cfg, leaves, boot, events);
    EnteredKeeps(cfg, w, f.at);
    var rt := At(w.rt, f.at);
    StartExactly(cfg, Entered(w, rt.now), rt, f);
  }

  // ---------------------------------------------------------------- no wait outlives its limit

  /** A pending stop is within the time for cancelling and the time for settling. */
  predicate InTime(cfg: Settings, s: Stage)
    requires Linked(s.rt)
  {
    s.sup.switching ==>
      if MotionBusy(s.rt) then s.rt.now < s.sup.cancelDeadline
      else s.sup.settleStarted.Some? ==> s.rt.now - s.sup.settleStarted.value < cfg.settleTimeout
  }

  lemma HeldIsLinked(s: Stage)
    requires Held(s)
    ensures Linked(s.rt)
  {}

  lemma CrossedInTime(cfg: Settings, s: Stage, odomFresh: bool)
    requires Held(s) && s.out.None? && cfg.settleTimeout > 0.0
    ensures Linked(Crossed(cfg, s, odomFresh).rt)
    ensures Crossed(cfg, s, odomFresh).out != Some(Failure) ==> InTime(cfg, Crossed(cfg, s, odomFresh))
  {
    hide Sound, Failed, StillFor;
    HeldIsLinked(Crossed(cfg, s, odomFresh));
    if s.sup.switching {
      PlainChanges(s.rt, s.rt.now);
      SoundIsLinked(s.rt);
      var rt := Revoked(s.rt);
      FailedKeepsSup(s.sup, rt);
      if !MotionBusy(rt) {
        var settling := SettlingBegun(s.sup, rt);
        FailedKeepsSup(settling.sup, settling.rt);
      }
    }
  }

  /** Recovery and the wait for inputs are within their limits. */
  predicate WithinLimits(cfg: Settings, sup: Sup, rt: Runtime) {
    && (rt.recoveryActive ==> rt.now - rt.recoveryStarted < cfg.recoveryTimeout)
    && (sup.inputWaiting ==> rt.now - sup.inputWaitStarted < cfg.inputWaitTimeout)
  }

  /** All limits are real durations. */
  predicate Limiting(cfg: Settings) {
    cfg.cancelTimeout > 0.0 && cfg.settleTimeout > 0.0 && cfg.recoveryTimeout > 0.0 && cfg.inputWaitTimeout > 0.0
  }

  lemma StopInTime(cfg: Settings, sup: Sup, rt: Runtime, next: nat)
    requires Sound(rt) && !sup.switching && Limiting(cfg)
    ensures var s := StopThen(cfg, sup, rt, next);
            && Linked(s.rt) && InTime(cfg, s) && s.rt.now == rt.now && s.rt.recoveryActive == rt.recoveryActive
            && s.rt.recoveryStarted == rt.recoveryStarted && s.sup.inputWaiting == sup.inputWaiting
            && s.sup.inputWaitStarted == sup.inputWaitStarted
  {
    hide Sound, StopThen, Linked, Braked;
    StopThenBrakes(cfg, sup, rt, next);
    HeldIsLinked(StopThen(cfg, sup, rt, next));
  }

  lemma InputsInTime(cfg: Settings, s: Stage, f: Finds)
    requires Held(s) && s.out.None? && !s.sup.switching && Limiting(cfg) && WithinLimits(cfg, s.sup, s.rt)
    ensures var t := InputsAwaited(cfg, s, f);
            Linked(t.rt) && InTime(cfg, t) && WithinLimits(cfg, t.sup, t.rt)
  {
    hide Sound, StopThen, Linked, MotionBusy;
    RecoveryFlagged(s.rt);
    PlainChanges(s.rt, s.rt.now);
    HeldIsLinked(InputsAwaited(cfg, s, f));
    if f.ready == Missing {
      var sup := if s.sup.inputWaiting then s.sup else s.sup.(inputWaiting := true, inputWaitStarted := s.rt.now);
      StopInTime(cfg, sup.(inputHealthySince := None), BegunRecovery(s.rt), 0);
    } else if s.sup.inputWaiting && f.ready == Unlocalized {
      StopInTime(cfg, s.sup.(inputHealthySince := None), Revoked(s.rt), 1);
    }
  }

  lemma GateInTime(cfg: Settings, s: Stage, f: Finds)
    requires Held(s) && s.out.None? && !s.sup.switching && Limiting(cfg) && WithinLimits(cfg, s.sup, s.rt)
    ensures var t := NavigationGated(cfg, s, f);
            Linked(t.rt) && (t.out != Some(Failure) ==> InTime(cfg, t) && WithinLimits(cfg, t.sup, t.rt))
  {
    hide Sound, StopThen, Failed, Linked, MotionBusy;
    PlainChanges(s.rt, s.rt.now);
    HeldIsLinked(NavigationGated(cfg, s, f));
    StopInTime(cfg, s.sup, s.rt, 1);
    var sup := if s.sup.uuidWait.None? then s.sup.(uuidWait := Some(s.rt.now)) else s.sup;
    FailedKeepsSup(sup, Revoked(s.rt));
    var stopped := StopThen(cfg, s.sup, s.rt, 1);
    HeldIsLinked(stopped);
    if s.sup.active == 0 && f.ready != Ready.Ready {
      SameMotion(stopped.rt, BegunRecovery(stopped.rt));
    }
  }

  /** A tick that has not failed leaves no pending stop that is late, and none of the waits over its limit. */
  lemma StagesInTime(cfg: Settings, sup: Sup, rt: Runtime, f: Finds)
    requires Sound(rt) && Limiting(cfg)
    ensures var s := BeforeChild(cfg, sup, rt, f);
            && Linked(s.rt)
            && (s.out != Some(Failure) ==> InTime(cfg, s))
            && (s.out != Some(Failure) && f.perception ==> WithinLimits(cfg, s.sup, s.rt))
  {
    hide Sound, Held, Settled, GoalsNoted, PerceptionAwaited, Crossed, InputsAwaited, NavigationGated, Failed, StillFor,
         Changed, Linked, MotionBusy, Alike, InTime;
    HeldIsLinked(BeforeChild(cfg, sup, rt, f));
    GoalsNotedHandsOn(cfg, sup, rt, f);
    if rt.fault {
      FaultEndsTick(cfg, sup, rt, f);
      FailedKeepsSup(sup, rt);
    } else {
      var noted := GoalsNoted(cfg, sup, rt, f);
      if !f.perception {
        MissingEndsTick(cfg, noted, f);
        assert BeforeChild(cfg, sup, rt, f) == PerceptionAwaited(cfg, noted, f);
        MissingInTime(cfg, noted, f);
      } else {
        PerceptionHandsOn(cfg, noted, f);
        var perceived := PerceptionAwaited(cfg, noted, f);
        var limited := TimeLimited(cfg, perceived);
        if limited.out.Some? {
          EndedBefore(cfg, limited, f);
          HeldIsSound(perceived);
          FailedKeepsSup(perceived.sup, perceived.rt);
        } else {
          CrossedInTime(cfg, limited, f.odomFresh);
          CrossedExactly(cfg, limited, f.odomFresh);
          var crossed := Crossed(cfg, limited, f.odomFresh);
          CrossedKeepsLimits(cfg, limited, f.odomFresh);
          if crossed.out.Some? {
            EndedBefore(cfg, crossed, f);
          } else {
            LastInTime(cfg, crossed, f);
          }
        }
      }
    }
  }

  /** What the limits depend on is as it was. */
  predicate SameTimes(sup: Sup, rt: Runtime, t: Stage) {
    && t.rt.now == rt.now && t.rt.recoveryActive == rt.recoveryActive && t.rt.recoveryStarted == rt.recoveryStarted
    && t.sup.inputWaiting == sup.inputWaiting && t.sup.inputWaitStarted == sup.inputWaitStarted
  }

  lemma StillnessKeepsTimes(cfg: Settings, sup: Sup, rt: Runtime, odomFresh: bool)
    requires Sound(rt) && Linked(rt) && !MotionBusy(rt) && sup.settleStarted.Some? && rt.permission == 0
    ensures var t := StillnessAwaited(cfg, sup, rt, odomFresh); t.out != Some(Failure) ==> SameTimes(sup, rt, t)
  {
    hide Sound, Failed, StillFor;
    FailedKeepsSup(sup, rt);
  }

  lemma SettlingKeepsTimes(sup: Sup, rt: Runtime)
    requires Sound(rt)
    ensures SameTimes(sup, rt, SettlingBegun(sup, rt)) && SettlingBegun(sup, rt).rt.permission == rt.permission
  {
    hide Sound;
  }

  lemma CrossedKeepsLimits(cfg: Settings, s: Stage, odomFresh: bool)
    requires Held(s) && s.out.None? && WithinLimits(cfg, s.sup, s.rt)
    ensures var t := Crossed(cfg, s, odomFresh); t.out != Some(Failure) ==> WithinLimits(cfg, t.sup, t.rt)
  {
    hide Sound, Failed, StillnessAwaited, SettlingBegun, Linked, MotionBusy, Quieter;
    if s.sup.switching {
      PlainChanges(s.rt, s.rt.now);
      SoundIsLinked(s.rt);
      var rt := Revoked(s.rt);
      FailedKeepsSup(s.sup, rt);
      if !MotionBusy(rt) && !(s.sup.inputWaiting && !odomFresh) {
        var settling := SettlingBegun(s.sup, rt);
        SettlingKeepsTimes(s.sup, rt);
        SoundIsLinked(settling.rt);
        SameMotion(rt, settling.rt);
        StillnessKeepsTimes(cfg, settling.sup, settling.rt, odomFresh);
      }
    }
  }

  lemma LastInTime(cfg: Settings, crossed: Stage, f: Finds)
    requires Held(crossed) && crossed.out.None? && !crossed.sup.switching
    requires Limiting(cfg) && WithinLimits(cfg, crossed.sup, crossed.rt)
    ensures var s := NavigationGated(cfg, InputsAwaited(cfg, crossed, f), f);
            Linked(s.rt) && (s.out != Some(Failure) ==> InTime(cfg, s) && WithinLimits(cfg, s.sup, s.rt))
  {
    hide Sound, Held, InputsAwaited, NavigationGated, InTime, WithinLimits, Linked;
    InputsExactly(cfg, crossed, f);
    InputsInTime(cfg, crossed, f);
    var supplied := InputsAwaited(cfg, crossed, f);
    if supplied.out.None? {
      GateInTime(cfg, supplied, f);
    } else {
      EndedBefore(cfg, supplied, f);
    }
  }

  lemma MissingInTime(cfg: Settings, s: Stage, f: Finds)
    requires Held(s) && s.out.None? && !f.perception && Limiting(cfg)
    ensures var t := PerceptionAwaited(cfg, s, f);
            Linked(t.rt) && (t.out != Some(Failure) ==> InTime(cfg, t))
  {
    hide Sound, StopThen, Crossed, Braked, Alike, Quieter, Linked, InTime;
    var sup, rt := s.sup, s.rt;
    var waiting := sup.(perceptionWait := Some(rt.now));
    StopThenBrakes(cfg, waiting, rt, 0);
    var stopped := if sup.perceptionWait.None? then StopThen(cfg, waiting, rt, 0) else Stage(sup, rt, None);
    PlainChanges(stopped.rt, rt.now);
    var quiet := stopped.(rt := Revoked(stopped.rt));
    CrossedInTime(cfg, quiet, f.odomFresh);
    ReturningInTime(cfg, Crossed(cfg, quiet, f.odomFresh));
  }

  lemma ReturningInTime(cfg: Settings, s: Stage)
    requires Linked(s.rt)
    ensures Linked(Returning(s, Running).rt) && (InTime(cfg, s) ==> InTime(cfg, Returning(s, Running)))
  {}

  /**
   In every run a tick of a started task that has not failed before it comes to the child leaves no stop waiting beyond
   the time for cancelling or for settling, and, with perception there, neither a recovery nor a wait for inputs beyond
   its own limit: when a limit passes the tick fails.
   */
  lemma NoWaitOutlivesItsLimit(cfg: Settings, leaves: seq<bool>, boot: real, events: seq<Event>, f: Finds)
    requires Limiting(cfg)
    requires var w := Run(cfg, leaves, boot, events); w.status != Idle && !w.sup.startingTask
    ensures var s := Staged(cfg, Run(cfg, leaves, boot, events), f);
            && Linked(s.rt)
            && (s.out != Some(Failure) ==> InTime(cfg, s))
            && (s.out != Some(Failure) && f.perception ==> WithinLimits(cfg, s.sup, s.rt))
  {
    hide Run, Sound, Settled, BeforeChild, TaskStarted, Linked, InTime, WithinLimits;
    var w := Run(cfg, leaves, boot, events);
    EnteredKeeps(cfg, w, f.at);
    StagesInTime(cfg, w.sup, At(w.rt, f.at), f);
  }

  // ---------------------------------------------------------------- goals that were passed

  /** Some goals, not all, were passed and left out from the front. */
  ghost predicate Passed(goals: seq<int>, remaining: seq<int>) {
    remaining != [] && |remaining| < |goals| && exists passed: seq<int> :: goals == passed + remaining
  }

  lemma PassedIsSuffix(goals: seq<int>, remaining: seq<int>)
    ensures Passed(goals, remaining) <==>
            remaining != [] && |remaining| < |goals| && remaining == goals[|goals| - |remaining|..]
  {
    if remaining != [] && |remaining| < |goals| {
      if remaining == goals[|goals| - |remaining|..] {
        assert goals == goals[..|goals| - |remaining|] + remaining;
      }
    }
  }

  /**
   In every run, goals that the ticked child has passed are dropped from those the supervisor compares with, so that
   the next tick does not take the shorter list for a change; any other list stays as the tick found it.
   */
  lemma PassedGoalsAreNoChange(cfg: Settings, leaves: seq<bool>, boot: real, events: seq<Event>, f: Finds)
    requires Staged(cfg, Run(cfg, leaves, boot, events), f).out.None?
    ensures Ticked(cfg, Run(cfg, leaves, boot, events), f).sup.goals ==
            if f.through && f.remaining.Some? && Passed(f.goals, f.remaining.value) then f.remaining.value else f.goals
  {
    hide Run, Sound, Settled, BeforeChild, TaskStarted, Linked, Changed, AppliedAll, Passed, Heading, Expired, Crosses,
         Supplied, Asked, Judged, Concluded;
    var w := Run(cfg, leaves, boot, events);
    EnteredKeeps(cfg, w, f.at);
    ChildTickedExactly(cfg, leaves, boot, events, f);
    StagesExactly(cfg, w.sup, At(w.rt, f.at), f);
    var s := Staged(cfg, w, f);
    var below := Below(cfg, w, f);
    JudgedKeepsGoals(cfg, GoalsLeft(s.sup, f), below, f);
    var judged := Judged(cfg, GoalsLeft(s.sup, f), below, f);
    ConcludedKeepsGoals(cfg, judged.sup, judged.rt, f.child);
    if f.remaining.Some? {
      PassedIsSuffix(f.goals, f.remaining.value);
    }
  }

  lemma JudgedKeepsGoals(cfg: Settings, sup: Sup, rt: Runtime, f: Finds)
    requires Sound(rt)
    ensures Judged(cfg, sup, rt, f).sup.goals == sup.goals
  {
    SoundIsLinked(rt);
    hide Sound, Linked, Quieted;
  }

  lemma ConcludedKeepsGoals(cfg: Settings, sup: Sup, rt0: Runtime, child: Status)
    requires Sound(rt0)
    ensures Concluded(cfg, sup, rt0, child).sup.goals == sup.goals
  {
    hide Sound, Linked, Quieted, AllHalted;
  }

  // ---------------------------------------------------------------- stillness without gaps

  /** From where stillness began, odometry messages have come without a gap. */
  predicate NoGaps(cfg: Settings, rt: Runtime) {
    rt.still.Some? ==>
      forall i :: 0 < i < |rt.samples| && rt.samples[i - 1].at >= rt.still.value ==>
        rt.samples[i].at - rt.samples[i - 1].at <= cfg.dataAge
  }

  lemma NoGapsKept(cfg: Settings, rt: Runtime, t: Runtime)
    requires Samples(rt, t) && NoGaps(cfg, rt)
    ensures NoGaps(cfg, t)
  {}

  lemma ObservedWithoutGaps(cfg: Settings, rt: Runtime, at: real, stopped: bool)
    requires Sound(rt) && NoGaps(cfg, rt) && cfg.dataAge >= 0.0
    ensures NoGaps(cfg, Observed(cfg, rt, at, stopped))
  {
    var t := Observed(cfg, rt, at, stopped);
    forall i | t.still.Some? && 0 < i < |t.samples| && t.samples[i - 1].at >= t.still.value
      ensures t.samples[i].at - t.samples[i - 1].at <= cfg.dataAge
    {
      assert i < |rt.samples| ==> t.samples[i] == rt.samples[i];
      assert t.samples[i - 1] == rt.samples[i - 1];
    }
  }

  lemma SamplesTrans(a: Runtime, b: Runtime, c: Runtime)
    requires Samples(a, b) && Samples(b, c)
    ensures Samples(a, c)
  {}

  lemma AlikeSamples(rt: Runtime, t: Runtime)
    requires Alike(rt, t)
    ensures Samples(rt, t)
  {}

  lemma StopSamples(cfg: Settings, sup: Sup, rt: Runtime, next: nat)
    requires Sound(rt)
    ensures Samples(rt, StopThen(cfg, sup, rt, next).rt)
  {
    hide Sound, StopThen, Alike, Braked;
    StopThenBrakes(cfg, sup, rt, next);
    AlikeSamples(rt, StopThen(cfg, sup, rt, next).rt);
  }

  lemma FailedSamples(sup: Sup, rt: Runtime)
    requires Sound(rt)
    ensures Samples(rt, Failed(sup, rt).rt)
  {
    hide Sound, Quieted, Alike, Braked;
    PlainChanges(rt, rt.now);
    QuietedBrakes(Faulted(rt));
    AlikeSamples(Faulted(rt), Quieted(Faulted(rt)));
  }

  lemma PlainSamples(rt: Runtime)
    ensures Samples(rt, rt) && Samples(rt, Revoked(rt)) && Samples(rt, BegunRecovery(rt)) && Samples(rt, rt.(motion := None))
  {}

  lemma CrossedSamples(cfg: Settings, s: Stage, odomFresh: bool)
    requires Held(s)
    ensures Samples(s.rt, Crossed(cfg, s, odomFresh).rt)
  {
    hide Sound, Failed, StillFor, Linked, MotionBusy;
    PlainSamples(s.rt);
    if s.out.None? && s.sup.switching {
      PlainChanges(s.rt, s.rt.now);
      SoundIsLinked(s.rt);
      var rt := Revoked(s.rt);
      FailedSamples(s.sup, rt);
      if !MotionBusy(rt) {
        var settling := SettlingBegun(s.sup, rt);
        SoundIsLinked(settling.rt);
        FailedSamples(settling.sup, settling.rt);
      }
    }
  }

  lemma GoalsNotedSamples(cfg: Settings, sup: Sup, rt: Runtime, f: Finds)
    requires Sound(rt)
    ensures Samples(rt, GoalsNoted(cfg, sup, rt, f).rt)
  {
    hide Sound, StopThen, Failed;
    PlainSamples(rt);
    FailedSamples(sup, rt);
    var named := if f.uuid != "" then sup.(uuid := f.uuid) else sup;
    StopSamples(cfg, named.(initialized := true, goal := f.goal, goals := f.goals, replanTried := false), rt, 0);
  }

  lemma PerceptionSamples(cfg: Settings, s: Stage, f: Finds)
    requires Held(s)
    ensures Samples(s.rt, PerceptionAwaited(cfg, s, f).rt)
  {
    hide Sound, StopThen, Crossed, Samples;
    var sup, rt := s.sup, s.rt;
    PlainSamples(rt);
    if s.out.None? && !f.perception {
      var waiting := sup.(perceptionWait := Some(rt.now));
      StopSamples(cfg, waiting, rt, 0);
      var stopped := if sup.perceptionWait.None? then StopThen(cfg, waiting, rt, 0) else Stage(sup, rt, None);
      PlainChanges(stopped.rt, rt.now);
      PlainSamples(stopped.rt);
      var quiet := stopped.(rt := Revoked(stopped.rt));
      CrossedSamples(cfg, quiet, f.odomFresh);
      SamplesTrans(rt, stopped.rt, quiet.rt);
      SamplesTrans(rt, quiet.rt, Crossed(cfg, quiet, f.odomFresh).rt);
    } else if s.out.None? && sup.perceptionWait.Some? {
      var paused := rt.now - sup.perceptionWait.value;
      RecoveryRestarted(rt, rt.recoveryStarted + paused);
      var extended := if rt.recoveryActive then rt.(recoveryStarted := rt.recoveryStarted + paused) else rt;
      var waiting := if sup.inputWaiting then sup.(inputWaitStarted := sup.inputWaitStarted + paused) else sup;
      StopSamples(cfg, waiting.(perceptionWait := None), extended, 0);
      ExtendedSamples(rt, paused);
      SamplesTrans(rt, extended, StopThen(cfg, waiting.(perceptionWait := None), extended, 0).rt);
    }
  }

  lemma ExtendedSamples(rt: Runtime, paused: real)
    ensures Samples(rt, rt.(recoveryStarted := rt.recoveryStarted + paused))
  {}

  lemma LimitSamples(cfg: Settings, s: Stage)
    requires Held(s)
    ensures Samples(s.rt, TimeLimited(cfg, s).rt)
  {
    hide Sound, Failed;
    PlainSamples(s.rt);
    FailedSamples(s.sup, s.rt);
  }

  lemma InputsSamples(cfg: Settings, s: Stage, f: Finds)
    requires Held(s)
    ensures Samples(s.rt, InputsAwaited(cfg, s, f).rt)
  {
    hide Sound, StopThen, BegunRecovery, Samples;
    RecoveryFlagged(s.rt);
    PlainChanges(s.rt, s.rt.now);
    PlainSamples(s.rt);
    if s.out.None? && f.ready == Missing {
      var sup := if s.sup.inputWaiting then s.sup else s.sup.(inputWaiting := true, inputWaitStarted := s.rt.now);
      StopSamples(cfg, sup.(inputHealthySince := None), BegunRecovery(s.rt), 0);
      SamplesTrans(s.rt, BegunRecovery(s.rt), StopThen(cfg, sup.(inputHealthySince := None), BegunRecovery(s.rt), 0).rt);
    } else if s.out.None? && s.sup.inputWaiting && f.ready == Unlocalized {
      StopSamples(cfg, s.sup.(inputHealthySince := None), Revoked(s.rt), 1);
      SamplesTrans(s.rt, Revoked(s.rt), StopThen(cfg, s.sup.(inputHealthySince := None), Revoked(s.rt), 1).rt);
    }
  }

  lemma GateSamples(cfg: Settings, s: Stage, f: Finds)
    requires Held(s)
    ensures Samples(s.rt, NavigationGated(cfg, s, f).rt)
  {
    hide Sound, StopThen, Failed, BegunRecovery, Samples;
    PlainSamples(s.rt);
    if s.out.None? && s.sup.active == 0 {
      PlainChanges(s.rt, s.rt.now);
      StopSamples(cfg, s.sup, s.rt, 1);
      var stopped := StopThen(cfg, s.sup, s.rt, 1);
      PlainSamples(stopped.rt);
      SamplesTrans(s.rt, stopped.rt, BegunRecovery(stopped.rt));
      var sup := if s.sup.uuidWait.None? then s.sup.(uuidWait := Some(s.rt.now)) else s.sup;
      FailedSamples(sup, Revoked(s.rt));
      SamplesTrans(s.rt, Revoked(s.rt), Failed(sup, Revoked(s.rt)).rt);
    }
  }

  lemma BeforeChildSamples(cfg: Settings, sup: Sup, rt: Runtime, f: Finds)
    requires Sound(rt)
    ensures Samples(rt, BeforeChild(cfg, sup, rt, f).rt)
  {
    hide Sound, Held, Samples, GoalsNoted, PerceptionAwaited, TimeLimited, Crossed, InputsAwaited, NavigationGated;
    GoalsNotedSamples(cfg, sup, rt, f);
    var noted := GoalsNoted(cfg, sup, rt, f);
    PerceptionSamples(cfg, noted, f);
    var perceived := PerceptionAwaited(cfg, noted, f);
    SamplesTrans(rt, noted.rt, perceived.rt);
    LimitSamples(cfg, perceived);
    var limited := TimeLimited(cfg, perceived);
    SamplesTrans(rt, perceived.rt, limited.rt);
    CrossedSamples(cfg, limited, f.odomFresh);
    var crossed := Crossed(cfg, limited, f.odomFresh);
    SamplesTrans(rt, limited.rt, crossed.rt);
    InputsSamples(cfg, crossed, f);
    var supplied := InputsAwaited(cfg, crossed, f);
    SamplesTrans(rt, crossed.rt, supplied.rt);
    GateSamples(cfg, supplied, f);
    SamplesTrans(rt, supplied.rt, NavigationGated(cfg, supplied, f).rt);
  }

  lemma TaskStartSamples(cfg: Settings, sup: Sup, rt: Runtime, f: Finds)
    requires Sound(rt) && TaskPending(sup, rt)
    ensures Samples(rt, TaskStarted(cfg, sup, rt, f).rt)
  {
    hide Sound, StopThen, Failed, Crossed, StillFor, Samples;
    PlainChanges(rt, rt.now);
    PlainSamples(rt);
    FailedSamples(sup, Revoked(rt));
    SamplesTrans(rt, Revoked(rt), Failed(sup, Revoked(rt)).rt);
    StopSamples(cfg, sup.(startingUuid := f.uuid), Revoked(rt), 0);
    SamplesTrans(rt, Revoked(rt), StopThen(cfg, sup.(startingUuid := f.uuid), Revoked(rt), 0).rt);
    var named := TaskNamed(cfg, sup, rt, f);
    CrossedSamples(cfg, named, f.odomFresh);
    var s := Crossed(cfg, named, f.odomFresh);
    SamplesTrans(rt, named.rt, s.rt);
    if s.out.None? {
      NoMotionLeft(cfg, sup, rt, f);
      StopSamples(cfg, s.sup, s.rt, 0);
      SamplesTrans(rt, s.rt, StopThen(cfg, s.sup, s.rt, 0).rt);
      NewTaskSamples(s, f);
      SamplesTrans(rt, s.rt, NewTask(s.sup, s.rt, f.goal, f.goals).rt);
    }
  }

  lemma NewTaskSamples(s: Stage, f: Finds)
    ensures Samples(s.rt, NewTask(s.sup, s.rt, f.goal, f.goals).rt)
  {}

  lemma ConcludedSamples(cfg: Settings, sup: Sup, rt0: Runtime, child: Status)
    requires Sound(rt0)
    ensures Samples(rt0, Concluded(cfg, sup, rt0, child).rt)
  {
    hide Sound, StopThen, Failed, BegunRecovery, AllHalted, Linked, Alike, Samples;
    PlainChanges(rt0, rt0.now);
    PlainSamples(rt0);
    var rt := Revoked(rt0);
    FailedSamples(sup, rt0);
    FailedSamples(sup, rt);
    SamplesTrans(rt0, rt, Failed(sup, rt).rt);
    SoundIsLinked(rt);
    AllHaltedAlike(rt, 0);
    AlikeSamples(rt, AllHalted(rt, 0));
    SamplesTrans(rt0, rt, AllHalted(rt, 0));
    RecoveryFlagged(rt);
    PlainSamples(rt);
    var next := if sup.replanTried then 1 else 0;
    StopSamples(cfg, sup.(replanTried := true), BegunRecovery(rt), next);
    SamplesTrans(rt0, rt, BegunRecovery(rt));
    SamplesTrans(rt0, BegunRecovery(rt), StopThen(cfg, sup.(replanTried := true), BegunRecovery(rt), next).rt);
    StopSamples(cfg, sup, rt, 0);
    SamplesTrans(rt0, rt, StopThen(cfg, sup, rt, 0).rt);
  }

  lemma JudgedSamples(cfg: Settings, sup: Sup, rt: Runtime, f: Finds)
    requires Sound(rt)
    ensures Samples(rt, Judged(cfg, sup, rt, f).rt)
  {
    hide StopThen;
    SoundIsLinked(rt);
    StopSamples(cfg, sup, rt, 1);
  }

  lemma AfterChildSamples(cfg: Settings, sup: Sup, rt: Runtime, f: Finds)
    requires Sound(rt)
    ensures Samples(rt, AfterChild(cfg, sup, rt, f).rt)
  {
    hide Sound, Judged, Concluded, Samples;
    var left := GoalsLeft(sup, f);
    JudgedSamples(cfg, left, rt, f);
    var judged := Judged(cfg, left, rt, f);
    ConcludedSamples(cfg, judged.sup, judged.rt, f.child);
    SamplesTrans(rt, judged.rt, Concluded(cfg, judged.sup, judged.rt, f.child).rt);
  }

  lemma OpSamples(cfg: Settings, rt: Runtime, op: Op)
    requires Linked(rt) && !op.Odometry? && cfg.settleTimeout >= 0.0
    ensures Samples(rt, Applied(cfg, rt, op))
  {
    hide LeafStarts, LeafRuns, LeafHalts, Linked;
    match op
    case StartLeaf(i, m) => if i < |rt.leaves| { LeafStartsSamples(cfg, rt, i, m); }
    case RunLeaf(i, m) => if i < |rt.leaves| { LeafRunsSamples(cfg, rt, i, m); }
    case HaltLeaf(i) => if i < |rt.leaves| { HaltAlike(rt, i); }
    case _ =>
  }

  lemma LeafRunsSamples(cfg: Settings, rt0: Runtime, i: nat, m: Meets)
    requires Linked(rt0) && i < |rt0.leaves| && cfg.settleTimeout >= 0.0
    ensures Samples(rt0, LeafRuns(cfg, rt0, i, m).0)
  {
    hide LeafPolls;
    var rt := At(rt0, m.at);
    if rt.leaves[i].session.Some? {
      PollsExactly(cfg, rt, i, m);
    } else {
      PollsExactly(cfg, Opened(rt, i), i, m);
    }
  }

  lemma LeafStartsSamples(cfg: Settings, rt0: Runtime, i: nat, m: Meets)
    requires Linked(rt0) && i < |rt0.leaves| && cfg.settleTimeout >= 0.0
    ensures Samples(rt0, LeafStarts(cfg, rt0, i, m).0)
  {
    hide LeafRuns;
    var rt := At(rt0, m.at);
    var cleared := rt.leaves[i].(session := None, settling := None, released := false);
    var timed := cleared.(deadline := rt.now + cfg.responseTimeout);
    LeafKeepsLinks(rt, i, cleared);
    LeafKeepsLinks(WithLeaf(rt, i, cleared), i, timed);
    LeafRunsSamples(cfg, WithLeaf(WithLeaf(rt, i, cleared), i, timed), i, m);
  }

  lemma {:induction false} OpsWithoutGaps(cfg: Settings, rt: Runtime, ops: seq<Op>)
    requires Sound(rt) && NoGaps(cfg, rt) && cfg.dataAge >= 0.0 && cfg.settleTimeout >= 0.0
    ensures NoGaps(cfg, AppliedAll(cfg, rt, ops))
    decreases |ops|
  {
    hide Sound, NoGaps, Samples, Applied;
    if ops != [] {
      AppliedSound(cfg, rt, ops[0]);
      OpWithoutGaps(cfg, rt, ops[0]);
      OpsWithoutGaps(cfg, Applied(cfg, rt, ops[0]), ops[1..]);
    }
  }

  lemma OpWithoutGaps(cfg: Settings, rt: Runtime, op: Op)
    requires Sound(rt) && Linked(rt) && NoGaps(cfg, rt) && cfg.dataAge >= 0.0 && cfg.settleTimeout >= 0.0
    ensures NoGaps(cfg, Applied(cfg, rt, op))
  {
    hide Sound, NoGaps, Samples;
    if op.Odometry? {
      ObservedWithoutGaps(cfg, rt, op.at, op.stopped);
    } else {
      OpSamples(cfg, rt, op);
      NoGapsKept(cfg, rt, Applied(cfg, rt, op));
    }
  }

  lemma TickWithoutGaps(cfg: Settings, w: World, f: Finds)
    requires Invariant(w) && NoGaps(cfg, w.rt) && cfg.dataAge >= 0.0 && cfg.settleTimeout >= 0.0
    ensures NoGaps(cfg, Ticked(cfg, w, f).rt)
  {
    hide Sound, Settled, BeforeChild, TaskStarted, AppliedAll, AfterChild, NoGaps, Samples, Entered;
    EnteredKeeps(cfg, w, f.at);
    var rt := At(w.rt, f.at);
    var sup := Entered(w, rt.now);
    AtSamples(w.rt, f.at);
    NoGapsKept(cfg, w.rt, rt);
    if sup.startingTask {
      TaskStartSamples(cfg, sup, rt, f);
    } else {
      BeforeChildSamples(cfg, sup, rt, f);
    }
    var s := Staged(cfg, w, f);
    NoGapsKept(cfg, rt, s.rt);
    if s.out.None? {
      var below := AppliedAll(cfg, s.rt, f.ops);
      OpsWithoutGaps(cfg, s.rt, f.ops);
      AfterChildSamples(cfg, s.sup, below, f);
      NoGapsKept(cfg, below, AfterChild(cfg, s.sup, below, f).rt);
    }
  }

  lemma AtSamples(rt: Runtime, at: real)
    ensures Samples(rt, At(rt, at))
  {}

  /**
   In every run, from the moment odometry is taken to show a stopped vehicle its messages have come without a gap
   longer than data may be old; so the still duration is covered by messages.
   */
  lemma {:induction false} StillnessHasNoGaps(cfg: Settings, leaves: seq<bool>, boot: real, events: seq<Event>)
    requires cfg.dataAge >= 0.0 && cfg.settleTimeout >= 0.0
    ensures NoGaps(cfg, Run(cfg, leaves, boot, events).rt)
    decreases |events|
  {
    hide Sound, Settled, Ticked, NoGaps, Samples, Quieted, Applied;
    if events == [] {
      BootWithoutGaps(cfg, leaves, boot);
    } else {
      var w, e := Run(cfg, leaves, boot, events[..|events| - 1]), events[|events| - 1];
      StillnessHasNoGaps(cfg, leaves, boot, events[..|events| - 1]);
      match e
      case Tick(f) => TickWithoutGaps(cfg, w, f);
      case Halt =>
        QuietedBrakes(w.rt);
        AlikeSamples(w.rt, Quieted(w.rt));
        NoGapsKept(cfg, w.rt, Quieted(w.rt));
      case Release =>
      case Meanwhile(op) =>
        SoundIsLinked(w.rt);
        if op.Report? || op.Odometry? {
          OpWithoutGaps(cfg, w.rt, op);
        }
    }
  }

  lemma BootWithoutGaps(cfg: Settings, leaves: seq<bool>, boot: real)
    ensures NoGaps(cfg, Boot(leaves, boot).rt)
  {}
}
