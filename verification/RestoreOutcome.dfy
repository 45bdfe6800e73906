/**
 When exactly a mapping session fails, becomes a candidate or becomes current, that a restore can be carried through,
 what unsaved work is, and the one way in which a failed session goes on relaying scans.
 */
module RestoreOutcome {
  import opened MapRestore

  function Before(events: seq<Event>): seq<Event>
    requires events != []
  {
    events[..|events| - 1]
  }

  /**
   The resident program starts at rest and takes nothing in; started for a saved map it waits with that for reference and
   forwards nothing; otherwise it waits for the first pose and forwards every scan.
   */
  lemma StartsAsAsked(managed: bool, resume: bool)
    ensures var s := Boot(managed, resume).state;
            && s.task == AtRest && !s.busy && !s.dirty && !s.saved && !s.havePose && !s.haveMap && s.managed == managed
            && (managed ==> s.mode == Standby && s.phase == StandingBy && !s.accepting && !Relays(s))
            && (!managed && resume ==> s.mode == Resume && s.phase == Reference && s.accepting && !Relays(s))
            && (!managed && !resume ==> s.mode == New && s.phase == Waiting && Relays(s))
  {}

  // ---------------------------------------------------------------- failing

  /** What makes a session fail. */
  predicate Fails(w: World, e: Event) {
    var s := w.state;
    match e
    case Pose(stamp, inMap, finite) => s.accepting && inMap && !finite
    case SlamError(stamp) => (s.phase == Loading || s.phase == Trial || s.phase == Candidate) && stamp >= s.restoreStamp
    case Poll(now, broken, _, _) =>
      || (s.managed && (s.task == Starting || s.task == Running) && broken)
      || (s.phase == Trial && now - s.trialAt > 6.0)
    case JobFails =>
      w.job.Some? && !w.job.value.Filming? && w.job.value != Quitting(false) && !(w.job.value.Storing? && s.phase == Saving)
    case JobStep(_) =>
      || (w.job == Some(Restoring(true, true)) && s.phase != Loading)
      || (w.job.Some? && w.job.value.Storing? && w.job.value.stopped && s.phase != Saving)
    case _ => false
  }

  /** A launch or the end of a task begins, which leaves any phase. */
  predicate Resets(w: World, e: Event) {
    e.JobStep? && w.job.Some? && ((w.job.value.Launching? && !w.job.value.cleared) || w.job.value.Quitting?)
  }

  /** A session fails exactly for one of these reasons, and stays failed until a launch or the end of its task. */
  lemma FailsExactly(w: World, e: Event)
    ensures Step(w, e).state.phase == Failed <==> Fails(w, e) || (w.state.phase == Failed && !Resets(w, e))
  {
    hide Abandoned, OnPose, OnPoll, Thrown, Advanced;
    match e
    case Pose(stamp, inMap, finite) => PoseFails(w.state, stamp, inMap, finite);
    case Poll(now, broken, good, encoded) => PollFails(w.state, now, broken, good, encoded);
    case JobFails => if w.job.Some? { ThrownFails(w); }
    case JobStep(now) => if w.job.Some? { JobStepFails(w, now); }
    case _ =>
  }

  lemma PoseFails(s: State, stamp: int, inMap: bool, finite: bool)
    ensures OnPose(s, stamp, inMap, finite).phase == Failed <==> s.phase == Failed || (s.accepting && inMap && !finite)
  {
    hide Matched, PoseNoted;
    MatchedFields(s, stamp);
    PoseNotedFields(Matched(s, stamp));
  }

  lemma PollFails(s: State, now: real, broken: bool, good: bool, encoded: bool)
    ensures OnPoll(s, now, broken, good, encoded).phase == Failed <==>
              || s.phase == Failed || (s.managed && (s.task == Starting || s.task == Running) && broken)
              || (s.phase == Trial && now - s.trialAt > 6.0)
  {}

  lemma ThrownFails(w: World)
    requires w.job.Some?
    ensures Thrown(w).state.phase ==
            if w.job.value == Quitting(false) || w.job.value.Filming? then w.state.phase
            else if w.job.value.Storing? && w.state.phase == Saving then Current else Failed
  {
    hide Abandoned;
    AbandonedPhase(w.state, w.job.value);
  }

  lemma JobStepFails(w: World, now: real)
    requires w.job.Some?
    ensures Advanced(w, now).state.phase == Failed <==>
            Fails(w, JobStep(now)) || (w.state.phase == Failed && !Resets(w, JobStep(now)))
  {
    hide Thrown;
    ThrownFails(w);
  }

  // ---------------------------------------------------------------- becoming current

  /** A session becomes current exactly by a confirmed candidate, by its first map with a pose, or by being saved. */
  lemma CurrentExactly(w: World, e: Event)
    requires w.state.phase != Current
    ensures Step(w, e).state.phase == Current <==>
              || (e == Confirm(true) && w.queued.None? && !w.state.busy && w.state.phase == Candidate)
              || (e.Poll? && w.state.phase == Waiting && w.state.havePose && w.state.haveMap && e.encoded && !Fails(w, e))
              || (e.JobStep? && w.job == Some(Storing(false, true, true)) && w.state.phase == Saving)
              || (e.JobFails? && w.job.Some? && w.job.value.Storing? && w.state.phase == Saving)
  {
    hide Abandoned, OnPose, OnPoll, Thrown, Advanced;
    match e
    case Pose(stamp, inMap, finite) => PoseNeverCurrent(w.state, stamp, inMap, finite);
    case Poll(now, broken, good, encoded) => PollCurrent(w.state, now, broken, good, encoded);
    case JobFails => if w.job.Some? { ThrownFails(w); }
    case JobStep(now) => if w.job.Some? { JobStepCurrent(w, now); }
    case _ =>
  }

  /** What a pose can change. */
  lemma PoseFields(s: State, stamp: int, inMap: bool, finite: bool)
    ensures var t := OnPose(s, stamp, inMap, finite);
            && t == s.(phase := t.phase, forward := t.forward, oneScan := t.oneScan, expected := t.expected,
                       havePose := t.havePose, dirty := t.dirty)
            && (t.phase == s.phase || (t.phase == Failed && !t.forward && !t.oneScan) || (s.phase == Trial && t.phase == Candidate))
            && (t.forward ==> s.forward) && (t.oneScan ==> s.oneScan) && (t.phase == Trial ==> t.expected == s.expected)
            && (!s.accepting ==> t == s)
  {
    hide Matched, PoseNoted;
    MatchedFields(s, stamp);
    PoseNotedFields(Matched(s, stamp));
  }

  lemma MatchedFields(s: State, stamp: int)
    ensures var t := Matched(s, stamp);
            && t == s.(phase := t.phase, expected := t.expected)
            && (t == s || (s.phase == Trial && t.phase == Candidate))
  {
    if s.phase == Trial && s.expected != 0 && stamp == s.expected {
      assert Matched(s, stamp) == s.(phase := Candidate, expected := 0);
    } else {
      assert Matched(s, stamp) == s;
    }
  }

  lemma PoseNotedFields(s: State)
    ensures var t := PoseNoted(s); t == s.(havePose := t.havePose, dirty := t.dirty)
  {
    if s.phase == Waiting {
      assert PoseNoted(s) == s.(havePose := true, dirty := s.dirty);
    } else if s.phase == Current && s.forward {
      assert PoseNoted(s) == s.(havePose := s.havePose, dirty := true);
    } else {
      assert PoseNoted(s) == s;
    }
  }

  lemma PoseNeverCurrent(s: State, stamp: int, inMap: bool, finite: bool)
    ensures OnPose(s, stamp, inMap, finite).phase == Current ==> s.phase == Current
  {
    hide OnPose;
    PoseFields(s, stamp, inMap, finite);
  }

  lemma PollCurrent(s: State, now: real, broken: bool, good: bool, encoded: bool)
    requires s.phase != Current
    ensures OnPoll(s, now, broken, good, encoded).phase == Current <==>
              && s.phase == Waiting && s.havePose && s.haveMap && encoded
              && !(s.managed && (s.task == Starting || s.task == Running) && broken)
  {}

  lemma JobStepCurrent(w: World, now: real)
    requires w.job.Some? && w.state.phase != Current
    ensures Advanced(w, now).state.phase == Current <==> w.job == Some(Storing(false, true, true)) && w.state.phase == Saving
  {
    hide Thrown, RestoringOn, StoringOn, LaunchingOn, QuittingOn, FilmingOn;
    match w.job.value
    case Restoring(stopped, deserialized) => RestoringNeverCurrent(w, stopped, deserialized, now);
    case Storing(finish, stopped, frozen) => StoringCurrent(w, finish, stopped, frozen);
    case Launching(mode, cleared) => LaunchingNeverCurrent(w, mode, cleared);
    case Quitting(begun) => EndingNeverCurrent(w, begun);
    case Filming => EndingNeverCurrent(w, false);
  }

  lemma RestoringNeverCurrent(w: World, stopped: bool, deserialized: bool, now: real)
    requires w.job == Some(Restoring(stopped, deserialized)) && w.state.phase != Current
    ensures RestoringOn(w, stopped, deserialized, now).state.phase != Current
  {
    hide Thrown;
    ThrownFails(w);
  }

  lemma StoringCurrent(w: World, finish: bool, stopped: bool, frozen: bool)
    requires w.job == Some(Storing(finish, stopped, frozen)) && w.state.phase != Current
    ensures StoringOn(w, finish, stopped, frozen).state.phase == Current <==>
            w.job == Some(Storing(false, true, true)) && w.state.phase == Saving
  {
    hide Thrown;
    ThrownFails(w);
  }

  lemma LaunchingNeverCurrent(w: World, mode: Mode, cleared: bool)
    requires w.state.phase != Current
    ensures LaunchingOn(w, mode, cleared).state.phase != Current
  {}

  lemma EndingNeverCurrent(w: World, begun: bool)
    requires w.state.phase != Current
    ensures QuittingOn(w, begun).state.phase != Current && FilmingOn(w).state.phase != Current
  {}

  // ---------------------------------------------------------------- phases of a restore

  predicate Matching(phase: Phase) {
    phase == Loading || phase == Trial || phase == Candidate
  }

  /**
   A restore happens in a resumed session alone, forwards nothing, and expects the scan it has relayed; nothing is
   forwarded while the map is being saved.
   */
  predicate RestoreKept(w: World) {
    && (Matching(w.state.phase) || w.state.phase == Reference ==> w.state.mode == Resume)
    && (Matching(w.state.phase) ==> !w.state.forward)
    && (w.state.phase == Trial && w.record.trial != [] ==> w.record.trial == [w.state.expected])
    && (w.state.phase == Saving ==> !w.state.forward)
    && (w.job.Some? && w.job.value.Launching? && w.job.value.cleared ==> Unlaunched(w.state))
  }

  /** Between the two halves of a launch nothing is taken in, so the session gets nowhere. */
  predicate Unlaunched(s: State) {
    !s.accepting && !s.havePose && s.phase != Current && s.phase != Saving && s.phase != Trial && s.phase != Candidate
  }

  lemma AbandonedRestoreKept(w: World)
    requires RestoreKept(w) && w.job.Some?
    ensures RestoreKept(Thrown(w))
  {
    hide Abandoned;
    AbandonedFields(w.state, w.job.value);
    AbandonedPhase(w.state, w.job.value);
  }

  lemma RestoringRestoreKept(w: World, stopped: bool, deserialized: bool, now: real)
    requires RestoreKept(w) && w.job == Some(Restoring(stopped, deserialized))
    ensures RestoreKept(RestoringOn(w, stopped, deserialized, now))
  {
    hide Thrown;
    AbandonedRestoreKept(w);
  }

  lemma StoringRestoreKept(w: World, finish: bool, stopped: bool, frozen: bool)
    requires RestoreKept(w) && w.job == Some(Storing(finish, stopped, frozen))
    ensures RestoreKept(StoringOn(w, finish, stopped, frozen))
  {
    hide Thrown;
    AbandonedRestoreKept(w);
  }

  lemma LaunchingRestoreKept(w: World, mode: Mode, cleared: bool)
    requires RestoreKept(w) && w.job == Some(Launching(mode, cleared)) && (cleared ==> w.state.mode == mode)
    ensures RestoreKept(LaunchingOn(w, mode, cleared))
  {}

  lemma EndingRestoreKept(w: World, begun: bool)
    requires RestoreKept(w)
    ensures RestoreKept(QuittingOn(w, begun)) && RestoreKept(FilmingOn(w))
  {}

  lemma JobRestoreKept(w: World, now: real)
    requires RestoreKept(w) && JobsKept(w) && w.job.Some?
    ensures RestoreKept(Advanced(w, now))
  {
    hide RestoringOn, StoringOn, LaunchingOn, QuittingOn, FilmingOn, RestoreKept;
    match w.job.value
    case Restoring(stopped, deserialized) => RestoringRestoreKept(w, stopped, deserialized, now);
    case Storing(finish, stopped, frozen) => StoringRestoreKept(w, finish, stopped, frozen);
    case Launching(mode, cleared) => LaunchingRestoreKept(w, mode, cleared);
    case Quitting(begun) => EndingRestoreKept(w, begun);
    case Filming => EndingRestoreKept(w, false);
  }

  lemma CallbackRestoreKept(w: World, e: Event)
    requires RestoreKept(w) && TrialKept(w) && (e.Pose? || e.Poll? || e.Scan? || e.SlamError?)
    ensures RestoreKept(Step(w, e))
  {
    hide OnPose, OnPoll;
    match e
    case Pose(stamp, inMap, finite) => PoseFields(w.state, stamp, inMap, finite);
    case Poll(now, broken, good, encoded) => PollFields(w.state, now, broken, good, encoded);
    case _ =>
  }

  /** What a poll can change. */
  lemma PollFields(s: State, now: real, broken: bool, good: bool, encoded: bool)
    ensures var t := OnPoll(s, now, broken, good, encoded);
            && t == s.(phase := t.phase, task := t.task, accepting := t.accepting, forward := t.forward, oneScan := t.oneScan,
                       busy := t.busy)
            && (t.phase == s.phase || t.phase == Failed || (s.phase == Waiting && s.havePose && t.phase == Current))
            && (t.forward ==> s.forward) && (t.oneScan ==> s.oneScan) && (t.accepting ==> s.accepting)
            && (t.phase == Failed && s.phase != Failed ==> !t.oneScan && (!t.forward || s.phase == Trial))
  {
    hide Watched;
    WatchedFields(s, broken, good);
  }

  lemma WatchedFields(s: State, broken: bool, good: bool)
    ensures var t := Watched(s, broken, good);
            && t == s.(phase := t.phase, task := t.task, accepting := t.accepting, forward := t.forward, oneScan := t.oneScan,
                       busy := t.busy)
            && (if t.phase == s.phase then t.oneScan == s.oneScan || !t.oneScan else t.phase == Failed && !t.oneScan && !t.forward)
            && (t.forward ==> s.forward) && (t.oneScan ==> s.oneScan) && (t.accepting ==> s.accepting)
  {}

  lemma StepRestoreKept(w: World, e: Event)
    requires RestoreKept(w) && Invariant(w)
    ensures RestoreKept(Step(w, e))
  {
    hide Thrown, Advanced, OnPose, OnPoll, OnScan, OnSlamError;
    match e
    case JobFails => if w.job.Some? { AbandonedRestoreKept(w); }
    case JobStep(now) => if w.job.Some? { JobRestoreKept(w, now); }
    case Scan(_) => CallbackRestoreKept(w, e);
    case Pose(_, _, _) => CallbackRestoreKept(w, e);
    case SlamError(_) => CallbackRestoreKept(w, e);
    case Poll(_, _, _, _) => CallbackRestoreKept(w, e);
    case _ =>
  }

  lemma {:induction false} RunRestoreKept(managed: bool, resume: bool, events: seq<Event>)
    ensures RestoreKept(Run(managed, resume, events))
    decreases |events|
  {
    hide Step, RestoreKept, Invariant;
    if events == [] {
      BootRestoreKept(managed, resume);
    } else {
      RunRestoreKept(managed, resume, Before(events));
      RunKeeps(managed, resume, Before(events));
      StepRestoreKept(Run(managed, resume, Before(events)), events[|events| - 1]);
    }
  }

  lemma BootRestoreKept(managed: bool, resume: bool)
    ensures RestoreKept(Boot(managed, resume))
  {}

  /** In every run a candidate is reached exactly by a pose with the stamp, not zero, of the trial's relayed scan. */
  lemma CandidateExactly(managed: bool, resume: bool, events: seq<Event>, e: Event)
    requires Run(managed, resume, events).state.phase != Candidate
    ensures var w := Run(managed, resume, events);
            Step(w, e).state.phase == Candidate <==>
              && e.Pose? && e.inMap && e.finite && w.state.accepting && w.state.phase == Trial
              && e.stamp != 0 && w.record.trial == [e.stamp]
  {
    hide Run, Step, OnPose, Invariant;
    var w := Run(managed, resume, events);
    RunRestoreKept(managed, resume, events);
    if Step(w, e).state.phase == Candidate {
      CandidateIsTheTrialScan(managed, resume, events, e);
      OnlyAccepted(w, e);
    } else if e.Pose? && e.inMap && e.finite && w.state.accepting && w.state.phase == Trial && e.stamp != 0 && w.record.trial == [e.stamp] {
      TrialPoseMatches(w, e);
    }
  }

  lemma OnlyAccepted(w: World, e: Event)
    requires e.Pose? && Step(w, e).state.phase == Candidate && w.state.phase != Candidate
    ensures w.state.accepting
  {}

  lemma TrialPoseMatches(w: World, e: Event)
    requires RestoreKept(w) && e.Pose? && e.inMap && e.finite && w.state.accepting && w.state.phase == Trial
    requires e.stamp != 0 && w.record.trial == [e.stamp]
    ensures Step(w, e).state.phase == Candidate
  {}

  /** After every poll a trial is within its six seconds. */
  lemma NoTrialOutlivesItsTime(w: World, now: real, broken: bool, good: bool, encoded: bool)
    ensures var s := Step(w, Poll(now, broken, good, encoded)).state;
            s.phase == Trial ==> now - s.trialAt <= 6.0 && w.state.phase == Trial && s.trialAt == w.state.trialAt
  {}

  // ---------------------------------------------------------------- a failed session

  /** The session would relay the next scan. */
  predicate Relays(s: State) {
    s.accepting && (s.forward || s.oneScan)
  }

  /**
   In every run a failed session that relays nothing goes on relaying nothing, and a session that fails stops relaying,
   with exactly one exception: its launch in the new mode was still under way and comes to its end.
   */
  lemma FailedRelaysExactly(managed: bool, resume: bool, events: seq<Event>, e: Event)
    requires var w := Run(managed, resume, events); w.state.phase == Failed ==> !Relays(w.state)
    ensures var w := Run(managed, resume, events);
            Step(w, e).state.phase == Failed && Relays(Step(w, e).state) <==>
            e.JobStep? && w.job == Some(Launching(New, true)) && w.state.phase == Failed
  {
    hide Run, Invariant, Thrown, Advanced, OnPose, OnPoll, OnScan, OnSlamError, Fails, Resets;
    var w := Run(managed, resume, events);
    RunKeeps(managed, resume, events);
    RunRestoreKept(managed, resume, events);
    TrialOfInvariant(w);
    FailsExactly(w, e);
    match e
    case Scan(stamp) => ScanRelays(w, stamp);
    case Pose(stamp, inMap, finite) => PoseRelays(w.state, stamp, inMap, finite);
    case SlamError(stamp) => SlamErrorRelays(w.state, stamp);
    case Poll(now, broken, good, encoded) => PollRelays(w.state, now, broken, good, encoded);
    case JobFails => if w.job.Some? { ThrownRelays(w); }
    case JobStep(now) => if w.job.Some? { JobStepRelays(w, now); }
    case _ =>
  }

  lemma TrialOfInvariant(w: World)
    requires Invariant(w)
    ensures TrialKept(w) && JobsKept(w)
  {}

  lemma ScanRelays(w: World, stamp: int)
    ensures var t := OnScan(w, stamp).state; t.phase == w.state.phase && (Relays(t) ==> Relays(w.state))
  {}

  lemma PoseRelays(s: State, stamp: int, inMap: bool, finite: bool)
    ensures var t := OnPose(s, stamp, inMap, finite); t.phase == Failed && Relays(t) ==> s.phase == Failed && Relays(s)
  {
    hide OnPose;
    PoseFields(s, stamp, inMap, finite);
  }

  lemma SlamErrorRelays(s: State, stamp: int)
    ensures var t := OnSlamError(s, stamp); t.phase == Failed && Relays(t) ==> s.phase == Failed && Relays(s)
  {}

  lemma PollRelays(s: State, now: real, broken: bool, good: bool, encoded: bool)
    requires s.phase == Trial ==> !s.forward
    ensures var t := OnPoll(s, now, broken, good, encoded); t.phase == Failed && Relays(t) ==> s.phase == Failed && Relays(s)
  {
    hide OnPoll;
    PollFields(s, now, broken, good, encoded);
  }

  lemma AbandonedRelays(s: State, job: Job)
    ensures var t := Abandoned(s, job); t.forward && t.accepting ==> job.Filming? && s.forward && s.accepting
  {
    match job
    case Restoring(_, _) =>
    case Storing(_, _, _) =>
    case Launching(_, _) =>
    case Quitting(_) =>
    case Filming =>
  }

  lemma ThrownRelays(w: World)
    requires w.job.Some? && (w.state.oneScan && w.state.accepting ==> w.state.phase == Trial)
    ensures var t := Thrown(w).state; t.phase == Failed && Relays(t) ==> w.state.phase == Failed && Relays(w.state)
  {
    hide Abandoned;
    AbandonedFields(w.state, w.job.value);
    AbandonedPhase(w.state, w.job.value);
    AbandonedRelays(w.state, w.job.value);
  }

  lemma RestoringRelays(w: World, stopped: bool, deserialized: bool, now: real)
    requires w.job == Some(Restoring(stopped, deserialized)) && TrialKept(w) && (w.state.phase == Failed ==> !Relays(w.state))
    ensures var t := RestoringOn(w, stopped, deserialized, now).state; t.phase == Failed ==> !Relays(t)
  {
    hide Thrown;
    ThrownRelays(w);
  }

  lemma StoringRelays(w: World, finish: bool, stopped: bool, frozen: bool)
    requires w.job == Some(Storing(finish, stopped, frozen)) && TrialKept(w) && (w.state.phase == Failed ==> !Relays(w.state))
    ensures var t := StoringOn(w, finish, stopped, frozen).state; t.phase == Failed ==> !Relays(t)
  {
    hide Thrown;
    ThrownRelays(w);
  }

  lemma LaunchingRelays(w: World, mode: Mode, cleared: bool)
    requires w.job == Some(Launching(mode, cleared)) && TrialKept(w)
    ensures var t := LaunchingOn(w, mode, cleared).state;
            t.phase == Failed && Relays(t) <==> mode == New && cleared && w.state.phase == Failed
  {}

  lemma EndingRelays(w: World, begun: bool)
    requires w.state.phase == Failed ==> !Relays(w.state)
    ensures QuittingOn(w, begun).state.phase != Failed
    ensures var t := FilmingOn(w).state; t.phase == Failed ==> !Relays(t)
  {}

  lemma JobStepRelays(w: World, now: real)
    requires w.job.Some? && TrialKept(w) && (w.state.phase == Failed ==> !Relays(w.state))
    ensures var t := Advanced(w, now).state;
            t.phase == Failed && Relays(t) <==> w.job == Some(Launching(New, true)) && w.state.phase == Failed
  {
    hide RestoringOn, StoringOn, LaunchingOn, QuittingOn, FilmingOn, Relays, TrialKept;
    match w.job.value
    case Restoring(stopped, deserialized) => RestoringRelays(w, stopped, deserialized, now);
    case Storing(finish, stopped, frozen) => StoringRelays(w, finish, stopped, frozen);
    case Launching(mode, cleared) => LaunchingRelays(w, mode, cleared);
    case Quitting(begun) => EndingRelays(w, begun);
    case Filming => EndingRelays(w, false);
  }

  /** A fault found while a launch is under way leads to a failed session that relays every scan. */
  lemma FailedCanRelay() returns (events: seq<Event>)
    ensures var w := Run(true, false, events); w.state.phase == Failed && w.state.task == Faulted && Relays(w.state)
  {
    events := [Start(true, New, true), JobBegins, JobStep(0.0), Poll(0.0, true, false, false), JobStep(0.0)];
    hide Run;
    RunOfNothing();
    RunExtends(true, false, [], events[0]);
    RunExtends(true, false, [events[0]], events[1]);
    RunExtends(true, false, [events[0]] + [events[1]], events[2]);
    RunExtends(true, false, [events[0]] + [events[1]] + [events[2]], events[3]);
    RunExtends(true, false, [events[0]] + [events[1]] + [events[2]] + [events[3]], events[4]);
    assert events == [events[0]] + [events[1]] + [events[2]] + [events[3]] + [events[4]];
    assert [] + [events[0]] == [events[0]];
  }

  lemma RunOfNothing()
    ensures Run(true, false, []) == Boot(true, false)
  {}

  // ---------------------------------------------------------------- a restore that works

  lemma RunExtends(managed: bool, resume: bool, events: seq<Event>, e: Event)
    ensures Run(managed, resume, events + [e]) == Step(Run(managed, resume, events), e)
  {
    assert (events + [e])[..|events|] == events;
  }

  /** The operator restores a map, the job loads it, one scan is tried and matched, and the operator confirms. */
  function Restored(stamp: int, scan: int, now: real): seq<Event> {
    [RestoreAt(true, true, stamp), JobBegins, JobStep(now), JobStep(now), JobStep(now), Scan(scan), Pose(scan, true, true), Confirm(true)]
  }

  /**
   From every state of a resumed session in which a restore can be asked for, it can be carried through: the map becomes
   current and scans are relayed, after exactly one deserialization and exactly one trial scan.
   */
  lemma RestoreCanSucceed(managed: bool, resume: bool, events: seq<Event>, stamp: int, scan: int, now: real)
    requires var w := Run(managed, resume, events);
             && w.state.mode == Resume && (w.state.phase == Reference || w.state.phase == Candidate)
             && w.state.accepting && !w.state.busy && w.job.None? && w.queued.None? && scan != 0
    ensures var w, after := Run(managed, resume, events), Run(managed, resume, events + Restored(stamp, scan, now));
            && after.state.phase == Current && Relays(after.state) && !after.state.busy && after.record.confirmed
            && after.record.deserialized == w.record.deserialized + 1 && after.record.trial == [scan]
            && after.record.relayed == w.record.relayed + (if w.record.confirmed then 0 else 1)
  {
    hide Run;
    var w := Run(managed, resume, events);
    var more := Restored(stamp, scan, now);
    var loading := Loaded(managed, resume, events, stamp, now);
    RunExtends(managed, resume, events + more[..5], more[5]);
    RunExtends(managed, resume, events + more[..5] + [more[5]], more[6]);
    RunExtends(managed, resume, events + more[..5] + [more[5]] + [more[6]], more[7]);
    assert events + more[..5] + [more[5]] + [more[6]] + [more[7]] == events + more;
    var tried := Step(loading, more[5]);
    assert tried == loading.(state := loading.state.(expected := scan, oneScan := false),
                             record := Relayed(loading.record).(trial := [scan]));
    var matched := Step(tried, more[6]);
    assert matched == tried.(state := tried.state.(phase := Candidate, expected := 0));
  }

  /** The first part, up to the trial. */
  lemma Loaded(managed: bool, resume: bool, events: seq<Event>, stamp: int, now: real) returns (loading: World)
    requires var w := Run(managed, resume, events);
             && w.state.mode == Resume && (w.state.phase == Reference || w.state.phase == Candidate)
             && w.state.accepting && !w.state.busy && w.job.None? && w.queued.None?
    ensures var w := Run(managed, resume, events);
            && loading == Run(managed, resume, events + Restored(stamp, 0, now)[..5])
            && loading.state == w.state.(phase := Trial, forward := false, oneScan := true, expected := 0, restoreStamp := stamp,
                                         trialAt := now, busy := false)
            && loading.job.None? && loading.queued.None?
            && loading.record == w.record.(deserialized := w.record.deserialized + 1, trial := [])
    ensures forall scan :: Restored(stamp, scan, now)[..5] == Restored(stamp, 0, now)[..5]
  {
    hide Run;
    var w := Run(managed, resume, events);
    var more := Restored(stamp, 0, now);
    RunExtends(managed, resume, events, more[0]);
    RunExtends(managed, resume, events + [more[0]], more[1]);
    RunExtends(managed, resume, events + [more[0]] + [more[1]], more[2]);
    RunExtends(managed, resume, events + [more[0]] + [more[1]] + [more[2]], more[3]);
    RunExtends(managed, resume, events + [more[0]] + [more[1]] + [more[2]] + [more[3]], more[4]);
    assert events + [more[0]] + [more[1]] + [more[2]] + [more[3]] + [more[4]] == events + more[..5];
    var asked := Step(w, more[0]);
    assert asked.queued == Some(Restoring(false, false)) && asked.job.None?;
    var begun := Step(asked, more[1]);
    var stopped := Step(begun, more[2]);
    var read := Step(stopped, more[3]);
    loading := Step(read, more[4]);
  }

  // ---------------------------------------------------------------- unsaved work

  /** What ends the work that could be lost: it is saved, or the task is launched anew or ended. */
  predicate WorkSettled(w: World, e: Event) {
    e.JobStep? && w.job.Some? && (
      || (w.job.value.Storing? && w.job.value.stopped && w.job.value.frozen && w.state.phase == Saving)
      || (w.job.value.Launching? && !w.job.value.cleared) || w.job.value == Quitting(true))
  }

  /** A pose arrived while the current map was being extended, and nothing has settled that work since. */
  predicate Unsaved(managed: bool, resume: bool, events: seq<Event>)
    decreases |events|
  {
    events != [] &&
    var w, e := Run(managed, resume, Before(events)), events[|events| - 1];
    !WorkSettled(w, e) &&
    (Unsaved(managed, resume, Before(events)) ||
     (e.Pose? && e.inMap && e.finite && w.state.accepting && w.state.forward && w.state.phase == Current))
  }

  lemma DirtyStep(w: World, e: Event)
    ensures Step(w, e).state.dirty <==>
            !WorkSettled(w, e) &&
            (w.state.dirty || (e.Pose? && e.inMap && e.finite && w.state.accepting && w.state.forward && w.state.phase == Current))
  {
    hide Abandoned, OnPose, OnPoll;
    match e
    case Pose(stamp, inMap, finite) => PoseDirties(w.state, stamp, inMap, finite);
    case Poll(now, broken, good, encoded) => PollFields(w.state, now, broken, good, encoded);
    case JobFails => if w.job.Some? { AbandonedFields(w.state, w.job.value); }
    case JobStep(now) => if w.job.Some? { JobDirties(w, now); }
    case _ =>
  }

  lemma PoseDirties(s: State, stamp: int, inMap: bool, finite: bool)
    ensures OnPose(s, stamp, inMap, finite).dirty <==>
            s.dirty || (inMap && finite && s.accepting && s.forward && s.phase == Current)
  {
    hide Matched;
    MatchedFields(s, stamp);
  }

  lemma JobDirties(w: World, now: real)
    requires w.job.Some?
    ensures Advanced(w, now).state.dirty <==> w.state.dirty && !WorkSettled(w, JobStep(now))
  {
    hide RestoringOn, StoringOn, LaunchingOn, QuittingOn, FilmingOn;
    match w.job.value
    case Restoring(stopped, deserialized) => RestoringDirties(w, stopped, deserialized, now);
    case Storing(finish, stopped, frozen) => StoringDirties(w, finish, stopped, frozen);
    case Launching(mode, cleared) => LaunchingDirties(w, mode, cleared);
    case Quitting(begun) => QuittingDirties(w, begun);
    case Filming => FilmingDirties(w);
  }

  predicate SameInputs(s: State, t: State) {
    t.haveMap == s.haveMap && t.havePose == s.havePose
  }

  lemma ThrownDirties(w: World)
    requires w.job.Some?
    ensures Thrown(w).state.dirty == w.state.dirty && Thrown(w).state.saved == w.state.saved
    ensures SameInputs(w.state, Thrown(w).state)
  {
    hide Abandoned;
    AbandonedFields(w.state, w.job.value);
  }

  lemma RestoringDirties(w: World, stopped: bool, deserialized: bool, now: real)
    requires w.job == Some(Restoring(stopped, deserialized))
    ensures var t := RestoringOn(w, stopped, deserialized, now).state; t.dirty == w.state.dirty && t.saved == w.state.saved
    ensures SameInputs(w.state, RestoringOn(w, stopped, deserialized, now).state)
  {
    hide Thrown;
    ThrownDirties(w);
  }

  lemma StoringDirties(w: World, finish: bool, stopped: bool, frozen: bool)
    requires w.job == Some(Storing(finish, stopped, frozen))
    ensures var t, stored := StoringOn(w, finish, stopped, frozen).state, stopped && frozen && w.state.phase == Saving;
            t.dirty == (w.state.dirty && !stored) && t.saved == (w.state.saved || stored) && SameInputs(w.state, t)
  {
    hide Thrown;
    ThrownDirties(w);
  }

  lemma LaunchingDirties(w: World, mode: Mode, cleared: bool)
    ensures var t := LaunchingOn(w, mode, cleared).state;
            && t.dirty == (w.state.dirty && cleared) && t.saved == (w.state.saved && cleared)
            && t.haveMap == (w.state.haveMap && cleared) && t.havePose == (w.state.havePose && cleared)
  {}

  lemma QuittingDirties(w: World, begun: bool)
    ensures var t := QuittingOn(w, begun).state; t.dirty == (w.state.dirty && !begun) && t.saved == w.state.saved
    ensures var t := QuittingOn(w, begun).state;
            t.haveMap == (w.state.haveMap && !begun) && t.havePose == (w.state.havePose && !begun)
  {}

  lemma FilmingDirties(w: World)
    ensures var t := FilmingOn(w).state; t.dirty == w.state.dirty && t.saved == w.state.saved && SameInputs(w.state, t)
  {}

  lemma {:induction false} DirtyMeans(managed: bool, resume: bool, events: seq<Event>)
    ensures Run(managed, resume, events).state.dirty <==> Unsaved(managed, resume, events)
    decreases |events|
  {
    hide Step, WorkSettled;
    if events != [] {
      DirtyMeans(managed, resume, Before(events));
      DirtyStep(Run(managed, resume, Before(events)), events[|events| - 1]);
    }
  }

  /** In every run, while there is unsaved work a launch or an end is queued only with the operator's consent to lose it. */
  lemma UnsavedWorkIsGuarded(managed: bool, resume: bool, events: seq<Event>, e: Event)
    requires Unsaved(managed, resume, events)
    requires var w := Run(managed, resume, events);
             w.state.task != AtRest && Step(w, e).queued != w.queued && Step(w, e).queued.Some? &&
             (Step(w, e).queued.value.Launching? || Step(w, e).queued.value.Quitting?)
    ensures (e.Restart? && e.acknowledged) || (e.End? && e.discard)
  {
    hide Run, Thrown, Advanced, OnPose, OnPoll;
    DirtyMeans(managed, resume, events);
    var w := Run(managed, resume, events);
    if e.JobStep? && w.job.Some? {
      JobsQueueNothing(w, e.now);
    }
    if e.JobFails? && w.job.Some? {
      ThrowingQueuesNothing(w);
    }
  }

  lemma JobsQueueNothing(w: World, now: real)
    requires w.job.Some?
    ensures Advanced(w, now).queued == w.queued
  {}

  lemma ThrowingQueuesNothing(w: World)
    requires w.job.Some?
    ensures Thrown(w).queued == w.queued
  {}

  // ---------------------------------------------------------------- requests and their jobs

  /** Nothing runs and nothing is queued. */
  predicate Resting(w: World) {
    w.job.None? && w.queued.None?
  }

  /**
   A job is queued only for the operator, with nothing else queued and nothing else going on - a task that is starting
   may be ended all the same - and only where it makes sense: saving a current map, restoring in a resumed session,
   launching with no task, video in a running one. The gateway is busy from then on.
   */
  lemma RequestsNeed(w: World, e: Event)
    requires Step(w, e).queued != w.queued && Step(w, e).queued.Some?
    ensures Step(w, e).state.busy
    ensures w.queued.None? && (!w.state.busy || (e.End? && w.state.task == Starting)) && match e
      case Save(authorized, finish) => authorized && w.state.phase == Current && w.state.haveMap && (finish ==> w.state.managed)
      case RestoreAt(authorized, hintOk, _) => authorized && hintOk && w.state.mode == Resume
      case Start(authorized, mode, allowed) => authorized && allowed && w.state.managed && w.state.task == AtRest && mode != Standby
      case Restart(authorized, _, allowed) => authorized && allowed && w.state.managed && w.state.task != AtRest
      case End(authorized, _) => authorized && w.state.managed
      case Video(authorized, hardware) => authorized && hardware && w.state.managed && w.state.task == Running
      case _ => false
  {
    hide Thrown, Advanced, OnPose, OnPoll;
    if e.JobStep? && w.job.Some? {
      JobsQueueNothing(w, e.now);
    }
    if e.JobFails? && w.job.Some? {
      ThrowingQueuesNothing(w);
    }
  }

  /** Turning video on or off, or failing to, leaves the session as it is. */
  lemma VideoChangesNothing(w: World, now: real)
    requires w.job == Some(Filming)
    ensures Step(w, JobStep(now)) == Step(w, JobFails) == w.(state := w.state.(busy := false), job := None)
  {}

  lemma FourSteps(managed: bool, resume: bool, events: seq<Event>, a: Event, b: Event, c: Event, d: Event)
    ensures Run(managed, resume, events + [a, b, c, d]) == Step(Step(Step(Step(Run(managed, resume, events), a), b), c), d)
  {
    hide Run, Step;
    RunExtends(managed, resume, events, a);
    RunExtends(managed, resume, events + [a], b);
    RunExtends(managed, resume, events + [a] + [b], c);
    RunExtends(managed, resume, events + [a] + [b] + [c], d);
    assert events + [a] + [b] + [c] + [d] == events + [a, b, c, d];
  }

  /** A save whose job goes through leaves the session current and relaying, with nothing unsaved. */
  lemma SavingKeepsTheSession(managed: bool, resume: bool, events: seq<Event>, now: real)
    requires var w := Run(managed, resume, events);
             Resting(w) && w.state.phase == Current && w.state.haveMap && !w.state.busy
    ensures var w := Run(managed, resume, events);
            var after := Run(managed, resume, events + [Save(true, false), JobBegins, JobStep(now), JobStep(now)] + [JobStep(now)]);
            after.state == w.state.(forward := true, dirty := false, saved := true) && Resting(after)
  {
    hide Run;
    var w := Run(managed, resume, events);
    var first := [Save(true, false), JobBegins, JobStep(now), JobStep(now)];
    FourSteps(managed, resume, events, Save(true, false), JobBegins, JobStep(now), JobStep(now));
    RunExtends(managed, resume, events + first, JobStep(now));
    var queued := Step(w, Save(true, false));
    var begun := Step(queued, JobBegins);
    var stopped := Step(begun, JobStep(now));
    var frozen := Step(stopped, JobStep(now));
    assert frozen.job == Some(Storing(false, true, true)) && frozen.state.phase == Saving;
  }

  /** A task can be brought up: launched, it becomes current with its first map and pose, and then runs. */
  lemma TaskComesUp(managed: bool, resume: bool, events: seq<Event>, stamp: int, now: real)
    requires var w := Run(managed, resume, events);
             Resting(w) && w.state.managed && w.state.task == AtRest && !w.state.busy
    ensures var after := Run(managed, resume, events + [Start(true, New, true), JobBegins, JobStep(now), JobStep(now)] +
                                              [Map, Pose(stamp, true, true), Poll(now, false, true, true), Poll(now, false, true, true)]);
            && after.state.phase == Current && after.state.task == Running && !after.state.busy && after.state.mode == New
            && Relays(after.state) && Resting(after)
  {
    hide Run;
    var w := Run(managed, resume, events);
    var first := [Start(true, New, true), JobBegins, JobStep(now), JobStep(now)];
    var poll := Poll(now, false, true, true);
    FourSteps(managed, resume, events, Start(true, New, true), JobBegins, JobStep(now), JobStep(now));
    FourSteps(managed, resume, events + first, Map, Pose(stamp, true, true), poll, poll);
    var launched := Step(Step(Step(Step(w, first[0]), first[1]), first[2]), first[3]);
    Launched(w, now);
    var posed := Step(Step(launched, Map), Pose(stamp, true, true));
    FirstPose(launched, stamp);
    assert Step(posed, poll).state == posed.state.(phase := Current);
  }

  lemma Launched(w: World, now: real)
    requires Resting(w) && w.state.managed && w.state.task == AtRest && !w.state.busy
    ensures var l := Step(Step(Step(Step(w, Start(true, New, true)), JobBegins), JobStep(now)), JobStep(now));
            && Resting(l) && l.state.managed && l.state.task == Starting && l.state.phase == Waiting && l.state.mode == New
            && l.state.accepting && l.state.forward && !l.state.oneScan && l.state.busy
  {
    var asked := Step(w, Start(true, New, true));
    assert asked.queued == Some(Launching(New, false));
  }

  lemma FirstPose(l: World, stamp: int)
    requires Resting(l) && l.state.accepting && l.state.phase == Waiting
    ensures Step(Step(l, Map), Pose(stamp, true, true)) == l.(state := l.state.(haveMap := true, havePose := true))
  {
    hide Matched;
    MatchedFields(l.state.(haveMap := true), stamp);
  }

  /** A task can be ended, also while it is starting: everything is at rest again. */
  lemma EndingBringsRest(managed: bool, resume: bool, events: seq<Event>, now: real)
    requires var w := Run(managed, resume, events);
             Resting(w) && w.state.managed && (!w.state.busy || w.state.task == Starting)
    ensures var after := Run(managed, resume, events + [End(true, true), JobBegins, JobStep(now), JobStep(now)]);
            && after.state.phase == StandingBy && after.state.task == AtRest && after.state.mode == Standby
            && !after.state.busy && !after.state.dirty && !Relays(after.state) && !after.state.accepting && Resting(after)
  {
    hide Run;
    var w := Run(managed, resume, events);
    FourSteps(managed, resume, events, End(true, true), JobBegins, JobStep(now), JobStep(now));
    var asked := Step(w, End(true, true));
    assert asked.queued == Some(Quitting(false)) && asked.job.None?;
  }

  /** The map was saved since the task was launched. */
  predicate SavedSince(managed: bool, resume: bool, events: seq<Event>)
    decreases |events|
  {
    events != [] &&
    var w, e := Run(managed, resume, Before(events)), events[|events| - 1];
    if e.JobStep? && w.job.Some? && w.job.value.Launching? && !w.job.value.cleared then false
    else
      SavedSince(managed, resume, Before(events)) ||
      (e.JobStep? && w.job.Some? && w.job.value.Storing? && w.job.value.stopped && w.job.value.frozen && w.state.phase == Saving)
  }

  lemma SavedStep(w: World, e: Event)
    ensures Step(w, e).state.saved <==>
            if e.JobStep? && w.job.Some? && w.job.value.Launching? && !w.job.value.cleared then false
            else w.state.saved ||
                 (e.JobStep? && w.job.Some? && w.job.value.Storing? && w.job.value.stopped && w.job.value.frozen && w.state.phase == Saving)
  {
    hide Abandoned, OnPose, OnPoll, Advanced;
    match e
    case Pose(stamp, inMap, finite) => PoseFields(w.state, stamp, inMap, finite);
    case Poll(now, broken, good, encoded) => PollFields(w.state, now, broken, good, encoded);
    case JobFails => if w.job.Some? { AbandonedFields(w.state, w.job.value); }
    case JobStep(now) => if w.job.Some? { JobSaves(w, now); }
    case _ =>
  }

  lemma JobSaves(w: World, now: real)
    requires w.job.Some?
    ensures Advanced(w, now).state.saved <==>
            if w.job.value.Launching? && !w.job.value.cleared then false
            else w.state.saved || (w.job.value.Storing? && w.job.value.stopped && w.job.value.frozen && w.state.phase == Saving)
  {
    hide RestoringOn, StoringOn, LaunchingOn, QuittingOn, FilmingOn;
    match w.job.value
    case Restoring(stopped, deserialized) => RestoringDirties(w, stopped, deserialized, now);
    case Storing(finish, stopped, frozen) => StoringDirties(w, finish, stopped, frozen);
    case Launching(mode, cleared) => LaunchingDirties(w, mode, cleared);
    case Quitting(begun) => QuittingDirties(w, begun);
    case Filming => FilmingDirties(w);
  }

  lemma {:induction false} SavedMeans(managed: bool, resume: bool, events: seq<Event>)
    ensures Run(managed, resume, events).state.saved <==> SavedSince(managed, resume, events)
    decreases |events|
  {
    hide Step;
    if events != [] {
      SavedMeans(managed, resume, Before(events));
      SavedStep(Run(managed, resume, Before(events)), events[|events| - 1]);
    }
  }

  /** In every run a restart goes back to the map saved since the launch, if there is one, and else to the same mode. */
  lemma RestartGoesBack(managed: bool, resume: bool, events: seq<Event>, e: Event)
    requires var w := Run(managed, resume, events); e.Restart? && Step(w, e).queued != w.queued
    ensures var w := Run(managed, resume, events);
            Step(w, e).queued == Some(Launching(if SavedSince(managed, resume, events) then Resume else w.state.mode, false))
  {
    hide Run;
    SavedMeans(managed, resume, events);
  }

  /** In every run no scan is relayed while the map is being loaded, matched or saved, but for the one on trial. */
  lemma NothingIsForwardedMeanwhile(managed: bool, resume: bool, events: seq<Event>)
    ensures var s := Run(managed, resume, events).state;
            && (s.phase == Loading || s.phase == Trial || s.phase == Candidate || s.phase == Saving ==> !s.forward)
            && (Relays(s) && s.phase != Trial ==> s.forward && s.phase != Loading && s.phase != Candidate && s.phase != Saving)
  {
    hide Run, Invariant;
    RunKeeps(managed, resume, events);
    RunRestoreKept(managed, resume, events);
    TrialOfInvariant(Run(managed, resume, events));
  }

  /** A save that is to finish the task stores the map and then brings everything to rest. */
  lemma FinishingEndsTheTask(managed: bool, resume: bool, events: seq<Event>, now: real)
    requires var w := Run(managed, resume, events);
             Resting(w) && w.state.managed && w.state.phase == Current && w.state.haveMap && !w.state.busy
    ensures var after := Run(managed, resume, events + [Save(true, true), JobBegins, JobStep(now), JobStep(now)] +
                                              [JobStep(now), JobStep(now)] + [JobStep(now)]);
            && after.state.phase == StandingBy && after.state.task == AtRest && !after.state.busy && !after.state.dirty
            && after.state.saved && !Relays(after.state) && Resting(after)
  {
    hide Run;
    var w := Run(managed, resume, events);
    var first := [Save(true, true), JobBegins, JobStep(now), JobStep(now)];
    FourSteps(managed, resume, events, Save(true, true), JobBegins, JobStep(now), JobStep(now));
    RunExtends(managed, resume, events + first, JobStep(now));
    RunExtends(managed, resume, events + first + [JobStep(now)], JobStep(now));
    assert events + first + [JobStep(now)] + [JobStep(now)] == events + first + [JobStep(now), JobStep(now)];
    RunExtends(managed, resume, events + first + [JobStep(now), JobStep(now)], JobStep(now));
    StoredForGood(w, now);
  }

  lemma StoredForGood(w: World, now: real)
    requires Resting(w) && w.state.managed && w.state.phase == Current && w.state.haveMap && !w.state.busy
    ensures var x := Step(Step(Step(Step(Step(w, Save(true, true)), JobBegins), JobStep(now)), JobStep(now)), JobStep(now));
            x.job == Some(Quitting(false)) && x.queued.None? && x.state.saved
  {
    var queued := Step(w, Save(true, true));
    var frozen := Step(Step(Step(queued, JobBegins), JobStep(now)), JobStep(now));
    assert frozen.job == Some(Storing(true, true, true)) && frozen.state.phase == Saving;
  }

  /** A resumed task can be brought up too: it runs with its map for reference, ready to restore, and relays nothing. */
  lemma ResumedTaskComesUp(managed: bool, resume: bool, events: seq<Event>, now: real)
    requires var w := Run(managed, resume, events);
             Resting(w) && w.state.managed && w.state.task == AtRest && !w.state.busy
    ensures var after := Run(managed, resume, events + [Start(true, Resume, true), JobBegins, JobStep(now), JobStep(now)] +
                                              [Poll(now, false, true, true)]);
            && after.state.phase == Reference && after.state.task == Running && !after.state.busy && after.state.mode == Resume
            && after.state.accepting && !Relays(after.state) && Resting(after)
  {
    hide Run;
    var w := Run(managed, resume, events);
    var first := [Start(true, Resume, true), JobBegins, JobStep(now), JobStep(now)];
    FourSteps(managed, resume, events, Start(true, Resume, true), JobBegins, JobStep(now), JobStep(now));
    RunExtends(managed, resume, events + first, Poll(now, false, true, true));
    var asked := Step(w, first[0]);
    assert asked.queued == Some(Launching(Resume, false));
    var launched := Step(Step(Step(asked, JobBegins), JobStep(now)), JobStep(now));
    assert launched.state.phase == Reference && launched.state.task == Starting && launched.state.mode == Resume;
  }

  // ---------------------------------------------------------------- what a session has received

  /** A launch begins or a task's end completes, and what was received is forgotten. */
  predicate Clears(w: World, e: Event) {
    e.JobStep? && w.job.Some? && ((w.job.value.Launching? && !w.job.value.cleared) || w.job.value == Quitting(true))
  }

  /** A map came in since then, while data was accepted. */
  predicate MapSince(managed: bool, resume: bool, events: seq<Event>)
    decreases |events|
  {
    events != [] &&
    var w, e := Run(managed, resume, Before(events)), events[|events| - 1];
    !Clears(w, e) && (MapSince(managed, resume, Before(events)) || (e.Map? && w.state.accepting))
  }

  /** A valid pose came in since then, while the session waited for it. */
  predicate PoseSince(managed: bool, resume: bool, events: seq<Event>)
    decreases |events|
  {
    events != [] &&
    var w, e := Run(managed, resume, Before(events)), events[|events| - 1];
    !Clears(w, e) &&
    (PoseSince(managed, resume, Before(events)) ||
     (e.Pose? && e.inMap && e.finite && w.state.accepting && w.state.phase == Waiting))
  }

  lemma InputStep(w: World, e: Event)
    ensures Step(w, e).state.haveMap <==> !Clears(w, e) && (w.state.haveMap || (e.Map? && w.state.accepting))
    ensures Step(w, e).state.havePose <==>
            !Clears(w, e) && (w.state.havePose || (e.Pose? && e.inMap && e.finite && w.state.accepting && w.state.phase == Waiting))
  {
    hide Abandoned, OnPose, OnPoll, Advanced;
    match e
    case Pose(stamp, inMap, finite) =>
      PoseFields(w.state, stamp, inMap, finite);
      PoseIsNoted(w.state, stamp, inMap, finite);
    case Poll(now, broken, good, encoded) => PollFields(w.state, now, broken, good, encoded);
    case JobFails => if w.job.Some? { AbandonedFields(w.state, w.job.value); }
    case JobStep(now) => if w.job.Some? { JobInputs(w, now); }
    case _ =>
  }

  lemma PoseIsNoted(s: State, stamp: int, inMap: bool, finite: bool)
    ensures OnPose(s, stamp, inMap, finite).havePose <==>
            s.havePose || (inMap && finite && s.accepting && s.phase == Waiting)
  {
    hide Matched;
    MatchedFields(s, stamp);
  }

  lemma JobInputs(w: World, now: real)
    requires w.job.Some?
    ensures var t := Advanced(w, now).state;
            && (t.haveMap <==> w.state.haveMap && !Clears(w, JobStep(now)))
            && (t.havePose <==> w.state.havePose && !Clears(w, JobStep(now)))
  {
    hide RestoringOn, StoringOn, LaunchingOn, QuittingOn, FilmingOn;
    match w.job.value
    case Restoring(stopped, deserialized) => RestoringDirties(w, stopped, deserialized, now);
    case Storing(finish, stopped, frozen) => StoringDirties(w, finish, stopped, frozen);
    case Launching(mode, cleared) => LaunchingDirties(w, mode, cleared);
    case Quitting(begun) => QuittingDirties(w, begun);
    case Filming => FilmingDirties(w);
  }

  /** In every run the session has a map, and a pose, exactly when one came in since its inputs were last cleared. */
  lemma {:induction false} InputsMean(managed: bool, resume: bool, events: seq<Event>)
    ensures var s := Run(managed, resume, events).state;
            (s.haveMap <==> MapSince(managed, resume, events)) && (s.havePose <==> PoseSince(managed, resume, events))
    decreases |events|
  {
    hide Step, Clears;
    if events != [] {
      InputsMean(managed, resume, Before(events));
      InputStep(Run(managed, resume, Before(events)), events[|events| - 1]);
    }
  }
}
