/**
 The mapping console's restore handshake: a saved map is loaded, one scan is matched against it on
 trial, and only the operator's confirmation lets scans through to SLAM.

 Every event is one critical section of the gateway's mutex: a subscription callback, the status timer,
 an HTTP handler up to where it waits for the running job, or one step of the job thread. HTTP requests
 are served one at a time.
 */
module MapRestore {
  datatype Option<T> = None | Some(value: T)

  datatype Mode = New | Resume | Standby

  datatype Phase = StandingBy | Waiting | Reference | Loading | Trial | Candidate | Current | Saving | Stopping | Failed

  datatype TaskState = AtRest | Starting | Running | Closing | Faulted

  /** A job and how far it has come. */
  datatype Job =
    | Restoring(stopped: bool, deserialized: bool)
    | Storing(finish: bool, stopped: bool, frozen: bool)
    | Launching(mode: Mode, cleared: bool)
    | Quitting(begun: bool)
    | Filming

  const TRIAL_SECONDS: real := 6.0

  datatype State = State(
    managed: bool, mode: Mode, phase: Phase, task: TaskState,
    accepting: bool, forward: bool, oneScan: bool, expected: int, restoreStamp: int, trialAt: real,
    busy: bool, havePose: bool, haveMap: bool, dirty: bool, saved: bool)

  /**
   What has happened since the task was launched: scans relayed before the operator confirmed,
   deserializations completed, the confirmation, and the stamps of the scans relayed in the current trial.
   */
  datatype Record = Record(relayed: nat, deserialized: nat, confirmed: bool, trial: seq<int>)

  datatype World = World(state: State, job: Option<Job>, queued: Option<Job>, record: Record)

  datatype Event =
    | Scan(stamp: int)
    | Map
    | Pose(stamp: int, inMap: bool, finite: bool)
    | SlamError(stamp: int)
    | Poll(now: real, broken: bool, good: bool, encoded: bool)
    | Confirm(authorized: bool)
    | Save(authorized: bool, finish: bool)
    | RestoreAt(authorized: bool, hintOk: bool, stamp: int)
    | Start(authorized: bool, mode: Mode, allowed: bool)
    | Restart(authorized: bool, acknowledged: bool, allowed: bool)
    | End(authorized: bool, discard: bool)
    | Video(authorized: bool, hardware: bool)
    | JobBegins
    | JobStep(now: real)
    | JobFails

  // ---------------------------------------------------------------- callbacks

  function Relayed(r: Record): Record {
    if r.confirmed then r else r.(relayed := r.relayed + 1)
  }

  /** A fresh scan: the one trial scan, or any scan while forwarding. */
  function OnScan(w: World, stamp: int): World {
    var s := w.state;
    if !s.accepting then w
    else if s.oneScan then
      w.(state := s.(expected := stamp, oneScan := false),
         record := Relayed(w.record).(trial := w.record.trial + [stamp]))
    else if s.forward then w.(record := Relayed(w.record))
    else w
  }

  /** On trial, the pose that carries the trial scan's stamp is the candidate. */
  function Matched(s: State, stamp: int): State {
    if s.phase == Trial && s.expected != 0 && stamp == s.expected then s.(phase := Candidate, expected := 0) else s
  }

  function PoseNoted(s: State): State {
    if s.phase == Waiting then s.(havePose := true)
    else if s.phase == Current && s.forward then s.(dirty := true)
    else s
  }

  function OnPose(s: State, stamp: int, inMap: bool, finite: bool): State {
    if !s.accepting || !inMap then s
    else if !finite then s.(phase := Failed, forward := false, oneScan := false, expected := 0)
    else PoseNoted(Matched(s, stamp))
  }

  function OnSlamError(s: State, stamp: int): State {
    if (s.phase == Loading || s.phase == Trial || s.phase == Candidate) && stamp >= s.restoreStamp then
      s.(phase := Failed, forward := false, oneScan := false)
    else s
  }

  /** A managed task is watched: it may fault, or turn out to be running. */
  function Watched(s: State, broken: bool, good: bool): State {
    if !s.managed || (s.task != Starting && s.task != Running) then s
    else if broken then
      s.(task := Faulted, phase := Failed, accepting := false, forward := false, oneScan := false, busy := false)
    else if s.task == Starting && good && (s.phase == Current || s.phase == Reference) then s.(task := Running, busy := false)
    else s
  }

  function MapSeen(s: State, encoded: bool): State {
    if s.phase == Waiting && s.havePose && s.haveMap && encoded then s.(phase := Current) else s
  }

  function TrialTimed(s: State, now: real): State {
    if s.phase == Trial && now - s.trialAt > TRIAL_SECONDS then s.(phase := Failed, oneScan := false) else s
  }

  function OnPoll(s: State, now: real, broken: bool, good: bool, encoded: bool): State {
    TrialTimed(MapSeen(Watched(s, broken, good), encoded), now)
  }

  // ---------------------------------------------------------------- requests

  function OnConfirm(w: World, authorized: bool): World {
    var s := w.state;
    if !authorized || s.busy || s.phase != Candidate then w
    else w.(state := s.(phase := Current, forward := true), record := w.record.(confirmed := true))
  }

  function OnSave(w: World, authorized: bool, finish: bool): World {
    var s := w.state;
    if !authorized || s.busy || (finish && !s.managed) || s.phase != Current || !s.haveMap then w
    else w.(state := s.(phase := Saving, forward := false, busy := true), queued := Some(Storing(finish, false, false)))
  }

  function OnRestore(w: World, authorized: bool, hintOk: bool, stamp: int): World {
    var s := w.state;
    if !authorized || s.busy || s.mode != Resume || (s.phase != Reference && s.phase != Candidate) || !hintOk then w
    else w.(state := s.(phase := Loading, forward := false, oneScan := false, expected := 0, busy := true, restoreStamp := stamp),
            queued := Some(Restoring(false, false)))
  }

  function OnStart(w: World, authorized: bool, mode: Mode, allowed: bool): World {
    var s := w.state;
    if !s.managed || !authorized || s.busy || s.task != AtRest || mode == Standby || !allowed then w
    else w.(state := s.(busy := true, task := Starting), queued := Some(Launching(mode, false)))
  }

  function OnRestart(w: World, authorized: bool, acknowledged: bool, allowed: bool): World {
    var s := w.state;
    if !s.managed || !authorized || s.busy || s.task == AtRest || (s.dirty && !acknowledged) || !allowed then w
    else w.(state := s.(busy := true, task := Closing, accepting := false, forward := false, oneScan := false),
            queued := Some(Launching(if s.saved then Resume else s.mode, false)))
  }

  function OnEnd(w: World, authorized: bool, discard: bool): World {
    var s := w.state;
    if !s.managed || !authorized || (s.busy && s.task != Starting) || (s.dirty && !discard) then w
    else w.(state := s.(busy := true, task := Closing, accepting := false, forward := false, oneScan := false),
            queued := Some(Quitting(false)))
  }

  function OnVideo(w: World, authorized: bool, hardware: bool): World {
    var s := w.state;
    if !s.managed || !authorized || s.busy || s.task != Running || !hardware then w
    else w.(state := s.(busy := true), queued := Some(Filming))
  }

  // ---------------------------------------------------------------- the job thread

  function Cleared(s: State): State {
    s.(accepting := false, forward := false, oneScan := false, havePose := false, expected := 0, haveMap := false)
  }

  /** What the handler of a thrown job leaves. */
  function Abandoned(s: State, job: Job): State {
    match job
    case Restoring(_, _) => s.(phase := Failed, forward := false, oneScan := false, busy := false)
    case Storing(_, _, _) =>
      if s.phase == Saving then s.(phase := Current, forward := false, busy := false)
      else s.(phase := Failed, forward := false, oneScan := false, busy := false)
    case Launching(_, _) => s.(task := Faulted, phase := Failed, accepting := false, forward := false, busy := false)
    case Quitting(_) => s.(task := Faulted, phase := Failed, accepting := false, forward := false, busy := false)
    case Filming => s.(busy := false)
  }

  /** A job throws. The first section of quitting only takes the mutex and sets fields. */
  function Thrown(w: World): World
    requires w.job.Some?
  {
    if w.job.value == Quitting(false) then w
    else w.(state := Abandoned(w.state, w.job.value), job := None)
  }

  function RestoringOn(w: World, stopped: bool, deserialized: bool, now: real): World
    requires w.job.Some?
  {
    if !stopped then w.(job := Some(Restoring(true, false)))
    else if !deserialized then
      w.(job := Some(Restoring(true, true)), record := w.record.(deserialized := w.record.deserialized + 1))
    else if w.state.phase != Loading then Thrown(w)
    else w.(state := w.state.(phase := Trial, busy := false, oneScan := true, trialAt := now), job := None,
            record := w.record.(trial := []))
  }

  function StoringOn(w: World, finish: bool, stopped: bool, frozen: bool): World
    requires w.job.Some?
  {
    if !stopped then w.(job := Some(Storing(finish, true, false)))
    else if w.state.phase != Saving then Thrown(w)
    else if !frozen then w.(job := Some(Storing(finish, true, true)))
    else w.(state := w.state.(phase := if finish then Stopping else Current, forward := !finish, busy := finish,
                              task := if finish then Closing else w.state.task, dirty := false, saved := true),
            job := if finish then Some(Quitting(false)) else None)
  }

  function LaunchingOn(w: World, mode: Mode, cleared: bool): World {
    if cleared then w.(state := w.state.(accepting := true, forward := mode == New), job := None)
    else w.(state := Cleared(w.state).(mode := mode, phase := if mode == Resume then Reference else Waiting,
                                       task := Starting, dirty := false, saved := false),
            job := Some(Launching(mode, true)), record := Record(0, 0, false, []))
  }

  function QuittingOn(w: World, begun: bool): World {
    if begun then
      w.(state := Cleared(w.state).(phase := StandingBy, task := AtRest, mode := Standby, busy := false, dirty := false),
         job := None)
    else w.(state := w.state.(accepting := false, forward := false, oneScan := false, task := Closing, phase := Stopping),
            job := Some(Quitting(true)))
  }

  function FilmingOn(w: World): World {
    w.(state := w.state.(busy := false), job := None)
  }

  function Advanced(w: World, now: real): World
    requires w.job.Some?
  {
    match w.job.value
    case Restoring(stopped, deserialized) => RestoringOn(w, stopped, deserialized, now)
    case Storing(finish, stopped, frozen) => StoringOn(w, finish, stopped, frozen)
    case Launching(mode, cleared) => LaunchingOn(w, mode, cleared)
    case Quitting(begun) => QuittingOn(w, begun)
    case Filming => FilmingOn(w)
  }

  /** A request waits for the running job; callbacks and the job itself go on meanwhile. */
  function Step(w: World, e: Event): World {
    match e
    case Scan(stamp) => OnScan(w, stamp)
    case Map => if w.state.accepting then w.(state := w.state.(haveMap := true)) else w
    case Pose(stamp, inMap, finite) => w.(state := OnPose(w.state, stamp, inMap, finite))
    case SlamError(stamp) => w.(state := OnSlamError(w.state, stamp))
    case Poll(now, broken, good, encoded) => w.(state := OnPoll(w.state, now, broken, good, encoded))
    case Confirm(authorized) => if w.queued.Some? then w else OnConfirm(w, authorized)
    case Save(authorized, finish) => if w.queued.Some? then w else OnSave(w, authorized, finish)
    case RestoreAt(authorized, hintOk, stamp) => if w.queued.Some? then w else OnRestore(w, authorized, hintOk, stamp)
    case Start(authorized, mode, allowed) => if w.queued.Some? then w else OnStart(w, authorized, mode, allowed)
    case Restart(authorized, acknowledged, allowed) =>
      if w.queued.Some? then w else OnRestart(w, authorized, acknowledged, allowed)
    case End(authorized, discard) => if w.queued.Some? then w else OnEnd(w, authorized, discard)
    case Video(authorized, hardware) => if w.queued.Some? then w else OnVideo(w, authorized, hardware)
    case JobBegins => if w.job.None? && w.queued.Some? then w.(job := w.queued, queued := None) else w
    case JobStep(now) => if w.job.Some? then Advanced(w, now) else w
    case JobFails => if w.job.Some? then Thrown(w) else w
  }

  /** The three ways the program is started. */
  function Boot(managed: bool, resume: bool): World {
    var mode := if managed then Standby else if resume then Resume else New;
    var phase := match mode case New => Waiting case Resume => Reference case Standby => StandingBy;
    World(State(managed, mode, phase, AtRest, !managed, mode == New, false, 0, 0, 0.0, false, false, false, false, false),
          None, None, Record(0, 0, false, []))
  }

  function Run(managed: bool, resume: bool, events: seq<Event>): World {
    if events == [] then Boot(managed, resume)
    else Step(Run(managed, resume, events[..|events| - 1]), events[|events| - 1])
  }

  // ---------------------------------------------------------------- what every run keeps

  function One(b: bool): nat {
    if b then 1 else 0
  }

  /** A deserialization that has completed but whose trial has not begun. */
  predicate Owed(w: World) {
    w.job.Some? && w.job.value.Restoring? && w.job.value.deserialized
  }

  /** Jobs are queued at their beginning, and a launched task runs in the mode it was launched for. */
  predicate JobsKept(w: World) {
    && (w.queued.Some? ==>
          && !(w.queued.value.Restoring? && w.queued.value.deserialized)
          && !(w.queued.value.Launching? && w.queued.value.cleared) && w.queued.value != Quitting(true))
    && (w.job.Some? && w.job.value.Launching? && w.job.value.cleared ==> w.state.mode == w.job.value.mode)
  }

  /**
   While data is accepted a trial scan is awaited only in the trial phase, a match is expected only for the scan
   of this trial, and a task that was launched begins without one.
   */
  predicate TrialKept(w: World) {
    && (w.state.oneScan && w.state.accepting ==> w.state.phase == Trial && w.record.trial == [] && w.state.expected == 0)
    && (w.state.phase == Trial && w.state.expected != 0 ==> w.record.trial == [w.state.expected])
    && (w.state.phase == Loading ==> w.state.expected == 0)
    && (w.job.Some? && w.job.value.Launching? && w.job.value.cleared ==> !w.state.oneScan)
  }

  /** Until the operator confirms a restored map nothing is forwarded, and each relay is paid for by a deserialization. */
  predicate HeldBack(w: World) {
    w.state.mode == Resume && !w.record.confirmed ==>
      && !w.state.forward
      && w.state.phase != Waiting && w.state.phase != Current && w.state.phase != Saving
      && w.record.relayed + One(w.state.oneScan) + One(Owed(w)) <= w.record.deserialized
  }

  predicate Invariant(w: World) {
    JobsKept(w) && TrialKept(w) && HeldBack(w)
  }

  lemma ScanKeeps(w: World, stamp: int)
    requires Invariant(w)
    ensures Invariant(OnScan(w, stamp))
  {}

  lemma PoseKeeps(w: World, stamp: int, inMap: bool, finite: bool)
    requires Invariant(w)
    ensures Invariant(w.(state := OnPose(w.state, stamp, inMap, finite)))
  {
    hide Matched, PoseNoted;
    MatchedKeeps(w, stamp);
    PoseNotedKeeps(w.(state := Matched(w.state, stamp)));
  }

  lemma MatchedKeeps(w: World, stamp: int)
    requires Invariant(w)
    ensures Invariant(w.(state := Matched(w.state, stamp)))
  {}

  lemma PoseNotedKeeps(w: World)
    requires Invariant(w)
    ensures Invariant(w.(state := PoseNoted(w.state)))
  {}

  lemma SlamErrorKeeps(w: World, stamp: int)
    requires Invariant(w)
    ensures Invariant(w.(state := OnSlamError(w.state, stamp)))
  {}

  lemma PollKeeps(w: World, now: real, broken: bool, good: bool, encoded: bool)
    requires Invariant(w)
    ensures Invariant(w.(state := OnPoll(w.state, now, broken, good, encoded)))
  {}

  lemma RequestKeeps(w: World, e: Event)
    requires Invariant(w) && (e.Confirm? || e.Save? || e.RestoreAt? || e.Start? || e.Restart? || e.End? || e.Video?)
    ensures Invariant(Step(w, e))
  {}

  /** Whatever job throws, it lets nothing new through. */
  lemma AbandonedFields(s: State, job: Job)
    ensures var t := Abandoned(s, job);
            && t == s.(task := t.task, phase := t.phase, accepting := t.accepting, forward := t.forward,
                       oneScan := t.oneScan, busy := false)
            && (t.oneScan ==> s.oneScan) && (t.accepting ==> s.accepting) && (t.forward ==> s.forward)
            && (t.phase == s.phase || (t.phase == Failed && !(t.oneScan && t.accepting)) ||
                (t.phase == Current && s.phase == Saving))
  {
    match job
    case Restoring(_, _) =>
    case Storing(_, _, _) =>
    case Launching(_, _) =>
    case Quitting(_) =>
    case Filming =>
  }

  lemma AbandonedKeeps(w: World)
    requires Invariant(w) && w.job.Some? && w.job.value != Quitting(false)
    ensures Invariant(w.(state := Abandoned(w.state, w.job.value), job := None))
  {
    hide Abandoned;
    AbandonedFields(w.state, w.job.value);
  }

  lemma ThrownKeeps(w: World)
    requires Invariant(w) && w.job.Some?
    ensures Invariant(Thrown(w))
  {
    hide Invariant, Abandoned;
    if w.job.value != Quitting(false) {
      AbandonedKeeps(w);
    }
  }

  lemma RestoringKeeps(w: World, now: real)
    requires Invariant(w) && w.job.Some? && w.job.value.Restoring?
    ensures Invariant(RestoringOn(w, w.job.value.stopped, w.job.value.deserialized, now))
  {
    hide Abandoned, Thrown;
    ThrownKeeps(w);
  }

  lemma StoringKeeps(w: World)
    requires Invariant(w) && w.job.Some? && w.job.value.Storing?
    ensures Invariant(StoringOn(w, w.job.value.finish, w.job.value.stopped, w.job.value.frozen))
  {
    hide Abandoned, Thrown;
    ThrownKeeps(w);
  }

  lemma LaunchingKeeps(w: World)
    requires Invariant(w) && w.job.Some? && w.job.value.Launching?
    ensures Invariant(LaunchingOn(w, w.job.value.mode, w.job.value.cleared))
  {}

  lemma QuittingKeeps(w: World)
    requires Invariant(w) && w.job.Some? && w.job.value.Quitting?
    ensures Invariant(QuittingOn(w, w.job.value.begun))
  {}

  lemma FilmingKeeps(w: World)
    requires Invariant(w) && w.job == Some(Filming)
    ensures Invariant(FilmingOn(w))
  {}

  lemma AdvancedKeeps(w: World, now: real)
    requires Invariant(w) && w.job.Some?
    ensures Invariant(Advanced(w, now))
  {
    hide Invariant, RestoringOn, StoringOn, LaunchingOn, QuittingOn, FilmingOn;
    match w.job.value
    case Restoring(_, _) => RestoringKeeps(w, now);
    case Storing(_, _, _) => StoringKeeps(w);
    case Launching(_, _) => LaunchingKeeps(w);
    case Quitting(_) => QuittingKeeps(w);
    case Filming => FilmingKeeps(w);
  }

  lemma MapAndBeginKeep(w: World)
    requires Invariant(w)
    ensures Invariant(w.(state := w.state.(haveMap := true)))
    ensures w.job.None? && w.queued.Some? ==> Invariant(w.(job := w.queued, queued := None))
  {}

  lemma StepKeeps(w: World, e: Event)
    requires Invariant(w)
    ensures Invariant(Step(w, e))
  {
    hide Invariant, OnScan, OnPose, OnSlamError, OnPoll, Advanced, Thrown;
    hide OnConfirm, OnSave, OnRestore, OnStart, OnRestart, OnEnd, OnVideo;
    match e
    case Scan(stamp) => ScanKeeps(w, stamp);
    case Map => MapAndBeginKeep(w);
    case Pose(stamp, inMap, finite) => PoseKeeps(w, stamp, inMap, finite);
    case SlamError(stamp) => SlamErrorKeeps(w, stamp);
    case Poll(now, broken, good, encoded) => PollKeeps(w, now, broken, good, encoded);
    case JobBegins => MapAndBeginKeep(w);
    case JobStep(now) => if w.job.Some? { AdvancedKeeps(w, now); }
    case JobFails => if w.job.Some? { ThrownKeeps(w); }
    case _ => RequestKeeps(w, e);
  }

  lemma {:induction false} RunKeeps(managed: bool, resume: bool, events: seq<Event>)
    ensures Invariant(Run(managed, resume, events))
    decreases |events|
  {
    hide Invariant, Step;
    if events == [] {
      BootKeeps(managed, resume);
    } else {
      RunKeeps(managed, resume, events[..|events| - 1]);
      StepKeeps(Run(managed, resume, events[..|events| - 1]), events[|events| - 1]);
    }
  }

  lemma BootKeeps(managed: bool, resume: bool)
    ensures Invariant(Boot(managed, resume))
  {}

  // ---------------------------------------------------------------- what a reader gets from it

  /**
   In every interleaving, until the operator confirms a restored map, the scans relayed to SLAM since the
   task was launched number at most the completed deserializations.
   */
  lemma RelaysAreTrials(managed: bool, resume: bool, events: seq<Event>)
    requires var w := Run(managed, resume, events); w.state.mode == Resume && !w.record.confirmed
    ensures var w := Run(managed, resume, events);
            w.record.relayed <= w.record.deserialized && !w.state.forward && w.state.phase != Current
  {
    hide Run;
    RunKeeps(managed, resume, events);
  }

  /**
   A candidate is reached only by a pose that carries the stamp, not zero, of the one scan relayed since
   the last deserialization.
   */
  lemma CandidateIsTheTrialScan(managed: bool, resume: bool, events: seq<Event>, e: Event)
    requires var w := Run(managed, resume, events); w.state.phase != Candidate && Step(w, e).state.phase == Candidate
    ensures var w := Run(managed, resume, events);
            e.Pose? && e.inMap && e.finite && e.stamp != 0 && w.record.trial == [e.stamp] && w.state.phase == Trial
  {
    hide Run, OnPoll, OnPose, Thrown, Advanced;
    var w := Run(managed, resume, events);
    RunKeeps(managed, resume, events);
    match e
    case Pose(stamp, inMap, finite) => PoseMakesCandidate(w.state, stamp, inMap, finite);
    case Poll(now, broken, good, encoded) => PollNeverCandidate(w.state, now, broken, good, encoded);
    case JobFails => if w.job.Some? { ThrownNeverCandidate(w); }
    case JobStep(now) => if w.job.Some? { AdvancedNeverCandidate(w, now); }
    case _ =>
  }

  lemma PoseMakesCandidate(s: State, stamp: int, inMap: bool, finite: bool)
    ensures OnPose(s, stamp, inMap, finite).phase == Candidate && s.phase != Candidate ==>
              inMap && finite && s.phase == Trial && s.expected == stamp != 0
  {}

  lemma PollNeverCandidate(s: State, now: real, broken: bool, good: bool, encoded: bool)
    ensures OnPoll(s, now, broken, good, encoded).phase == Candidate ==> s.phase == Candidate
  {}

  lemma AbandonedPhase(s: State, job: Job)
    ensures Abandoned(s, job).phase ==
            if job.Filming? then s.phase else if job.Storing? && s.phase == Saving then Current else Failed
  {
    match job
    case Restoring(_, _) =>
    case Storing(_, _, _) =>
    case Launching(_, _) =>
    case Quitting(_) =>
    case Filming =>
  }

  lemma ThrownNeverCandidate(w: World)
    requires w.job.Some?
    ensures Thrown(w).state.phase == Candidate ==> w.state.phase == Candidate
  {
    hide Abandoned;
    AbandonedPhase(w.state, w.job.value);
  }

  lemma RestoringNeverCandidate(w: World, stopped: bool, deserialized: bool, now: real)
    requires w.job.Some? && w.state.phase != Candidate
    ensures RestoringOn(w, stopped, deserialized, now).state.phase != Candidate
  {
    hide Thrown;
    ThrownNeverCandidate(w);
  }

  lemma StoringNeverCandidate(w: World, finish: bool, stopped: bool, frozen: bool)
    requires w.job.Some? && w.state.phase != Candidate
    ensures StoringOn(w, finish, stopped, frozen).state.phase != Candidate
  {
    hide Thrown;
    ThrownNeverCandidate(w);
  }

  lemma TasksNeverCandidate(w: World, mode: Mode, cleared: bool, begun: bool)
    requires w.state.phase != Candidate
    ensures LaunchingOn(w, mode, cleared).state.phase != Candidate && QuittingOn(w, begun).state.phase != Candidate
  {}

  lemma AdvancedNeverCandidate(w: World, now: real)
    requires w.job.Some? && w.state.phase != Candidate
    ensures Advanced(w, now).state.phase != Candidate
  {
    hide RestoringOn, StoringOn, LaunchingOn, QuittingOn;
    match w.job.value
    case Restoring(stopped, deserialized) => RestoringNeverCandidate(w, stopped, deserialized, now);
    case Storing(finish, stopped, frozen) => StoringNeverCandidate(w, finish, stopped, frozen);
    case Launching(mode, cleared) => TasksNeverCandidate(w, mode, cleared, false);
    case Quitting(begun) => TasksNeverCandidate(w, New, false, begun);
    case Filming =>
  }

  /** A failed session is left only by launching a task or by ending it. */
  lemma FailureIsFinal(w: World, e: Event)
    requires w.state.phase == Failed && Step(w, e).state.phase != Failed
    ensures e.JobStep? && w.job.Some? && (w.job.value.Launching? || w.job.value.Quitting?)
  {
    hide Thrown, Advanced;
    if e.JobFails? && w.job.Some? {
      ThrownFromFailure(w);
    } else if e.JobStep? && w.job.Some? {
      AdvancedFromFailure(w, e.now);
    } else if e.RestoreAt? || e.Confirm? || e.Save? || e.Start? || e.Restart? || e.End? || e.Video? {
      RequestFromFailure(w, e);
    } else {
      CallbackFromFailure(w, e);
    }
  }

  lemma PollFromFailure(s: State, now: real, broken: bool, good: bool, encoded: bool)
    requires s.phase == Failed
    ensures OnPoll(s, now, broken, good, encoded).phase == Failed
  {}

  lemma MessagesFromFailure(w: World, stamp: int, inMap: bool, finite: bool)
    requires w.state.phase == Failed
    ensures OnScan(w, stamp).state.phase == OnPose(w.state, stamp, inMap, finite).phase == Failed
    ensures OnSlamError(w.state, stamp) == w.state
  {}

  lemma CallbackFromFailure(w: World, e: Event)
    requires w.state.phase == Failed && (e.Scan? || e.Map? || e.Pose? || e.SlamError? || e.Poll? || e.JobBegins?)
    ensures Step(w, e).state.phase == Failed
  {
    hide OnPoll, OnPose, OnScan, OnSlamError;
    match e
    case Scan(stamp) => MessagesFromFailure(w, stamp, true, true);
    case Pose(stamp, inMap, finite) => MessagesFromFailure(w, stamp, inMap, finite);
    case SlamError(stamp) => MessagesFromFailure(w, stamp, true, true);
    case Poll(now, broken, good, encoded) => PollFromFailure(w.state, now, broken, good, encoded);
    case _ =>
  }

  lemma RequestFromFailure(w: World, e: Event)
    requires w.state.phase == Failed
    requires e.Confirm? || e.Save? || e.RestoreAt? || e.Start? || e.Restart? || e.End? || e.Video?
    ensures Step(w, e).state.phase == Failed
  {}

  lemma AdvancedFromFailure(w: World, now: real)
    requires w.job.Some? && w.state.phase == Failed
    ensures Advanced(w, now).state.phase != Failed ==> w.job.value.Launching? || w.job.value.Quitting?
  {
    hide Thrown;
    ThrownFromFailure(w);
  }

  lemma ThrownFromFailure(w: World)
    requires w.job.Some? && w.state.phase == Failed
    ensures Thrown(w).state.phase == Failed
  {
    hide Abandoned;
    AbandonedPhase(w.state, w.job.value);
  }

  /** A restored map becomes current only by the operator's confirmation of a candidate, or back from saving it. */
  lemma CurrentNeedsConfirmation(managed: bool, resume: bool, events: seq<Event>, e: Event)
    requires var w := Run(managed, resume, events);
             w.state.mode == Resume && w.state.phase != Current && Step(w, e).state.phase == Current &&
             Step(w, e).state.mode == Resume
    ensures var w := Run(managed, resume, events);
            (e == Confirm(true) && w.state.phase == Candidate) || w.record.confirmed
  {
    hide Run;
    var w := Run(managed, resume, events);
    RunKeeps(managed, resume, events);
    StepKeeps(w, e);
    if e.JobStep? && w.job.Some? {
      hide Thrown;
      StillUnconfirmed(w, e.now);
    }
  }

  lemma StillUnconfirmed(w: World, now: real)
    requires w.job.Some?
    ensures Advanced(w, now).record.confirmed ==> w.record.confirmed
  {}

  // ---------------------------------------------------------------- the gateway

  /** The gateway's fields, kept in one record; the ghost field records what was relayed and deserialized. */
  class Gateway {
    var state: State
    var job: Option<Job>
    var queued: Option<Job>
    ghost var record: Record

    ghost function Value(): World
      reads this
    {
      World(state, job, queued, record)
    }

    constructor (managed: bool, resume: bool)
      ensures Value() == Boot(managed, resume)
    {
      var w := Boot(managed, resume);
      state, job, queued := w.state, w.job, w.queued;
      record := w.record;
    }

    /** Whether the scan is published to SLAM. */
    method ScanReceived(stamp: int) returns (relay: bool)
      modifies this
      ensures Value() == OnScan(old(Value()), stamp)
      ensures relay <==> old(state.accepting && (state.oneScan || state.forward))
    {
      if !state.accepting {
        return false;
      }
      if state.oneScan {
        state := state.(expected := stamp, oneScan := false);
        record := Relayed(record).(trial := record.trial + [stamp]);
        return true;
      }
      if state.forward {
        record := Relayed(record);
        return true;
      }
      relay := false;
    }

    method PoseReceived(stamp: int, inMap: bool, finite: bool)
      modifies `state
      ensures state == OnPose(old(state), stamp, inMap, finite)
    {
      if !state.accepting || !inMap {
        return;
      }
      if !finite {
        state := state.(phase := Failed, forward := false, oneScan := false, expected := 0);
        return;
      }
      if state.phase == Trial && state.expected != 0 && stamp == state.expected {
        state := state.(phase := Candidate, expected := 0);
      }
      assert state == Matched(old(state), stamp);
      hide Matched;
      if state.phase == Waiting {
        state := state.(havePose := true);
      } else if state.phase == Current && state.forward {
        state := state.(dirty := true);
      }
    }

    method LogReceived(stamp: int)
      modifies `state
      ensures state == OnSlamError(old(state), stamp)
    {
      if (state.phase == Loading || state.phase == Trial || state.phase == Candidate) && stamp >= state.restoreStamp {
        state := state.(phase := Failed, forward := false, oneScan := false);
      }
    }

    method WatchTask(broken: bool, good: bool)
      modifies `state
      ensures state == Watched(old(state), broken, good)
    {
      if !state.managed || (state.task != Starting && state.task != Running) {
        return;
      }
      if broken {
        state := state.(task := Faulted, phase := Failed, accepting := false, forward := false, oneScan := false,
                        busy := false);
      } else if state.task == Starting && good && (state.phase == Current || state.phase == Reference) {
        state := state.(task := Running, busy := false);
      }
    }

    method UpdateState(now: real, broken: bool, good: bool, encoded: bool)
      modifies `state
      ensures state == OnPoll(old(state), now, broken, good, encoded)
    {
      hide Watched;
      WatchTask(broken, good);
      if state.phase == Waiting && state.havePose && state.haveMap && encoded {
        state := state.(phase := Current);
      }
      if state.phase == Trial && now - state.trialAt > TRIAL_SECONDS {
        state := state.(phase := Failed, oneScan := false);
      }
    }

    method ConfirmRequest(authorized: bool) returns (accepted: bool)
      modifies this
      ensures Value() == OnConfirm(old(Value()), authorized)
      ensures accepted <==> authorized && !old(state.busy) && old(state.phase) == Candidate
    {
      accepted := authorized && !state.busy && state.phase == Candidate;
      if accepted {
        state := state.(phase := Current, forward := true);
        record := record.(confirmed := true);
      }
    }

    method SaveRequest(authorized: bool, finish: bool)
      modifies this
      ensures Value() == OnSave(old(Value()), authorized, finish)
    {
      if !authorized || state.busy || (finish && !state.managed) || state.phase != Current || !state.haveMap {
        return;
      }
      state := state.(phase := Saving, forward := false, busy := true);
      queued := Some(Storing(finish, false, false));
    }

    method RestoreRequest(authorized: bool, hintOk: bool, stamp: int)
      modifies this
      ensures Value() == OnRestore(old(Value()), authorized, hintOk, stamp)
    {
      if !authorized || state.busy {
        return;
      }
      if state.mode != Resume || (state.phase != Reference && state.phase != Candidate) || !hintOk {
        return;
      }
      state := state.(phase := Loading, forward := false, oneScan := false, expected := 0);
      state := state.(busy := true, restoreStamp := stamp);
      queued := Some(Restoring(false, false));
    }

    /** Starts, restarts or ends a task, or turns its video on or off. */
    method LifecycleRequest(request: Event)
      requires request.Start? || request.Restart? || request.End? || request.Video?
      requires queued.None?
      modifies this
      ensures Value() == Step(old(Value()), request)
    {
      if !state.managed || !request.authorized || (state.busy && !(request.End? && state.task == Starting)) {
        return;
      }
      match request
      case Start(_, mode, allowed) =>
        if state.task != AtRest || mode == Standby || !allowed {
          return;
        }
        state := state.(busy := true, task := Starting);
        queued := Some(Launching(mode, false));
      case Restart(_, acknowledged, allowed) =>
        if state.task == AtRest || (state.dirty && !acknowledged) || !allowed {
          return;
        }
        queued := Some(Launching(if state.saved then Resume else state.mode, false));
        state := state.(busy := true, task := Closing, accepting := false, forward := false, oneScan := false);
      case End(_, discard) =>
        if state.dirty && !discard {
          return;
        }
        queued := Some(Quitting(false));
        state := state.(busy := true, task := Closing, accepting := false, forward := false, oneScan := false);
      case Video(_, hardware) =>
        if state.task != Running || !hardware {
          return;
        }
        state := state.(busy := true);
        queued := Some(Filming);
    }

    method Throw()
      requires job.Some?
      modifies this
      ensures Value() == Thrown(old(Value()))
    {
      if job.value == Quitting(false) {
        return;
      }
      match job.value {
        case Restoring(_, _) => state := state.(phase := Failed, forward := false, oneScan := false, busy := false);
        case Storing(_, _, _) =>
          if state.phase == Saving {
            state := state.(phase := Current, forward := false, busy := false);
          } else {
            state := state.(phase := Failed, forward := false, oneScan := false, busy := false);
          }
        case Filming => state := state.(busy := false);
        case _ => state := state.(task := Faulted, phase := Failed, accepting := false, forward := false, busy := false);
      }
      job := None;
    }

    method RestoreOn(now: real)
      requires job.Some? && job.value.Restoring?
      modifies this
      ensures Value() == Advanced(old(Value()), now)
    {
      hide Thrown;
      if !job.value.stopped {
        job := Some(Restoring(true, false));
      } else if !job.value.deserialized {
        job := Some(Restoring(true, true));
        record := record.(deserialized := record.deserialized + 1);
      } else if state.phase != Loading {
        Throw();
      } else {
        state := state.(phase := Trial, busy := false, oneScan := true, trialAt := now);
        record := record.(trial := []);
        job := None;
      }
    }

    method StoreOn(now: real)
      requires job.Some? && job.value.Storing?
      modifies this
      ensures Value() == Advanced(old(Value()), now)
    {
      hide Thrown;
      var finish := job.value.finish;
      if !job.value.stopped {
        job := Some(Storing(finish, true, false));
      } else if state.phase != Saving {
        Throw();
      } else if !job.value.frozen {
        job := Some(Storing(finish, true, true));
      } else {
        state := state.(phase := if finish then Stopping else Current, forward := !finish, busy := finish);
        if finish {
          state := state.(task := Closing);
        }
        state := state.(dirty := false, saved := true);
        job := if finish then Some(Quitting(false)) else None;
      }
    }

    method ClearInputs()
      modifies `state
      ensures state == Cleared(old(state))
    {
      state := state.(accepting := false, forward := false, oneScan := false, havePose := false);
      state := state.(expected := 0, haveMap := false);
    }

    method TaskOn(now: real)
      requires job.Some? && (job.value.Launching? || job.value.Quitting? || job.value.Filming?)
      modifies this
      ensures Value() == Advanced(old(Value()), now)
    {
      match job.value
      case Launching(mode, cleared) =>
        if !cleared {
          ClearInputs();
          state := state.(mode := mode, phase := if mode == Resume then Reference else Waiting, task := Starting,
                          dirty := false, saved := false);
          record := Record(0, 0, false, []);
          job := Some(Launching(mode, true));
        } else {
          state := state.(accepting := true, forward := mode == New);
          job := None;
        }
      case Quitting(begun) =>
        if !begun {
          state := state.(accepting := false, forward := false, oneScan := false, task := Closing, phase := Stopping);
          job := Some(Quitting(true));
        } else {
          ClearInputs();
          state := state.(phase := StandingBy, task := AtRest, mode := Standby, busy := false, dirty := false);
          job := None;
        }
      case Filming =>
        state := state.(busy := false);
        job := None;
    }
  }
}
