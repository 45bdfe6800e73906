/**
 The navigation runtime shared by the recovery supervisor and the action leaves of its children: action
 sessions, the one motion goal, the motion permit, the fault latch and stillness from odometry.

 A session stands for a bounded action client. Its callbacks run on another thread: they are events that
 may change a session's flags at any time, but a finished session stays finished unless it sends again,
 and a cancel request is never withdrawn. Times are readings of the steady clock.
 */
module RecoveryRuntime {
  datatype Option<T> = None | Some(value: T)

  datatype Settings = Settings(
    responseTimeout: real, cancelTimeout: real, settleTimeout: real, stillDuration: real,
    recoveryTimeout: real, inputWaitTimeout: real, inputHealthyDuration: real, dataAge: real)

  /** An action client that has sent its goal: whether it moves the vehicle, and what is known of the goal. */
  datatype Session = Session(
    moves: bool, accepted: bool, terminal: bool, success: bool, rejected: bool,
    cancelRequested: bool, timedOut: bool, unconfirmed: bool)

  /** A leaf of the behaviour tree that drives one action. */
  datatype Leaf = Leaf(
    moves: bool, running: bool, session: Option<nat>, settling: Option<real>, released: bool, deadline: real)

  datatype Sample = Sample(at: real, stopped: bool)

  datatype Runtime = Runtime(
    sessions: seq<Session>, leaves: seq<Leaf>, motion: Option<nat>, sequence: nat, permission: nat, fault: bool,
    still: Option<real>, samples: seq<Sample>, now: real,
    recoveryActive: bool, recoveryStarted: real)

  // ---------------------------------------------------------------- sessions

  predicate Known(rt: Runtime, id: Option<nat>) {
    id.Some? ==> id.value < |rt.sessions|
  }

  /** Every reference to a session is to one that exists. */
  predicate Linked(rt: Runtime) {
    && Known(rt, rt.motion)
    && (forall i :: 0 <= i < |rt.leaves| ==> Known(rt, rt.leaves[i].session))
    && (forall i :: 0 <= i < |rt.leaves| && rt.leaves[i].session.Some? ==>
          rt.sessions[rt.leaves[i].session.value].moves == rt.leaves[i].moves)
    && (rt.motion.Some? ==> rt.sessions[rt.motion.value].moves)
  }

  /** A goal that may still be moving the vehicle. */
  predicate Live(s: Session) {
    s.moves && !s.terminal
  }

  /** What callbacks and polling may do to a session. */
  predicate Evolves(s: Session, t: Session) {
    t.moves == s.moves && (s.terminal ==> t.terminal) && (s.cancelRequested ==> t.cancelRequested)
  }

  /** The session after callbacks: the reported flags where they are possible, else nothing changes. */
  function Evolved(s: Session, reported: Session): (t: Session)
    ensures Evolves(s, t)
  {
    if Evolves(s, reported) then reported else s
  }

  function WithSession(rt: Runtime, id: nat, s: Session): Runtime
    requires id < |rt.sessions|
  {
    rt.(sessions := rt.sessions[id := s])
  }

  function Canceled(rt: Runtime, id: Option<nat>): Runtime
    requires Known(rt, id)
  {
    if id.None? then rt
    else
      var s := rt.sessions[id.value];
      if s.terminal then rt else WithSession(rt, id.value, s.(cancelRequested := true))
  }

  /** Sending a goal, again or for the first time; refused once a cancel was requested. */
  function Submitted(s: Session): Session {
    if s.cancelRequested then s
    else s.(terminal := false, success := false, rejected := false,
            accepted := s.accepted && !s.rejected && !s.timedOut)
  }

  // ---------------------------------------------------------------- permit, fault, stillness

  function Revoked(rt: Runtime): Runtime {
    rt.(permission := 0)
  }

  /** Permission is published as the sequence number of the action it is for; none while a fault is latched. */
  function Permitted(rt: Runtime, allowed: bool): Runtime {
    rt.(permission := if allowed && !rt.fault then rt.sequence else 0)
  }

  function Faulted(rt: Runtime): Runtime {
    rt.(fault := true, permission := 0)
  }

  function Later(now: real, at: real): real {
    if at > now then at else now
  }

  function At(rt: Runtime, at: real): Runtime {
    rt.(now := Later(rt.now, at))
  }

  /** An odometry message; a gap in the messages starts stillness again. */
  function Observed(cfg: Settings, rt: Runtime, at: real, stopped: bool): Runtime {
    var t := At(rt, at);
    var gap := rt.samples == [] || t.now - rt.samples[|rt.samples| - 1].at > cfg.dataAge;
    var kept := if !stopped || gap then None else rt.still;
    t.(still := if stopped && kept.None? then Some(t.now) else kept, samples := rt.samples + [Sample(t.now, stopped)])
  }

  predicate StillFor(rt: Runtime, duration: real, odomFresh: bool) {
    odomFresh && rt.samples != [] && rt.still.Some? && rt.now - rt.still.value >= duration
  }

  function BegunRecovery(rt: Runtime): Runtime {
    if rt.recoveryActive then rt else rt.(recoveryActive := true, recoveryStarted := rt.now)
  }

  // ---------------------------------------------------------------- the action leaf

  datatype Status = Idle | Running | Success | Failure

  /**
   What a leaf meets in one tick: whether the goal could be prepared, whether it needs no motion after
   all, whether the server is there, the session can be made and the budget reserved, what polling
   reports, and whether a new path makes it send again, after more reports.
   */
  datatype Meets = Meets(
    at: real, prepared: bool, noMotion: bool, serverReady: bool, created: bool, reserved: bool,
    polled: Session, newPath: bool, raced: Session, odomFresh: bool)

  function WithLeaf(rt: Runtime, i: nat, leaf: Leaf): Runtime
    requires i < |rt.leaves|
  {
    rt.(leaves := rt.leaves[i := leaf])
  }

  function Finished(rt: Runtime, i: nat, status: Status): (Runtime, Status)
    requires i < |rt.leaves|
  {
    (WithLeaf(rt, i, rt.leaves[i].(running := status == Running)), status)
  }

  predicate MotionBusy(rt: Runtime)
    requires Linked(rt)
  {
    rt.motion.Some? && !rt.sessions[rt.motion.value].terminal
  }

  /** A fresh session becomes the leaf's, and for a moving leaf the motion goal. */
  function Opened(rt: Runtime, i: nat): Runtime
    requires i < |rt.leaves|
  {
    var id, leaf := |rt.sessions|, rt.leaves[i];
    var s := Submitted(Session(leaf.moves, false, false, false, false, false, false, false));
    var t := WithLeaf(rt.(sessions := rt.sessions + [s]), i, leaf.(session := Some(id)));
    if leaf.moves then t.(motion := Some(id), sequence := rt.sequence + 1) else t
  }

  function LeafRuns(cfg: Settings, rt0: Runtime, i: nat, m: Meets): (Runtime, Status)
    requires Linked(rt0) && i < |rt0.leaves|
  {
    var rt := At(rt0, m.at);
    if rt.leaves[i].session.None? then
      if !m.serverReady then Finished(rt, i, if rt.now >= rt.leaves[i].deadline then Failure else Running)
      else if rt.leaves[i].moves && MotionBusy(rt) then Finished(Faulted(rt), i, Failure)
      else if !m.created || !m.reserved then Finished(rt, i, Failure)
      else LeafPolls(cfg, Opened(rt, i), i, m)
    else LeafPolls(cfg, rt, i, m)
  }

  function LeafPolls(cfg: Settings, rt: Runtime, i: nat, m: Meets): (Runtime, Status)
    requires i < |rt.leaves| && rt.leaves[i].session.Some? && Known(rt, rt.leaves[i].session)
  {
    var leaf, id := rt.leaves[i], rt.leaves[i].session.value;
    var s := Evolved(rt.sessions[id], m.polled);
    var polled := WithSession(rt, id, s);
    if s.unconfirmed then Finished(if leaf.moves then Faulted(polled) else polled, i, Failure)
    else if !s.terminal then
      if !s.cancelRequested && s.accepted && m.newPath then
        Finished(WithSession(polled, id, Submitted(Evolved(s, m.raced))), i, Running)
      else Finished(polled, i, Running)
    else LeafEnds(cfg, polled, i, id, s, m.odomFresh)
  }

  /** A moving leaf whose goal is over takes the permit back and, the first time, starts timing stillness. */
  function Settling(rt: Runtime, i: nat): Runtime
    requires i < |rt.leaves|
  {
    var leaf := rt.leaves[i];
    var quiet := WithLeaf(Revoked(rt), i, leaf.(settling := if leaf.settling.None? then Some(rt.now) else leaf.settling));
    if leaf.settling.None? then quiet.(still := None) else quiet
  }

  function Forgotten(rt: Runtime, id: nat): Runtime {
    if rt.motion == Some(id) then rt.(motion := None) else rt
  }

  /** A moving leaf is done only when the vehicle is still; not in time is a fault. */
  function LeafSettles(cfg: Settings, rt: Runtime, i: nat, id: nat, result: Status, odomFresh: bool): (Runtime, Status)
    requires i < |rt.leaves|
  {
    var waiting := Settling(rt, i);
    if StillFor(waiting, cfg.stillDuration, odomFresh) then Finished(Forgotten(waiting, id), i, result)
    else if waiting.now - waiting.leaves[i].settling.value > cfg.settleTimeout then Finished(Faulted(waiting), i, Failure)
    else Finished(waiting, i, Running)
  }

  function LeafEnds(cfg: Settings, rt0: Runtime, i: nat, id: nat, s: Session, odomFresh: bool): (Runtime, Status)
    requires i < |rt0.leaves|
  {
    var rt := WithLeaf(rt0, i, rt0.leaves[i].(released := rt0.leaves[i].released || s.rejected));
    var result := if s.success && !s.cancelRequested && !s.timedOut then Success else Failure;
    if rt0.leaves[i].moves then LeafSettles(cfg, rt, i, id, result, odomFresh) else Finished(rt, i, result)
  }

  function LeafStarts(cfg: Settings, rt0: Runtime, i: nat, m: Meets): (Runtime, Status)
    requires Linked(rt0) && i < |rt0.leaves|
  {
    var rt := At(rt0, m.at);
    if rt.fault then Finished(rt, i, Failure)
    else
      var anew := WithLeaf(rt, i, rt.leaves[i].(session := None, settling := None, released := false));
      if !m.prepared then Finished(anew, i, Failure)
      else if m.noMotion then Finished(anew, i, Success)
      else LeafRuns(cfg, WithLeaf(anew, i, anew.leaves[i].(deadline := rt.now + cfg.responseTimeout)), i, m)
  }

  function LeafHalts(rt: Runtime, i: nat): Runtime
    requires Linked(rt) && i < |rt.leaves|
  {
    var leaf := rt.leaves[i];
    if !leaf.running then rt
    else
      var quiet := if leaf.moves then Revoked(rt) else rt;
      WithLeaf(Canceled(quiet, leaf.session), i, leaf.(running := false))
  }

  /** Halting the children halts every running leaf below them. */
  function AllHalted(rt: Runtime, from: nat): Runtime
    requires Linked(rt) && from <= |rt.leaves|
    decreases |rt.leaves| - from
  {
    if from == |rt.leaves| then rt
    else
      HaltKeepsLinks(rt, from);
      AllHalted(LeafHalts(rt, from), from + 1)
  }

  lemma LeafKeepsLinks(rt: Runtime, i: nat, leaf: Leaf)
    requires Linked(rt) && i < |rt.leaves| && leaf.moves == rt.leaves[i].moves
    requires leaf.session.None? || leaf.session == rt.leaves[i].session
    ensures Linked(WithLeaf(rt, i, leaf))
  {}

  lemma SessionKeepsLinks(rt: Runtime, id: nat, s: Session)
    requires Linked(rt) && id < |rt.sessions| && s.moves == rt.sessions[id].moves
    ensures Linked(WithSession(rt, id, s))
  {}

  lemma CancelKeepsLinks(rt: Runtime, id: Option<nat>)
    requires Linked(rt) && Known(rt, id)
    ensures Linked(Canceled(rt, id)) && Canceled(rt, id).leaves == rt.leaves
  {
    if id.Some? {
      SessionKeepsLinks(rt, id.value, rt.sessions[id.value].(cancelRequested := true));
    }
  }

  lemma HaltKeepsLinks(rt: Runtime, i: nat)
    requires Linked(rt) && i < |rt.leaves|
    ensures Linked(LeafHalts(rt, i)) && |LeafHalts(rt, i).leaves| == |rt.leaves|
  {
    hide Canceled;
    var leaf := rt.leaves[i];
    var quiet := if leaf.moves then Revoked(rt) else rt;
    CancelKeepsLinks(quiet, leaf.session);
    LeafKeepsLinks(Canceled(quiet, leaf.session), i, leaf.(running := false));
  }

  // ---------------------------------------------------------------- what happens below the supervisor

  datatype Op =
    | StartLeaf(leaf: nat, meets: Meets)
    | RunLeaf(leaf: nat, meets: Meets)
    | HaltLeaf(leaf: nat)
    | Report(session: nat, reported: Session)
    | Odometry(at: real, stopped: bool)
    | Revoke
    | BeginRecovery(at: real)
    | EndRecovery

  /** The tree starts a leaf only when it is not running, and runs or halts it only when it is. */
  function Applied(cfg: Settings, rt: Runtime, op: Op): Runtime
    requires Linked(rt)
  {
    match op
    case StartLeaf(i, m) => if i < |rt.leaves| && !rt.leaves[i].running then LeafStarts(cfg, rt, i, m).0 else rt
    case RunLeaf(i, m) => if i < |rt.leaves| && rt.leaves[i].running then LeafRuns(cfg, rt, i, m).0 else rt
    case HaltLeaf(i) => if i < |rt.leaves| then LeafHalts(rt, i) else rt
    case Report(id, reported) =>
      if id < |rt.sessions| then WithSession(rt, id, Evolved(rt.sessions[id], reported)) else rt
    case Odometry(at, stopped) => Observed(cfg, rt, at, stopped)
    case Revoke => Revoked(rt)
    case BeginRecovery(at) => BegunRecovery(At(rt, at))
    case EndRecovery => rt.(recoveryActive := false)
  }

  // ---------------------------------------------------------------- one live motion goal

  /** Every goal that may be moving the vehicle is the motion goal; so there is at most one. */
  predicate OneMotion(rt: Runtime) {
    forall id :: 0 <= id < |rt.sessions| && Live(rt.sessions[id]) ==> rt.motion == Some(id)
  }

  /** Permission never runs ahead of the actions started, and is never given under a fault. */
  predicate PermitSound(rt: Runtime) {
    (rt.permission != 0 ==> rt.permission <= rt.sequence && !rt.fault) && (rt.motion.Some? ==> rt.sequence > 0)
  }

  /** Stillness since t means every odometry message from t on reported a stopped vehicle. */
  predicate StillnessSound(rt: Runtime) {
    && (forall i :: 0 <= i < |rt.samples| ==> rt.samples[i].at <= rt.now)
    && (rt.still.Some? ==>
          rt.still.value <= rt.now && Sample(rt.still.value, true) in rt.samples &&
          forall i :: 0 <= i < |rt.samples| && rt.samples[i].at > rt.still.value ==> rt.samples[i].stopped)
  }

  predicate Sound(rt: Runtime) {
    Linked(rt) && OneMotion(rt) && PermitSound(rt) && StillnessSound(rt)
  }

  /** Time goes on, and stillness can only have begun again later. */
  predicate Steady(rt: Runtime, t: Runtime) {
    t.now >= rt.now && |t.leaves| == |rt.leaves| && (t.still.Some? ==> t.still == rt.still || t.still.value >= rt.now)
  }

  /** Nothing but the supervisor raises permission. */
  predicate Quieter(rt: Runtime, t: Runtime) {
    (t.permission == 0 || t.permission == rt.permission) && Steady(rt, t)
  }

  lemma LeafSet(rt: Runtime, i: nat, leaf: Leaf)
    requires Sound(rt) && i < |rt.leaves| && leaf.moves == rt.leaves[i].moves
    requires leaf.session.None? || leaf.session == rt.leaves[i].session
    ensures Sound(WithLeaf(rt, i, leaf))
  {
    LeafKeepsLinks(rt, i, leaf);
  }

  /** A session may change as long as it does not come to life unless it is the motion goal. */
  lemma SessionSet(rt: Runtime, id: nat, s: Session)
    requires Sound(rt) && id < |rt.sessions| && s.moves == rt.sessions[id].moves
    requires Live(s) ==> rt.motion == Some(id)
    ensures Sound(WithSession(rt, id, s))
  {
    SessionKeepsLinks(rt, id, s);
  }

  lemma CancelSound(rt: Runtime, id: Option<nat>)
    requires Sound(rt) && Known(rt, id)
    ensures Sound(Canceled(rt, id)) && Quieter(rt, Canceled(rt, id))
  {
    if id.Some? {
      SessionSet(rt, id.value, rt.sessions[id.value].(cancelRequested := true));
    }
  }

  lemma PlainChanges(rt: Runtime, at: real)
    requires Sound(rt)
    ensures Sound(Revoked(rt)) && Sound(Faulted(rt)) && Sound(rt.(still := None))
  {}

  lemma TimePasses(rt: Runtime, at: real)
    requires Sound(rt)
    ensures Sound(At(rt, at)) && Quieter(rt, At(rt, at))
  {}

  lemma RecoveryFlagged(rt: Runtime)
    requires Sound(rt)
    ensures Sound(BegunRecovery(rt)) && Sound(rt.(recoveryActive := false))
  {}

  lemma ObservedSound(cfg: Settings, rt: Runtime, at: real, stopped: bool)
    requires Sound(rt)
    ensures Sound(Observed(cfg, rt, at, stopped)) && Quieter(rt, Observed(cfg, rt, at, stopped))
  {
    var t := Observed(cfg, rt, at, stopped);
    assert forall i :: 0 <= i < |rt.samples| ==> t.samples[i] == rt.samples[i];
  }

  /** The motion goal may be forgotten only when it is over. */
  lemma MotionForgotten(rt: Runtime)
    requires Sound(rt) && !MotionBusy(rt)
    ensures Sound(rt.(motion := None)) && forall id :: 0 <= id < |rt.sessions| ==> !Live(rt.sessions[id])
  {}

  /** A second motion goal is started only when the first is over. */
  lemma OpenedSound(rt: Runtime, i: nat)
    requires Sound(rt) && i < |rt.leaves| && (rt.leaves[i].moves ==> !MotionBusy(rt))
    ensures var t := Opened(rt, i);
            Sound(t) && Quieter(rt, t) && t.leaves[i].session.Some? && t.leaves[i].moves == rt.leaves[i].moves
  {
    var t := Opened(rt, i);
    assert forall id :: 0 <= id < |rt.sessions| ==> t.sessions[id] == rt.sessions[id];
  }

  lemma FinishedSound(rt: Runtime, i: nat, status: Status)
    requires Sound(rt) && i < |rt.leaves|
    ensures Sound(Finished(rt, i, status).0) && Quieter(rt, Finished(rt, i, status).0)
  {
    hide Sound;
    LeafSet(rt, i, rt.leaves[i].(running := status == Running));
  }

  lemma SettlingSound(rt: Runtime, i: nat)
    requires Sound(rt) && i < |rt.leaves|
    ensures var t := Settling(rt, i);
            && Sound(t) && Quieter(rt, t) && t.permission == 0 && t.sessions == rt.sessions
            && t.leaves[i].session == rt.leaves[i].session
  {
    hide Sound;
    var leaf := rt.leaves[i];
    PlainChanges(rt, rt.now);
    var settled := leaf.(settling := if leaf.settling.None? then Some(rt.now) else leaf.settling);
    LeafSet(Revoked(rt), i, settled);
    PlainChanges(WithLeaf(Revoked(rt), i, settled), rt.now);
  }

  lemma ForgottenSound(rt: Runtime, id: nat)
    requires Sound(rt) && id < |rt.sessions| && rt.sessions[id].terminal
    ensures Sound(Forgotten(rt, id)) && Quieter(rt, Forgotten(rt, id))
  {
    if rt.motion == Some(id) {
      MotionForgotten(rt);
    }
  }

  lemma LeafSettlesSound(cfg: Settings, rt: Runtime, i: nat, id: nat, result: Status, odomFresh: bool)
    requires Sound(rt) && i < |rt.leaves| && id < |rt.sessions| && rt.sessions[id].terminal
    ensures var t := LeafSettles(cfg, rt, i, id, result, odomFresh).0; Sound(t) && Quieter(rt, t)
  {
    hide Sound, Finished, StillFor, Faulted, Settling, Forgotten;
    SettlingSound(rt, i);
    var waiting := Settling(rt, i);
    if StillFor(waiting, cfg.stillDuration, odomFresh) {
      ForgottenSound(waiting, id);
      FinishedSound(Forgotten(waiting, id), i, result);
    } else {
      PlainChanges(waiting, rt.now);
      FaultQuiet(waiting);
      FinishedSound(Faulted(waiting), i, Failure);
      FinishedSound(waiting, i, Running);
    }
  }

  lemma LeafEndsSound(cfg: Settings, rt0: Runtime, i: nat, id: nat, s: Session, odomFresh: bool)
    requires Sound(rt0) && i < |rt0.leaves| && id < |rt0.sessions| && rt0.sessions[id] == s && s.terminal
    ensures var t := LeafEnds(cfg, rt0, i, id, s, odomFresh).0; Sound(t) && Quieter(rt0, t)
  {
    hide Sound, Finished, LeafSettles;
    var leaf := rt0.leaves[i].(released := rt0.leaves[i].released || s.rejected);
    var result := if s.success && !s.cancelRequested && !s.timedOut then Success else Failure;
    LeafSet(rt0, i, leaf);
    if leaf.moves {
      LeafSettlesSound(cfg, WithLeaf(rt0, i, leaf), i, id, result, odomFresh);
    } else {
      FinishedSound(WithLeaf(rt0, i, leaf), i, result);
    }
  }

  lemma SoundIsLinked(rt: Runtime)
    requires Sound(rt)
    ensures Linked(rt)
  {}

  lemma FaultQuiet(rt: Runtime)
    ensures Quieter(rt, Faulted(rt)) && Faulted(rt).leaves == rt.leaves && Faulted(rt).sessions == rt.sessions
  {}

  lemma LeafPollsSound(cfg: Settings, rt: Runtime, i: nat, m: Meets)
    requires Sound(rt) && i < |rt.leaves| && rt.leaves[i].session.Some?
    ensures Known(rt, rt.leaves[i].session)
    ensures var t := LeafPolls(cfg, rt, i, m).0; Sound(t) && Quieter(rt, t)
  {
    hide Sound, Finished, Faulted, LeafEnds, Evolved;
    SoundIsLinked(rt);
    var leaf, id := rt.leaves[i], rt.leaves[i].session.value;
    var s := Evolved(rt.sessions[id], m.polled);
    var polled := WithSession(rt, id, s);
    EvolvedStays(rt, id, s);
    if s.unconfirmed {
      PlainChanges(polled, rt.now);
      FaultQuiet(polled);
      FinishedSound(Faulted(polled), i, Failure);
      FinishedSound(polled, i, Failure);
    } else if !s.terminal {
      FinishedSound(polled, i, Running);
      var again := Submitted(Evolved(s, m.raced));
      ResendStays(rt, polled, id, m.raced);
      FinishedSound(WithSession(polled, id, again), i, Running);
    } else {
      LeafEndsSound(cfg, polled, i, id, s, m.odomFresh);
    }
  }

  lemma EvolvedStays(rt: Runtime, id: nat, s: Session)
    requires Sound(rt) && id < |rt.sessions| && Evolves(rt.sessions[id], s)
    ensures Sound(WithSession(rt, id, s)) && Quieter(rt, WithSession(rt, id, s))
  {
    SessionSet(rt, id, s);
  }

  /** Sending again revives only a goal that was still running when the leaf looked. */
  lemma ResendStays(rt: Runtime, polled: Runtime, id: nat, raced: Session)
    requires Sound(polled) && id < |polled.sessions| && !polled.sessions[id].terminal
    ensures Sound(WithSession(polled, id, Submitted(Evolved(polled.sessions[id], raced))))
  {
    SessionSet(polled, id, Submitted(Evolved(polled.sessions[id], raced)));
  }

  lemma LeafRunsSound(cfg: Settings, rt0: Runtime, i: nat, m: Meets)
    requires Sound(rt0) && i < |rt0.leaves|
    ensures var t := LeafRuns(cfg, rt0, i, m).0; Sound(t) && Quieter(rt0, t)
  {
    hide Sound, Finished, LeafPolls, Opened, Faulted;
    SoundIsLinked(rt0);
    TimePasses(rt0, m.at);
    var rt := At(rt0, m.at);
    SoundIsLinked(rt);
    if rt.leaves[i].session.None? {
      if !m.serverReady {
        FinishedSound(rt, i, if rt.now >= rt.leaves[i].deadline then Failure else Running);
      } else if rt.leaves[i].moves && MotionBusy(rt) {
        PlainChanges(rt, rt.now);
        FaultQuiet(rt);
        FinishedSound(Faulted(rt), i, Failure);
      } else if !m.created || !m.reserved {
        FinishedSound(rt, i, Failure);
      } else {
        OpenedSound(rt, i);
        LeafPollsSound(cfg, Opened(rt, i), i, m);
      }
    } else {
      LeafPollsSound(cfg, rt, i, m);
    }
  }

  lemma LeafStartsSound(cfg: Settings, rt0: Runtime, i: nat, m: Meets)
    requires Sound(rt0) && i < |rt0.leaves|
    ensures var t := LeafStarts(cfg, rt0, i, m).0; Sound(t) && Quieter(rt0, t)
  {
    hide Sound, Finished, LeafRuns;
    SoundIsLinked(rt0);
    TimePasses(rt0, m.at);
    var rt := At(rt0, m.at);
    FinishedSound(rt, i, Failure);
    var cleared := rt.leaves[i].(session := None, settling := None, released := false);
    LeafSet(rt, i, cleared);
    var anew := WithLeaf(rt, i, cleared);
    FinishedSound(anew, i, Failure);
    FinishedSound(anew, i, Success);
    LeafSet(anew, i, cleared.(deadline := rt.now + cfg.responseTimeout));
    var timed := WithLeaf(anew, i, cleared.(deadline := rt.now + cfg.responseTimeout));
    SoundIsLinked(timed);
    LeafRunsSound(cfg, timed, i, m);
  }

  lemma LeafHaltsSound(rt: Runtime, i: nat)
    requires Sound(rt) && i < |rt.leaves|
    ensures Sound(LeafHalts(rt, i)) && Quieter(rt, LeafHalts(rt, i))
  {
    hide Sound, Canceled;
    SoundIsLinked(rt);
    var leaf := rt.leaves[i];
    var quiet := if leaf.moves then Revoked(rt) else rt;
    PlainChanges(rt, rt.now);
    CancelSound(quiet, leaf.session);
    CancelKeepsLinksOf(quiet, leaf.session);
    LeafSet(Canceled(quiet, leaf.session), i, leaf.(running := false));
  }

  lemma CancelKeepsLinksOf(rt: Runtime, id: Option<nat>)
    requires Known(rt, id)
    ensures Canceled(rt, id).leaves == rt.leaves
  {}

  lemma {:induction false} AllHaltedSound(rt: Runtime, from: nat)
    requires Sound(rt) && from <= |rt.leaves|
    ensures Linked(rt)
    ensures Sound(AllHalted(rt, from)) && Quieter(rt, AllHalted(rt, from))
    decreases |rt.leaves| - from
  {
    hide Sound, LeafHalts;
    SoundIsLinked(rt);
    if from < |rt.leaves| {
      LeafHaltsSound(rt, from);
      AllHaltedSound(LeafHalts(rt, from), from + 1);
    }
  }

  /** Whatever leaf, callback or message comes next, the runtime stays sound and permission is not raised. */
  lemma AppliedSound(cfg: Settings, rt: Runtime, op: Op)
    requires Sound(rt)
    ensures Linked(rt)
    ensures Sound(Applied(cfg, rt, op)) && Quieter(rt, Applied(cfg, rt, op))
  {
    hide Sound, LeafStarts, LeafRuns, LeafHalts, Observed, Evolved;
    SoundIsLinked(rt);
    match op
    case StartLeaf(i, m) => if i < |rt.leaves| { LeafStartsSound(cfg, rt, i, m); }
    case RunLeaf(i, m) => if i < |rt.leaves| { LeafRunsSound(cfg, rt, i, m); }
    case HaltLeaf(i) => if i < |rt.leaves| { LeafHaltsSound(rt, i); }
    case Report(id, reported) =>
      if id < |rt.sessions| { EvolvedStays(rt, id, Evolved(rt.sessions[id], reported)); }
    case Odometry(at, stopped) => ObservedSound(cfg, rt, at, stopped);
    case Revoke => PlainChanges(rt, rt.now);
    case BeginRecovery(at) =>
      TimePasses(rt, at);
      RecoveryFlagged(At(rt, at));
    case EndRecovery => RecoveryFlagged(rt);
  }

  // ---------------------------------------------------------------- what a leaf answers

  /** A goal that is over counts as ended once the vehicle, if it moved, has been still since. */
  predicate Rested(cfg: Settings, leaf: Leaf, rt: Runtime, odomFresh: bool) {
    leaf.moves ==> leaf.settling.Some? && StillFor(rt, cfg.stillDuration, odomFresh)
  }

  predicate RestsTooLate(cfg: Settings, leaf: Leaf, rt: Runtime) {
    leaf.settling.Some? && rt.now - leaf.settling.value > cfg.settleTimeout
  }

  /** The goal after it was looked at: a new path sends it again, if it is still being followed. */
  function AfterPoll(s: Session, m: Meets): Session {
    if !s.unconfirmed && !s.terminal && !s.cancelRequested && s.accepted && m.newPath then Submitted(Evolved(s, m.raced)) else s
  }

  /** No odometry came in, and stillness was not noted anew. */
  predicate Samples(rt: Runtime, t: Runtime) {
    t.samples == rt.samples && (t.still == rt.still || t.still.None?)
  }

  lemma SettlesExactly(cfg: Settings, rt: Runtime, i: nat, id: nat, result: Status, odomFresh: bool)
    requires i < |rt.leaves| && rt.leaves[i].moves && cfg.settleTimeout >= 0.0
    ensures var (t, status) := LeafSettles(cfg, rt, i, id, result, odomFresh);
            var rested, late := Rested(cfg, rt.leaves[i], rt, odomFresh), RestsTooLate(cfg, rt.leaves[i], rt);
            && status == (if rested then result else if late then Failure else Running)
            && |t.leaves| == |rt.leaves| && t.leaves[i].running == (status == Running)
            && t.fault == (rt.fault || (!rested && late)) && t.permission == 0 && t.sessions == rt.sessions
            && t.sequence == rt.sequence && t.leaves[i].released == rt.leaves[i].released && Samples(rt, t)
  {}

  lemma EndsExactly(cfg: Settings, rt: Runtime, i: nat, id: nat, s: Session, odomFresh: bool)
    requires i < |rt.leaves| && cfg.settleTimeout >= 0.0
    ensures var (t, status) := LeafEnds(cfg, rt, i, id, s, odomFresh);
            var leaf := rt.leaves[i];
            var rested, late := Rested(cfg, leaf, rt, odomFresh), RestsTooLate(cfg, leaf, rt);
            var result := if s.success && !s.cancelRequested && !s.timedOut then Success else Failure;
            && status == (if rested then result else if late then Failure else Running)
            && |t.leaves| == |rt.leaves| && t.leaves[i].running == (status == Running)
            && t.fault == (rt.fault || (!rested && late)) && (leaf.moves ==> t.permission == 0) && t.sessions == rt.sessions
            && t.sequence == rt.sequence && t.leaves[i].released == (leaf.released || s.rejected) && Samples(rt, t)
  {
    hide LeafSettles;
    var marked := WithLeaf(rt, i, rt.leaves[i].(released := rt.leaves[i].released || s.rejected));
    var result := if s.success && !s.cancelRequested && !s.timedOut then Success else Failure;
    if rt.leaves[i].moves {
      SettlesExactly(cfg, marked, i, id, result, odomFresh);
    }
  }

  lemma PollsExactly(cfg: Settings, rt: Runtime, i: nat, m: Meets)
    requires i < |rt.leaves| && rt.leaves[i].session.Some? && Known(rt, rt.leaves[i].session) && cfg.settleTimeout >= 0.0
    ensures var leaf := rt.leaves[i];
            var s := Evolved(rt.sessions[leaf.session.value], m.polled);
            var (t, status) := LeafPolls(cfg, rt, i, m);
            var rested, late := Rested(cfg, leaf, rt, m.odomFresh), RestsTooLate(cfg, leaf, rt);
            && status == (
                 if s.unconfirmed then Failure
                 else if !s.terminal then Running
                 else if !rested then if late then Failure else Running
                 else if s.success && !s.cancelRequested && !s.timedOut then Success else Failure)
            && |t.leaves| == |rt.leaves| && t.leaves[i].running == (status == Running)
            && t.fault == (rt.fault || (leaf.moves && (s.unconfirmed || (s.terminal && !rested && late))))
            && (leaf.moves && s.terminal ==> t.permission == 0)
            && t.leaves[i].released == (leaf.released || (!s.unconfirmed && s.terminal && s.rejected)) && Samples(rt, t)
            && t.sessions == rt.sessions[leaf.session.value := AfterPoll(s, m)] && t.sequence == rt.sequence
  {
    hide LeafEnds, Rested;
    var leaf, id := rt.leaves[i], rt.leaves[i].session.value;
    var s := Evolved(rt.sessions[id], m.polled);
    var polled := WithSession(rt, id, s);
    RestedAlike(cfg, leaf, rt, polled, m.odomFresh);
    EndsExactly(cfg, polled, i, id, s, m.odomFresh);
  }

  lemma RestedAlike(cfg: Settings, leaf: Leaf, rt: Runtime, t: Runtime, odomFresh: bool)
    requires t.now == rt.now && t.still == rt.still && t.samples == rt.samples
    ensures Rested(cfg, leaf, rt, odomFresh) == Rested(cfg, leaf, t, odomFresh)
    ensures !leaf.moves ==> Rested(cfg, leaf, rt, odomFresh)
  {}

  /**
   A leaf with a goal succeeds exactly when the goal did, was neither cancelled nor timed out, and the vehicle rests;
   it faults exactly when a moving goal's end was never confirmed or the vehicle does not come to rest in time; a
   moving goal that is over has no permission left; and only this goal changes, sent again for a new path alone.
   */
  lemma LeafAnswersExactly(cfg: Settings, rt0: Runtime, i: nat, m: Meets)
    requires Linked(rt0) && i < |rt0.leaves| && rt0.leaves[i].session.Some? && cfg.settleTimeout >= 0.0
    ensures var rt, leaf := At(rt0, m.at), rt0.leaves[i];
            var s := Evolved(rt.sessions[leaf.session.value], m.polled);
            var (t, status) := LeafRuns(cfg, rt0, i, m);
            var rested, late := Rested(cfg, leaf, rt, m.odomFresh), RestsTooLate(cfg, leaf, rt);
            && (status == Success <==> !s.unconfirmed && s.terminal && s.success && !s.cancelRequested && !s.timedOut && rested)
            && (status == Running <==> !s.unconfirmed && (s.terminal ==> !rested && !late))
            && status != Idle && i < |t.leaves| && (t.leaves[i].running <==> status == Running)
            && (t.fault <==> rt0.fault || (leaf.moves && (s.unconfirmed || (s.terminal && !rested && late))))
            && (leaf.moves && s.terminal ==> t.permission == 0)
            && t.sessions == rt0.sessions[leaf.session.value := AfterPoll(s, m)]
            && t.leaves[i].released == (leaf.released || (!s.unconfirmed && s.terminal && s.rejected))
  {
    hide LeafPolls, Evolved, Rested;
    PollsExactly(cfg, At(rt0, m.at), i, m);
  }

  /** A leaf without a goal sends one exactly when it can and, for a moving one, no other goal may be moving. */
  lemma LeafSendsExactly(cfg: Settings, rt0: Runtime, i: nat, m: Meets)
    requires Linked(rt0) && i < |rt0.leaves| && rt0.leaves[i].session.None? && cfg.settleTimeout >= 0.0
    ensures var rt, leaf := At(rt0, m.at), rt0.leaves[i];
            var (t, status) := LeafRuns(cfg, rt0, i, m);
            var busy := leaf.moves && MotionBusy(rt);
            if m.serverReady && !busy && m.created && m.reserved then
              && |t.sessions| == |rt0.sessions| + 1 && t.sessions[|rt0.sessions|].moves == leaf.moves
              && t.sessions[..|rt0.sessions|] == rt0.sessions
              && t.sequence == (if leaf.moves then rt0.sequence + 1 else rt0.sequence)
            else
              && t.sessions == rt0.sessions && t.motion == rt0.motion && t.sequence == rt0.sequence
              && (t.fault <==> rt0.fault || (m.serverReady && busy))
              && status == (if !m.serverReady && rt.now < leaf.deadline then Running else Failure)
  {
    hide LeafPolls;
    var rt := At(rt0, m.at);
    PollsExactly(cfg, Opened(rt, i), i, m);
  }

  /**
   A leaf that is started sends nothing while a fault is latched, when its goal cannot be prepared, and when it needs
   no motion, in which case alone it succeeds at once; any other start has the response time from now on to send.
   Whatever it was waiting for before is forgotten.
   */
  lemma LeafStartsExactly(cfg: Settings, rt0: Runtime, i: nat, m: Meets)
    requires Linked(rt0) && i < |rt0.leaves| && cfg.settleTimeout >= 0.0 && cfg.responseTimeout > 0.0
    ensures var rt, leaf := At(rt0, m.at), rt0.leaves[i];
            var (t, status) := LeafStarts(cfg, rt0, i, m);
            var busy := leaf.moves && MotionBusy(rt);
            if rt0.fault || !m.prepared || m.noMotion then
              && t.sessions == rt0.sessions && t.motion == rt0.motion && t.fault == rt0.fault && !t.leaves[i].running
              && status == (if !rt0.fault && m.prepared then Success else Failure)
            else if m.serverReady && !busy && m.created && m.reserved then |t.sessions| == |rt0.sessions| + 1
            else
              && t.sessions == rt0.sessions && (t.fault <==> m.serverReady && busy)
              && status == (if m.serverReady then Failure else Running)
              && t.leaves[i].session.None? && t.leaves[i].settling.None? && !t.leaves[i].released
              && (status == Running ==> t.leaves[i].deadline == rt.now + cfg.responseTimeout)
  {
    hide LeafPolls;
    var rt := At(rt0, m.at);
    var cleared := rt.leaves[i].(session := None, settling := None, released := false);
    var timed := cleared.(deadline := rt.now + cfg.responseTimeout);
    LeafKeepsLinks(rt, i, cleared);
    LeafKeepsLinks(WithLeaf(rt, i, cleared), i, timed);
    LeafSendsExactly(cfg, WithLeaf(WithLeaf(rt, i, cleared), i, timed), i, m);
  }

  function AppliedAll(cfg: Settings, rt: Runtime, ops: seq<Op>): Runtime
    requires Sound(rt)
    ensures Sound(AppliedAll(cfg, rt, ops)) && Quieter(rt, AppliedAll(cfg, rt, ops))
    decreases |ops|
  {
    if ops == [] then rt
    else
      AppliedSound(cfg, rt, ops[0]);
      AppliedAll(cfg, Applied(cfg, rt, ops[0]), ops[1..])
  }
}
