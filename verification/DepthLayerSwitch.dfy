/**
 The depth-layer supervisor in its switching mode: depth marking is turned on or off on two costmaps
 in acknowledged phases, with the vehicle stopped until both costmaps have been rebuilt.

 Times are readings of the steady clock; 0.0 is the clock's epoch, which the code uses for "never".
 */
module DepthLayerSwitch {
  datatype Settings = Settings(healthTimeout: real, recoveryStable: real, rebuildWait: real, switchTimeout: real)

  datatype Option<T> = None | Some(value: T)

  datatype Phase = Idle | SetParameters | ClearCostmaps | Rebuild | Failed

  datatype State = State(
    rawHealth: bool, lastHealth: real, healthySince: real,
    phase: Phase, pending: int, operationOk: bool,
    active: bool, target: bool, allowed: bool, initialSync: bool,
    switchStarted: real, rebuildStarted: real, lastLocal: real, lastGlobal: real)

  const START := State(false, 0.0, 0.0, Idle, 0, true, false, false, true, true, 0.0, 0.0, 0.0, 0.0)

  /** A parameter request throws or reports one verdict a parameter. */
  datatype Reply = Threw | Results(verdicts: seq<bool>)

  predicate Succeeded(reply: Reply) {
    reply.Results? && reply.verdicts != [] && false !in reply.verdicts
  }

  // ---------------------------------------------------------------- the specification

  function HealthFresh(cfg: Settings, s: State, now: real): bool {
    s.rawHealth && s.lastHealth != 0.0 && now - s.lastHealth <= cfg.healthTimeout
  }

  function Begun(s: State, enable: bool, ready: bool, now: real): State {
    if s.phase != Idle || !ready then s
    else s.(target := enable, phase := SetParameters, switchStarted := now, pending := 2, operationOk := true,
            allowed := false)
  }

  function Stopped(s: State): State {
    s.(phase := Failed, allowed := false)
  }

  function Progressed(cfg: Settings, s: State, now: real): State {
    if s.phase == Idle || s.phase == Failed then s
    else if now - s.switchStarted > cfg.switchTimeout then Stopped(s)
    else if s.phase == SetParameters && s.pending == 0 then
      if s.operationOk then s.(phase := ClearCostmaps, pending := 2) else Stopped(s)
    else if s.phase == ClearCostmaps && s.pending == 0 then
      if s.operationOk then s.(phase := Rebuild, rebuildStarted := now) else Stopped(s)
    else if s.phase == Rebuild && now - s.rebuildStarted >= cfg.rebuildWait &&
            s.lastLocal > s.rebuildStarted && s.lastGlobal > s.rebuildStarted then
      s.(active := s.target, phase := Idle, initialSync := false, allowed := true)
    else s
  }

  function Noted(s: State, healthy: bool, now: real): State {
    if !healthy then s.(healthySince := 0.0)
    else if s.healthySince == 0.0 then s.(healthySince := now)
    else s
  }

  /** What an idle supervisor decides; the two interface checks of one tick may disagree. */
  function Decided(cfg: Settings, s: State, healthy: bool, ready: bool, readyAgain: bool, now: real): State
    requires s.phase == Idle
  {
    var next :=
      if s.initialSync then Begun(s, false, ready, now)
      else if s.active && !healthy then (if ready then Begun(s, false, readyAgain, now) else Stopped(s))
      else if !s.active && healthy && now - s.healthySince >= cfg.recoveryStable then Begun(s, true, ready, now)
      else s;
    if next.phase == Idle then next.(allowed := true) else next
  }

  function Ticked(cfg: Settings, s: State, ready: bool, readyAgain: bool, now: real): State {
    var healthy := HealthFresh(cfg, s, now);
    var noted := Noted(s, healthy, now);
    if s.phase == Failed then noted.(allowed := false)
    else
      var progressed := Progressed(cfg, noted, now);
      if progressed.phase != Idle then progressed.(allowed := false)
      else Decided(cfg, progressed, healthy, ready, readyAgain, now)
  }

  function Acknowledged(s: State, ok: bool): State {
    s.(operationOk := s.operationOk && ok, pending := s.pending - 1)
  }

  // ---------------------------------------------------------------- the node with its services

  datatype Event =
    | Health(data: bool, at: real)
    | LocalCostmap(at: real)
    | GlobalCostmap(at: real)
    | ParameterAck(reply: Reply)
    | ClearAck(threw: bool)
    | Tick(ready: bool, readyAgain: bool, at: real)

  datatype Answer = Parameters(ok: bool) | Cleared(ok: bool)

  /**
   The supervisor, the requests its services have not answered yet, and the answers given to the current switch.
   */
  datatype World = World(
    sup: State, now: real, parametersOut: nat, clearsOut: nat, answers: seq<Answer>)

  function Later(now: real, at: real): real {
    if at > now then at else now
  }

  function Sent(w: World, s: State): World {
    if s.phase == SetParameters && w.sup.phase != SetParameters then
      w.(sup := s, parametersOut := w.parametersOut + 2, answers := [])
    else if s.phase == ClearCostmaps && w.sup.phase != ClearCostmaps then
      w.(sup := s, clearsOut := w.clearsOut + 2)
    else w.(sup := s)
  }

  /** A service answers each request at most once, so an answer nobody waits for does not happen. */
  function Step(cfg: Settings, w: World, e: Event): World {
    match e
    case Health(data, at) =>
      var now := Later(w.now, at);
      w.(now := now, sup := w.sup.(rawHealth := data, lastHealth := now))
    case LocalCostmap(at) =>
      var now := Later(w.now, at);
      w.(now := now, sup := w.sup.(lastLocal := now))
    case GlobalCostmap(at) =>
      var now := Later(w.now, at);
      w.(now := now, sup := w.sup.(lastGlobal := now))
    case ParameterAck(reply) =>
      if w.parametersOut == 0 then w
      else w.(parametersOut := w.parametersOut - 1, answers := w.answers + [Parameters(Succeeded(reply))],
              sup := Acknowledged(w.sup, Succeeded(reply)))
    case ClearAck(threw) =>
      if w.clearsOut == 0 then w
      else w.(clearsOut := w.clearsOut - 1, answers := w.answers + [Cleared(!threw)],
              sup := Acknowledged(w.sup, !threw))
    case Tick(ready, readyAgain, at) =>
      var now := Later(w.now, at);
      Sent(w.(now := now), Ticked(cfg, w.sup, ready, readyAgain, now))
  }

  function Boot(now: real): World {
    World(START, now, 0, 0, [])
  }

  function Run(cfg: Settings, boot: real, events: seq<Event>): World {
    if events == [] then Boot(boot)
    else Step(cfg, Run(cfg, boot, events[..|events| - 1]), events[|events| - 1])
  }

  // ---------------------------------------------------------------- what every run keeps

  predicate AllOk(answers: seq<Answer>) {
    forall a :: a in answers ==> a.ok
  }

  function Given(w: World): nat {
    |w.answers|
  }

  /** Which answers the current phase can have seen. */
  predicate AnswersFit(w: World) {
    match w.sup.phase
    case SetParameters =>
      w.clearsOut == 0 && Given(w) + w.parametersOut == 2 && (forall a :: a in w.answers ==> a.Parameters?)
    case ClearCostmaps =>
      w.parametersOut == 0 && Given(w) + w.clearsOut == 4 && ParametersThenClears(w.answers)
    case Rebuild => w.parametersOut == w.clearsOut == 0 && Given(w) == 4 && ParametersThenClears(w.answers) && w.sup.operationOk
    case Idle => w.parametersOut == w.clearsOut == 0
    case Failed => true
  }

  predicate ParametersThenClears(answers: seq<Answer>) {
    |answers| >= 2 && forall i :: 0 <= i < |answers| ==> (answers[i].Parameters? <==> i < 2)
  }

  predicate Invariant(w: World) {
    && (w.sup.allowed <==> w.sup.phase == Idle)
    && w.sup.pending == w.parametersOut + w.clearsOut
    && (w.sup.phase.SetParameters? || w.sup.phase.ClearCostmaps? || w.sup.phase.Rebuild? ==>
          (w.sup.operationOk <==> AllOk(w.answers)))
    && (w.sup.initialSync ==> !w.sup.active)
    && AnswersFit(w)
  }

  lemma BootKeeps(now: real)
    ensures Invariant(Boot(now))
  {}

  lemma AnswerAdds(answers: seq<Answer>, a: Answer)
    ensures AllOk(answers + [a]) <==> AllOk(answers) && a.ok
  {
    assert a in answers + [a];
    assert forall b :: b in answers ==> b in answers + [a];
  }

  lemma AckKeeps(cfg: Settings, w: World, e: Event)
    requires Invariant(w) && (e.ParameterAck? || e.ClearAck?)
    ensures Invariant(Step(cfg, w, e))
  {
    if e.ParameterAck? {
      AnswerAdds(w.answers, Parameters(Succeeded(e.reply)));
    } else {
      AnswerAdds(w.answers, Cleared(!e.threw));
    }
  }

  /** The phase changes one tick can make. */
  predicate Moves(s: State, t: State) {
    match t.phase
    case Failed => true
    case Idle => ((s.phase == Idle && t.active == s.active) || s.phase == Rebuild) && t.pending == s.pending
    case SetParameters =>
      if s.phase == SetParameters then t.pending == s.pending && t.operationOk == s.operationOk
      else (s.phase == Idle || s.phase == Rebuild) && t.pending == 2 && t.operationOk
    case ClearCostmaps =>
      t.operationOk == s.operationOk &&
      if s.phase == ClearCostmaps then t.pending == s.pending
      else s.phase == SetParameters && s.pending == 0 && s.operationOk && t.pending == 2
    case Rebuild =>
      t.pending == s.pending && t.operationOk == s.operationOk &&
      (s.phase == Rebuild || (s.phase == ClearCostmaps && s.pending == 0 && s.operationOk))
  }

  predicate SameHealthInputs(s: State, t: State) {
    t.rawHealth == s.rawHealth && t.lastHealth == s.lastHealth
  }

  /** What one step of a running switch can change. */
  lemma ProgressFacts(cfg: Settings, s: State, now: real)
    ensures var t := Progressed(cfg, s, now);
            && SameHealthInputs(s, t) && t.healthySince == s.healthySince
            && t.target == s.target && t.switchStarted == s.switchStarted
            && Moves(s, t) && (t.phase == SetParameters ==> s.phase == SetParameters)
            && (t.active != s.active || t.initialSync != s.initialSync || (t.phase == Idle && s.phase != Idle) ==>
                  && s.phase == Rebuild && t.active == s.target && !t.initialSync
                  && s.lastLocal > s.rebuildStarted && s.lastGlobal > s.rebuildStarted
                  && now - s.rebuildStarted >= cfg.rebuildWait)
            && (t.phase == Failed ==> t.pending == s.pending)
            && (s.phase == Failed ==> t == s)
            && (s.phase != Idle && s.phase != Failed ==>
                  (now - s.switchStarted > cfg.switchTimeout ==> t.phase == Failed && t.active == s.active))
  {}

  /** What an idle supervisor's decision can change. */
  lemma DecideFacts(cfg: Settings, s: State, healthy: bool, ready: bool, readyAgain: bool, now: real)
    requires s.phase == Idle
    ensures var t := Decided(cfg, s, healthy, ready, readyAgain, now);
            && SameHealthInputs(s, t) && t.healthySince == s.healthySince
            && t.active == s.active && t.initialSync == s.initialSync
            && (t.phase == Idle || t.phase == Failed || t.phase == SetParameters)
            && (t.allowed <==> t.phase == Idle)
            && (if t.phase == SetParameters then t.pending == 2 && t.operationOk && t.switchStarted == now
                else t.pending == s.pending)
            && (t.phase == SetParameters && t.target ==> healthy && now - s.healthySince >= cfg.recoveryStable)
            && ((s.initialSync ==> !s.active) ==>
                  (t.allowed && t.active && !healthy <==> s.active && !healthy && ready && !readyAgain))
  {}

  lemma NotedFacts(s: State, healthy: bool, now: real)
    ensures Noted(s, healthy, now) == s.(healthySince := Noted(s, healthy, now).healthySince)
  {}

  lemma TickMoves(cfg: Settings, s: State, ready: bool, readyAgain: bool, now: real)
    requires s.initialSync ==> !s.active
    ensures var t := Ticked(cfg, s, ready, readyAgain, now);
            Moves(s, t) && (t.allowed <==> t.phase == Idle) && (t.initialSync ==> !t.active) &&
            (t.phase == Failed ==> t.pending == s.pending)
  {
    hide HealthFresh, Progressed, Decided, Noted;
    var healthy := HealthFresh(cfg, s, now);
    NotedFacts(s, healthy, now);
    ProgressFacts(cfg, Noted(s, healthy, now), now);
    var progressed := Progressed(cfg, Noted(s, healthy, now), now);
    if s.phase != Failed && progressed.phase == Idle {
      DecideFacts(cfg, progressed, healthy, ready, readyAgain, now);
    }
  }

  lemma TickKeeps(cfg: Settings, w: World, e: Event)
    requires Invariant(w) && e.Tick?
    ensures Invariant(Step(cfg, w, e))
  {
    hide Ticked, HealthFresh;
    TickMoves(cfg, w.sup, e.ready, e.readyAgain, Later(w.now, e.at));
  }

  lemma StepKeeps(cfg: Settings, w: World, e: Event)
    requires Invariant(w)
    ensures Invariant(Step(cfg, w, e))
  {
    if e.Tick? {
      TickKeeps(cfg, w, e);
    } else if e.ParameterAck? || e.ClearAck? {
      AckKeeps(cfg, w, e);
    }
  }

  /**
   Over every run: motion is allowed only while idle, the pending counter is exactly the number of
   unanswered requests, and each phase has seen exactly the answers it waited for.
   */
  lemma {:induction false} RunKeeps(cfg: Settings, boot: real, events: seq<Event>)
    ensures Invariant(Run(cfg, boot, events))
    decreases |events|
  {
    hide Invariant, Step;
    if events == [] {
      BootKeeps(boot);
    } else {
      RunKeeps(cfg, boot, events[..|events| - 1]);
      StepKeeps(cfg, Run(cfg, boot, events[..|events| - 1]), events[|events| - 1]);
    }
  }

  predicate Switching(s: State) {
    s.phase.SetParameters? || s.phase.ClearCostmaps? || s.phase.Rebuild?
  }

  lemma TickFlips(cfg: Settings, s: State, ready: bool, readyAgain: bool, now: real)
    requires Ticked(cfg, s, ready, readyAgain, now).active != s.active
    ensures s.phase == Rebuild && Ticked(cfg, s, ready, readyAgain, now).active == s.target
    ensures s.lastLocal > s.rebuildStarted && s.lastGlobal > s.rebuildStarted && now - s.rebuildStarted >= cfg.rebuildWait
    ensures now - s.switchStarted <= cfg.switchTimeout
  {
    hide HealthFresh, Progressed, Decided, Noted;
    var healthy := HealthFresh(cfg, s, now);
    NotedFacts(s, healthy, now);
    ProgressFacts(cfg, Noted(s, healthy, now), now);
    var progressed := Progressed(cfg, Noted(s, healthy, now), now);
    if s.phase != Failed && progressed.phase == Idle {
      DecideFacts(cfg, progressed, healthy, ready, readyAgain, now);
    }
  }

  lemma AnswersOfARebuild(w: World)
    requires Invariant(w) && w.sup.phase == Rebuild
    ensures w.answers == [Parameters(true), Parameters(true), Cleared(true), Cleared(true)]
  {
    assert forall i :: 0 <= i < |w.answers| ==> w.answers[i] in w.answers;
  }

  /**
   The depth layer's flag changes only after both parameter acknowledgements and both clear
   acknowledgements came back good and both costmaps were published since the rebuild began.
   */
  lemma FlipNeedsEverything(cfg: Settings, boot: real, events: seq<Event>, e: Event)
    requires var w := Run(cfg, boot, events); Step(cfg, w, e).sup.active != w.sup.active
    ensures var w := Run(cfg, boot, events);
            && e.Tick? && w.sup.phase == Rebuild && Step(cfg, w, e).sup.active == w.sup.target
            && w.answers == [Parameters(true), Parameters(true), Cleared(true), Cleared(true)]
            && w.sup.lastLocal > w.sup.rebuildStarted && w.sup.lastGlobal > w.sup.rebuildStarted
            && Step(cfg, w, e).now - w.sup.rebuildStarted >= cfg.rebuildWait
            && Step(cfg, w, e).now - w.sup.switchStarted <= cfg.switchTimeout
  {
    hide Run, HealthFresh, Ticked, Invariant;
    var w := Run(cfg, boot, events);
    RunKeeps(cfg, boot, events);
    if e.Tick? {
      TickFlips(cfg, w.sup, e.ready, e.readyAgain, Later(w.now, e.at));
      AnswersOfARebuild(w);
    }
  }

  /** A bad answer fails the switch once all have come, and stops the vehicle. */
  lemma BadAnswerStops(cfg: Settings, boot: real, events: seq<Event>, e: Event)
    requires var w := Run(cfg, boot, events);
             e.Tick? && w.sup.pending == 0 && (w.sup.phase == SetParameters || w.sup.phase == ClearCostmaps) &&
             exists a :: a in w.answers && !a.ok
    ensures var s := Step(cfg, Run(cfg, boot, events), e).sup; s.phase == Failed && !s.allowed
  {
    hide Run, Ticked, Invariant;
    RunKeeps(cfg, boot, events);
    var w := Run(cfg, boot, events);
    BadAnswerCounts(w);
    BadAnswersFail(cfg, w.sup, e.ready, e.readyAgain, Later(w.now, e.at));
  }

  lemma BadAnswerCounts(w: World)
    requires Invariant(w) && (w.sup.phase == SetParameters || w.sup.phase == ClearCostmaps)
    ensures (exists a :: a in w.answers && !a.ok) ==> !w.sup.operationOk
  {}

  lemma BadAnswersFail(cfg: Settings, s: State, ready: bool, readyAgain: bool, now: real)
    requires s.pending == 0 && (s.phase == SetParameters || s.phase == ClearCostmaps) && !s.operationOk
    ensures var t := Ticked(cfg, s, ready, readyAgain, now); t.phase == Failed && !t.allowed
  {
    hide HealthFresh, Noted, Decided;
    NotedFacts(s, HealthFresh(cfg, s, now), now);
  }

  /** A reply that threw, says nothing or refuses a parameter. */
  predicate BadReply(reply: Reply) {
    reply.Threw? || |reply.verdicts| == 0 || exists i :: 0 <= i < |reply.verdicts| && !reply.verdicts[i]
  }

  /** In every run a reply to a parameter request, or a clearing that throws, counts against the switch exactly when it is bad. */
  lemma RepliesCount(cfg: Settings, boot: real, events: seq<Event>, e: Event)
    requires e.ParameterAck? ==> Run(cfg, boot, events).parametersOut > 0
    requires e.ClearAck? ==> Run(cfg, boot, events).clearsOut > 0
    requires e.ParameterAck? || e.ClearAck?
    ensures var w := Run(cfg, boot, events); var v := Step(cfg, w, e);
            && |v.answers| == |w.answers| + 1 && v.sup.pending == w.sup.pending - 1
            && (v.answers[|w.answers|].ok <==> if e.ParameterAck? then !BadReply(e.reply) else !e.threw)
            && (v.sup.operationOk <==> w.sup.operationOk && if e.ParameterAck? then !BadReply(e.reply) else !e.threw)
  {
    hide Run;
  }

  lemma FailedIsStopped(w: World)
    requires Invariant(w)
    ensures w.sup.phase == Failed ==> !w.sup.allowed
  {}

  lemma TickedFailed(cfg: Settings, s: State, ready: bool, readyAgain: bool, now: real)
    requires s.phase == Failed
    ensures Ticked(cfg, s, ready, readyAgain, now).phase == Failed
  {
    hide HealthFresh, Progressed, Decided;
  }

  lemma FailedStays(cfg: Settings, w: World, e: Event)
    requires w.sup.phase == Failed
    ensures Step(cfg, w, e).sup.phase == Failed
  {
    hide Ticked;
    if e.Tick? {
      TickedFailed(cfg, w.sup, e.ready, e.readyAgain, Later(w.now, e.at));
    }
  }

  /** Once a switch has failed the vehicle stays stopped, whatever happens later. */
  lemma {:induction false} FailedForever(cfg: Settings, boot: real, events: seq<Event>, more: seq<Event>)
    requires Run(cfg, boot, events).sup.phase == Failed
    ensures Run(cfg, boot, events + more).sup.phase == Failed && !Run(cfg, boot, events + more).sup.allowed
    decreases |more|
  {
    hide Step, Invariant;
    RunKeeps(cfg, boot, events + more);
    FailedIsStopped(Run(cfg, boot, events + more));
    if more == [] {
      assert events + more == events;
    } else {
      FailedForever(cfg, boot, events, more[..|more| - 1]);
      FailedStays(cfg, Run(cfg, boot, events + more[..|more| - 1]), more[|more| - 1]);
      assert (events + more)[..|events + more| - 1] == events + more[..|more| - 1];
    }
  }

  lemma TickInTime(cfg: Settings, s: State, ready: bool, readyAgain: bool, now: real)
    requires cfg.switchTimeout > 0.0
    ensures var t := Ticked(cfg, s, ready, readyAgain, now);
            (Switching(t) ==> now - t.switchStarted <= cfg.switchTimeout) &&
            (Switching(s) && now - s.switchStarted > cfg.switchTimeout ==> t.phase == Failed)
  {
    hide HealthFresh, Progressed, Decided, Noted;
    var healthy := HealthFresh(cfg, s, now);
    NotedFacts(s, healthy, now);
    ProgressFacts(cfg, Noted(s, healthy, now), now);
    var progressed := Progressed(cfg, Noted(s, healthy, now), now);
    if s.phase != Failed && progressed.phase == Idle {
      DecideFacts(cfg, progressed, healthy, ready, readyAgain, now);
    }
  }

  /** No tick leaves a switch running that has outlived its timeout. */
  lemma NoSwitchOutlivesItsTimeout(cfg: Settings, w: World, e: Event)
    requires e.Tick? && cfg.switchTimeout > 0.0
    ensures var after := Step(cfg, w, e);
            Switching(after.sup) ==> after.now - after.sup.switchStarted <= cfg.switchTimeout
    ensures Switching(w.sup) && Later(w.now, e.at) - w.sup.switchStarted > cfg.switchTimeout ==>
              Step(cfg, w, e).sup.phase == Failed
  {
    hide Ticked, HealthFresh;
    TickInTime(cfg, w.sup, e.ready, e.readyAgain, Later(w.now, e.at));
  }

  // ---------------------------------------------------------------- the camera's health, told by its messages

  /** The last health message. */
  function LatestHealth(events: seq<Event>): (k: Option<nat>)
    ensures k.None? ==> forall i :: 0 <= i < |events| ==> !events[i].Health?
    ensures k.Some? ==> k.value < |events| && events[k.value].Health?
    ensures k.Some? ==> forall i :: k.value < i < |events| ==> !events[i].Health?
  {
    if events == [] then None
    else if events[|events| - 1].Health? then Some(|events| - 1)
    else LatestHealth(events[..|events| - 1])
  }

  /** The clock when event k had happened. */
  function Moment(cfg: Settings, boot: real, events: seq<Event>, k: nat): real
    requires k < |events|
  {
    Run(cfg, boot, events[..k + 1]).now
  }

  /** The last health message said so, and is recent. The clock's epoch stands for no message. */
  predicate CameraHealthy(cfg: Settings, boot: real, events: seq<Event>, now: real) {
    var k := LatestHealth(events);
    k.Some? && events[k.value].data && Moment(cfg, boot, events, k.value) != 0.0 &&
    now - Moment(cfg, boot, events, k.value) <= cfg.healthTimeout
  }

  lemma {:induction false} HealthIsTold(cfg: Settings, boot: real, events: seq<Event>)
    ensures var s, k := Run(cfg, boot, events).sup, LatestHealth(events);
            if k.None? then !s.rawHealth && s.lastHealth == 0.0
            else s.rawHealth == events[k.value].data && s.lastHealth == Moment(cfg, boot, events, k.value)
    decreases |events|
  {
    hide Ticked;
    if events != [] {
      var n := |events| - 1;
      HealthIsTold(cfg, boot, events[..n]);
      assert events[..n + 1] == events;
      var k, e := LatestHealth(events[..n]), events[n];
      if k.Some? {
        assert events[..n][..k.value + 1] == events[..k.value + 1];
      }
      if e.Tick? {
        var w := Run(cfg, boot, events[..n]);
        TickKeepsHealthInputs(cfg, w.sup, e.ready, e.readyAgain, Later(w.now, e.at));
      }
    }
  }

  /** In every run the supervisor takes the camera for healthy exactly when its last message says so and is recent. */
  lemma HealthMeansMessages(cfg: Settings, boot: real, events: seq<Event>, now: real)
    ensures HealthFresh(cfg, Run(cfg, boot, events).sup, now) <==> CameraHealthy(cfg, boot, events, now)
  {
    hide Run;
    HealthIsTold(cfg, boot, events);
  }

  /** The tick found the interfaces ready, lost camera health with depth on, and then found them not ready. */
  predicate DegradeRaced(cfg: Settings, s: State, healthy: bool, ready: bool, readyAgain: bool, now: real) {
    var progressed := Progressed(cfg, Noted(s, healthy, now), now);
    s.phase != Failed && progressed.phase == Idle && progressed.active && !healthy && ready && !readyAgain
  }

  /**
   After a tick, motion with the depth layer on but an unhealthy camera is allowed exactly when the
   degrading tick's second interface check contradicted its first.
   */
  lemma DepthMotionNeedsHealth(cfg: Settings, boot: real, events: seq<Event>, e: Event)
    requires e.Tick?
    ensures var w := Run(cfg, boot, events); var after := Step(cfg, w, e);
            (after.sup.allowed && after.sup.active && !CameraHealthy(cfg, boot, events, after.now)) <==>
            DegradeRaced(cfg, w.sup, CameraHealthy(cfg, boot, events, after.now), e.ready, e.readyAgain, after.now)
  {
    hide Run, CameraHealthy;
    RunKeeps(cfg, boot, events);
    HealthMeansMessages(cfg, boot, events, Later(Run(cfg, boot, events).now, e.at));
    var w := Run(cfg, boot, events);
    var now := Later(w.now, e.at);
    TickKeepsHealthInputs(cfg, w.sup, e.ready, e.readyAgain, now);
    hide HealthFresh;
    TickVerdict(cfg, w.sup, e.ready, e.readyAgain, now);
  }

  lemma TickKeepsHealthInputs(cfg: Settings, s: State, ready: bool, readyAgain: bool, now: real)
    ensures SameHealthInputs(s, Ticked(cfg, s, ready, readyAgain, now))
  {
    hide HealthFresh, Progressed, Decided, Noted;
    var healthy := HealthFresh(cfg, s, now);
    NotedFacts(s, healthy, now);
    ProgressFacts(cfg, Noted(s, healthy, now), now);
    var progressed := Progressed(cfg, Noted(s, healthy, now), now);
    if s.phase != Failed && progressed.phase == Idle {
      DecideFacts(cfg, progressed, healthy, ready, readyAgain, now);
    }
  }

  lemma TickVerdict(cfg: Settings, s: State, ready: bool, readyAgain: bool, now: real)
    requires s.initialSync ==> !s.active
    ensures var t := Ticked(cfg, s, ready, readyAgain, now);
            t.allowed && t.active && !HealthFresh(cfg, s, now) <==>
            DegradeRaced(cfg, s, HealthFresh(cfg, s, now), ready, readyAgain, now)
  {
    hide HealthFresh, Progressed, Decided, Noted;
    var healthy := HealthFresh(cfg, s, now);
    NotedFacts(s, healthy, now);
    ProgressFacts(cfg, Noted(s, healthy, now), now);
    var progressed := Progressed(cfg, Noted(s, healthy, now), now);
    if s.phase != Failed && progressed.phase == Idle {
      DecideFacts(cfg, progressed, healthy, ready, readyAgain, now);
    }
  }

  // ---------------------------------------------------------------- a run in which the checks disagree

  /** The parameters' default values. */
  const DEFAULTS := Settings(0.5, 3.0, 1.0, 5.0)

  lemma RunExtends(cfg: Settings, boot: real, events: seq<Event>, e: Event)
    ensures Run(cfg, boot, events + [e]) == Step(cfg, Run(cfg, boot, events), e)
  {
    assert (events + [e])[..|events|] == events;
  }

  /** A switch has been asked for and nothing has answered yet. */
  predicate JustBegun(w: World) {
    && w.sup.phase == SetParameters && w.sup.pending == 2 && w.sup.operationOk
    && w.parametersOut == 2 && w.clearsOut == 0 && w.now - w.sup.switchStarted <= DEFAULTS.switchTimeout
  }

  /** Both costmaps have been published since the rebuild began. */
  predicate Rebuilt(w: World) {
    && w.sup.phase == Rebuild && w.sup.pending == 0 && w.parametersOut == w.clearsOut == 0
    && w.sup.rebuildStarted < w.sup.lastLocal == w.sup.lastGlobal == w.now == w.sup.rebuildStarted + 0.1
  }

  predicate SameSwitch(w: World, v: World) {
    && v.sup.rawHealth == w.sup.rawHealth && v.sup.lastHealth == w.sup.lastHealth && v.sup.active == w.sup.active
    && v.sup.target == w.sup.target && v.sup.switchStarted == w.sup.switchStarted
  }

  /** Two good answers to parameter requests, and two to clear requests. */
  lemma TwoAnswers(w: World)
    requires w.sup.pending == 2 && w.sup.operationOk
    ensures var done := ParameterAck(Results([true]));
            w.parametersOut == 2 ==>
              var v := Step(DEFAULTS, Step(DEFAULTS, w, done), done);
              v.sup == w.sup.(pending := 0) && v.parametersOut == 0 && v.clearsOut == w.clearsOut && v.now == w.now
    ensures w.clearsOut == 2 ==>
              var v := Step(DEFAULTS, Step(DEFAULTS, w, ClearAck(false)), ClearAck(false));
              v.sup == w.sup.(pending := 0) && v.clearsOut == 0 && v.parametersOut == w.parametersOut && v.now == w.now
  {
    hide Ticked, HealthFresh, Sent;
  }

  /** Then the switch goes on to the next phase. */
  lemma GoesOn(w: World)
    requires w.sup.pending == 0 && w.sup.operationOk && w.now - w.sup.switchStarted <= DEFAULTS.switchTimeout
    ensures var v := Step(DEFAULTS, w, Tick(true, true, w.now));
            && (w.sup.phase == SetParameters ==>
                  v.sup.phase == ClearCostmaps && v.sup.pending == 2 && v.sup.operationOk && v.now == w.now &&
                  v.parametersOut == w.parametersOut && v.clearsOut == w.clearsOut + 2 && SameSwitch(w, v))
            && (w.sup.phase == ClearCostmaps ==>
                  v.sup.phase == Rebuild && v.sup.pending == 0 && v.sup.rebuildStarted == w.now && v.now == w.now &&
                  v.parametersOut == w.parametersOut && v.clearsOut == w.clearsOut && SameSwitch(w, v))
  {
    hide HealthFresh, Noted, Decided;
    NotedFacts(w.sup, HealthFresh(DEFAULTS, w.sup, w.now), w.now);
  }

  /** Every service answers well, and the costmaps follow. */
  lemma Cooperates(boot: real, events: seq<Event>) returns (more: seq<Event>)
    requires JustBegun(Run(DEFAULTS, boot, events))
    ensures var w, v := Run(DEFAULTS, boot, events), Run(DEFAULTS, boot, more);
            Rebuilt(v) && SameSwitch(w, v) && v.now == w.now + 0.1
  {
    hide Run, HealthFresh, Ticked, Sent;
    var w := Run(DEFAULTS, boot, events);
    var done, clear, tick := ParameterAck(Results([true])), ClearAck(false), Tick(true, true, w.now);
    var local, global := LocalCostmap(w.now + 0.1), GlobalCostmap(w.now + 0.1);
    TwoAnswers(w);
    var answered := Step(DEFAULTS, Step(DEFAULTS, w, done), done);
    GoesOn(answered);
    var clearing := Step(DEFAULTS, answered, tick);
    TwoAnswers(clearing);
    GoesOn(Step(DEFAULTS, Step(DEFAULTS, clearing, clear), clear));
    more := events + [done] + [done] + [tick] + [clear] + [clear] + [tick] + [local] + [global];
    RunExtends(DEFAULTS, boot, events, done);
    RunExtends(DEFAULTS, boot, events + [done], done);
    RunExtends(DEFAULTS, boot, events + [done] + [done], tick);
    RunExtends(DEFAULTS, boot, events + [done] + [done] + [tick], clear);
    RunExtends(DEFAULTS, boot, events + [done] + [done] + [tick] + [clear], clear);
    RunExtends(DEFAULTS, boot, events + [done] + [done] + [tick] + [clear] + [clear], tick);
    RunExtends(DEFAULTS, boot, events + [done] + [done] + [tick] + [clear] + [clear] + [tick], local);
    RunExtends(DEFAULTS, boot, events + [done] + [done] + [tick] + [clear] + [clear] + [tick] + [local], global);
  }

  /** After the first synchronization a healthy camera turns depth on. */
  lemma DepthComesOn() returns (events: seq<Event>)
    ensures var w := Run(DEFAULTS, 1.0, events);
            JustBegun(w) && w.sup.target && w.now == w.sup.switchStarted && w.sup.lastHealth == w.now
  {
    hide Run;
    var sync := Tick(true, true, 1.0);
    RunExtends(DEFAULTS, 1.0, [], sync);
    assert Run(DEFAULTS, 1.0, []) == Boot(1.0) by { BootRuns(DEFAULTS, 1.0); }
    assert [] + [sync] == [sync];
    events := Cooperates(1.0, [sync]);
    RunExtends(DEFAULTS, 1.0, events, Tick(true, true, 3.0));
    events := events + [Tick(true, true, 3.0)];
    assert Run(DEFAULTS, 1.0, events).sup.phase == Idle && !Run(DEFAULTS, 1.0, events).sup.active;
    RunExtends(DEFAULTS, 1.0, events, Health(true, 3.0));
    RunExtends(DEFAULTS, 1.0, events + [Health(true, 3.0)], Tick(true, true, 3.0));
    events := events + [Health(true, 3.0)] + [Tick(true, true, 3.0)];
    assert Run(DEFAULTS, 1.0, events).sup.healthySince == 3.0;
    RunExtends(DEFAULTS, 1.0, events, Health(true, 6.0));
    RunExtends(DEFAULTS, 1.0, events + [Health(true, 6.0)], Tick(true, true, 6.0));
    events := events + [Health(true, 6.0)] + [Tick(true, true, 6.0)];
  }

  lemma BootRuns(cfg: Settings, boot: real)
    ensures Run(cfg, boot, []) == Boot(boot)
  {}

  /** The camera falls silent during the rebuild, and the interfaces vanish between the last tick's two checks. */
  lemma DisagreementHappens() returns (events: seq<Event>)
    ensures var w := Run(DEFAULTS, 1.0, events);
            w.sup.allowed && w.sup.active && !CameraHealthy(DEFAULTS, 1.0, events, w.now)
  {
    hide Run, CameraHealthy;
    var on := DepthComesOn();
    var rebuilt := Cooperates(1.0, on);
    var w := Run(DEFAULTS, 1.0, rebuilt);
    var last := Tick(true, false, w.now + 1.0);
    RunExtends(DEFAULTS, 1.0, rebuilt, last);
    events := rebuilt + [last];
    HealthMeansMessages(DEFAULTS, 1.0, events, Run(DEFAULTS, 1.0, events).now);
  }

  // ---------------------------------------------------------------- depth comes back only after stable health

  /** Every tick since the supervisor last began to count good health saw a healthy camera. */
  predicate HealthyThroughout(cfg: Settings, boot: real, events: seq<Event>, since: real) {
    forall k :: 0 <= k < |events| && events[k].Tick? && Moment(cfg, boot, events, k) > since ==>
      CameraHealthy(cfg, boot, events[..k], Moment(cfg, boot, events, k))
  }

  lemma TickedSince(cfg: Settings, s: State, ready: bool, readyAgain: bool, now: real)
    ensures Ticked(cfg, s, ready, readyAgain, now).healthySince == Noted(s, HealthFresh(cfg, s, now), now).healthySince
    ensures var t := Ticked(cfg, s, ready, readyAgain, now);
            t.phase == SetParameters && s.phase != SetParameters && t.target ==>
              HealthFresh(cfg, s, now) && now - t.healthySince >= cfg.recoveryStable
  {
    hide HealthFresh, Progressed, Decided, Noted;
    var healthy := HealthFresh(cfg, s, now);
    NotedFacts(s, healthy, now);
    ProgressFacts(cfg, Noted(s, healthy, now), now);
    var progressed := Progressed(cfg, Noted(s, healthy, now), now);
    if s.phase != Failed && progressed.phase == Idle {
      DecideFacts(cfg, progressed, healthy, ready, readyAgain, now);
    }
  }

  lemma EarlierTicks(cfg: Settings, boot: real, events: seq<Event>, since: real)
    requires events != [] && HealthyThroughout(cfg, boot, events[..|events| - 1], since)
    ensures forall k :: 0 <= k < |events| - 1 && events[k].Tick? && Moment(cfg, boot, events, k) > since ==>
              CameraHealthy(cfg, boot, events[..k], Moment(cfg, boot, events, k))
  {
    hide Run, CameraHealthy;
    var earlier := events[..|events| - 1];
    forall k | 0 <= k < |events| - 1 && events[k].Tick? && Moment(cfg, boot, events, k) > since
      ensures CameraHealthy(cfg, boot, events[..k], Moment(cfg, boot, events, k))
    {
      assert earlier[..k + 1] == events[..k + 1] && earlier[..k] == events[..k] && earlier[k] == events[k];
    }
  }

  lemma StepsForward(cfg: Settings, boot: real, events: seq<Event>)
    requires events != []
    ensures Run(cfg, boot, events).now >= Run(cfg, boot, events[..|events| - 1]).now
  {
    StepForward(cfg, Run(cfg, boot, events[..|events| - 1]), events[|events| - 1]);
    hide Step;
  }

  lemma StepForward(cfg: Settings, w: World, e: Event)
    ensures Step(cfg, w, e).now >= w.now
  {
    hide Ticked;
  }

  lemma {:induction false} ClockForward(cfg: Settings, boot: real, events: seq<Event>, k: nat)
    requires k < |events|
    ensures Moment(cfg, boot, events, k) <= Run(cfg, boot, events).now
    decreases |events|
  {
    hide Step;
    StepsForward(cfg, boot, events);
    var n := |events| - 1;
    if k == n {
      assert events[..k + 1] == events;
    } else {
      ClockForward(cfg, boot, events[..n], k);
      assert events[..n][..k + 1] == events[..k + 1];
    }
  }

  lemma SinceStep(cfg: Settings, w: World, e: Event)
    ensures var v := Step(cfg, w, e);
            && (v.sup.healthySince != 0.0 ==> v.sup.healthySince == w.sup.healthySince || v.sup.healthySince == v.now)
            && (e.Tick? && v.sup.healthySince != 0.0 ==> HealthFresh(cfg, w.sup, v.now))
  {
    hide Ticked, HealthFresh;
    if e.Tick? {
      TickedSince(cfg, w.sup, e.ready, e.readyAgain, Later(w.now, e.at));
    }
  }

  /** The last event, if it is a tick that sees a healthy camera, goes with the earlier ones. */
  lemma LastTickToo(cfg: Settings, boot: real, events: seq<Event>, since: real)
    requires events != [] && HealthyThroughout(cfg, boot, events[..|events| - 1], since)
    requires events[|events| - 1].Tick? ==> CameraHealthy(cfg, boot, events[..|events| - 1], Run(cfg, boot, events).now)
    ensures HealthyThroughout(cfg, boot, events, since)
  {
    hide Run, CameraHealthy;
    EarlierTicks(cfg, boot, events, since);
    assert events[..|events| - 1 + 1] == events;
  }

  lemma {:induction false} StableSince(cfg: Settings, boot: real, events: seq<Event>)
    ensures var s := Run(cfg, boot, events).sup; s.healthySince != 0.0 ==> HealthyThroughout(cfg, boot, events, s.healthySince)
    decreases |events|
  {
    hide Step, HealthFresh, CameraHealthy, HealthyThroughout;
    if events != [] {
      var n := |events| - 1;
      var w, v := Run(cfg, boot, events[..n]), Run(cfg, boot, events);
      StableSince(cfg, boot, events[..n]);
      SinceStep(cfg, w, events[n]);
      if v.sup.healthySince != 0.0 && v.sup.healthySince == w.sup.healthySince {
        HealthMeansMessages(cfg, boot, events[..n], v.now);
        LastTickToo(cfg, boot, events, v.sup.healthySince);
      } else if v.sup.healthySince != 0.0 {
        NothingLater(cfg, boot, events);
      }
    } else {
      StartsUnstable(cfg, boot);
    }
  }

  lemma StartsUnstable(cfg: Settings, boot: real)
    ensures Run(cfg, boot, []).sup.healthySince == 0.0
  {}

  /** No event has happened after the last. */
  lemma NothingLater(cfg: Settings, boot: real, events: seq<Event>)
    ensures HealthyThroughout(cfg, boot, events, Run(cfg, boot, events).now)
  {
    hide Run, CameraHealthy;
    forall k | 0 <= k < |events|
      ensures !(Moment(cfg, boot, events, k) > Run(cfg, boot, events).now)
    {
      ClockForward(cfg, boot, events, k);
    }
  }

  /** A switch that turns depth on begins only when every tick of the whole stability window saw a healthy camera. */
  lemma EnablingNeedsStableHealth(cfg: Settings, boot: real, events: seq<Event>, e: Event)
    requires cfg.recoveryStable > 0.0
    requires var w := Run(cfg, boot, events); var after := Step(cfg, w, e);
             w.sup.phase != SetParameters && after.sup.phase == SetParameters && after.sup.target
    ensures HealthyThroughout(cfg, boot, events + [e], Run(cfg, boot, events + [e]).now - cfg.recoveryStable)
  {
    hide Run, Step, HealthyThroughout;
    RunExtends(cfg, boot, events, e);
    StableSince(cfg, boot, events + [e]);
    EnablesLate(cfg, Run(cfg, boot, events), e);
    var after := Run(cfg, boot, events + [e]);
    HealthyFromLater(cfg, boot, events + [e], after.sup.healthySince, after.now - cfg.recoveryStable);
  }

  lemma HealthyFromLater(cfg: Settings, boot: real, events: seq<Event>, since: real, later: real)
    requires HealthyThroughout(cfg, boot, events, since) && since <= later
    ensures HealthyThroughout(cfg, boot, events, later)
  {
    hide Moment, CameraHealthy;
  }

  lemma EnablesLate(cfg: Settings, w: World, e: Event)
    requires cfg.recoveryStable > 0.0
    requires var after := Step(cfg, w, e);
             w.sup.phase != SetParameters && after.sup.phase == SetParameters && after.sup.target
    ensures var after := Step(cfg, w, e);
            after.now - after.sup.healthySince >= cfg.recoveryStable && after.sup.healthySince != 0.0
  {
    hide Ticked, HealthFresh, Noted;
    assert e.Tick?;
    var now := Later(w.now, e.at);
    TickedSince(cfg, w.sup, e.ready, e.readyAgain, now);
    NotedNever(w.sup, HealthFresh(cfg, w.sup, now), now);
  }

  lemma NotedNever(s: State, healthy: bool, now: real)
    ensures healthy && Noted(s, healthy, now).healthySince == 0.0 ==> now == 0.0
  {}

  // ---------------------------------------------------------------- the node

  class DepthLayerSupervisor {
    const settings: Settings
    var rawHealth: bool
    var lastHealthReceived: real
    var healthySince: real
    var phase: Phase
    var pending: int
    var operationOk: bool
    var activeEnabled: bool
    var targetEnabled: bool
    var motionAllowed: bool
    var initialSyncNeeded: bool
    var switchStarted: real
    var rebuildStarted: real
    var lastLocalCostmap: real
    var lastGlobalCostmap: real

    function Value(): State
      reads this
    {
      State(rawHealth, lastHealthReceived, healthySince, phase, pending, operationOk, activeEnabled, targetEnabled,
            motionAllowed, initialSyncNeeded, switchStarted, rebuildStarted, lastLocalCostmap, lastGlobalCostmap)
    }

    constructor (settings: Settings)
      ensures this.settings == settings && Value() == START
    {
      this.settings := settings;
      rawHealth, lastHealthReceived, healthySince := false, 0.0, 0.0;
      phase, pending, operationOk := Idle, 0, true;
      activeEnabled, targetEnabled, motionAllowed, initialSyncNeeded := false, false, true, true;
      switchStarted, rebuildStarted, lastLocalCostmap, lastGlobalCostmap := 0.0, 0.0, 0.0, 0.0;
    }

    method OnHealth(data: bool, now: real)
      modifies `rawHealth, `lastHealthReceived
      ensures Value() == old(Value()).(rawHealth := data, lastHealth := now)
    {
      rawHealth := data;
      lastHealthReceived := now;
    }

    method OnLocalCostmap(now: real)
      modifies `lastLocalCostmap
      ensures Value() == old(Value()).(lastLocal := now)
    {
      lastLocalCostmap := now;
    }

    method OnGlobalCostmap(now: real)
      modifies `lastGlobalCostmap
      ensures Value() == old(Value()).(lastGlobal := now)
    {
      lastGlobalCostmap := now;
    }

    method OnParameterReply(reply: Reply)
      modifies `operationOk, `pending
      ensures Value() == Acknowledged(old(Value()), Succeeded(reply))
    {
      match reply {
        case Threw =>
          operationOk := false;
        case Results(verdicts) =>
          if verdicts == [] {
            operationOk := false;
          }
          for i := 0 to |verdicts|
            invariant operationOk == (old(operationOk) && verdicts != [] && false !in verdicts[..i])
            modifies `operationOk
          {
            assert verdicts[..i + 1] == verdicts[..i] + [verdicts[i]];
            if !verdicts[i] {
              operationOk := false;
            }
          }
          assert verdicts[..|verdicts|] == verdicts;
      }
      pending := pending - 1;
    }

    method OnClearReply(threw: bool)
      modifies `operationOk, `pending
      ensures Value() == Acknowledged(old(Value()), !threw)
    {
      if threw {
        operationOk := false;
      }
      pending := pending - 1;
    }

    method PublishAllowed(allow: bool)
      modifies `motionAllowed
      ensures motionAllowed == allow
    {
      motionAllowed := allow;
    }

    method BeginSwitch(enable: bool, ready: bool, now: real)
      modifies `targetEnabled, `phase, `switchStarted, `pending, `operationOk, `motionAllowed
      ensures Value() == Begun(old(Value()), enable, ready, now)
    {
      if phase != Idle || !ready {
        return;
      }
      targetEnabled := enable;
      phase := SetParameters;
      switchStarted := now;
      pending := 2;
      operationOk := true;
      PublishAllowed(false);
    }

    method BeginClear()
      modifies `phase, `pending
      ensures Value() == old(Value()).(phase := ClearCostmaps, pending := 2)
    {
      phase := ClearCostmaps;
      pending := 2;
    }

    method FailSwitch()
      modifies `phase, `motionAllowed
      ensures Value() == Stopped(old(Value()))
    {
      phase := Failed;
      PublishAllowed(false);
    }

    method TickSwitch(now: real)
      modifies `phase, `pending, `motionAllowed, `rebuildStarted, `activeEnabled, `initialSyncNeeded
      ensures Value() == Progressed(settings, old(Value()), now)
    {
      if phase == Idle || phase == Failed {
        return;
      }
      if now - switchStarted > settings.switchTimeout {
        FailSwitch();
        return;
      }
      if phase == SetParameters && pending == 0 {
        if !operationOk {
          FailSwitch();
        } else {
          BeginClear();
        }
        return;
      }
      if phase == ClearCostmaps && pending == 0 {
        if !operationOk {
          FailSwitch();
        } else {
          phase := Rebuild;
          rebuildStarted := now;
        }
        return;
      }
      if phase == Rebuild && now - rebuildStarted >= settings.rebuildWait &&
         lastLocalCostmap > rebuildStarted && lastGlobalCostmap > rebuildStarted {
        activeEnabled := targetEnabled;
        phase := Idle;
        initialSyncNeeded := false;
        PublishAllowed(true);
      }
    }

    /** The timer; the two flags answer the two interface checks a tick can make, in order. */
    method Tick(ready: bool, readyAgain: bool, now: real)
      modifies this
      ensures Value() == Ticked(settings, old(Value()), ready, readyAgain, now)
    {
      hide Progressed, Begun;
      var healthy := rawHealth && lastHealthReceived != 0.0 && now - lastHealthReceived <= settings.healthTimeout;
      if healthy {
        if healthySince == 0.0 {
          healthySince := now;
        }
      } else {
        healthySince := 0.0;
      }
      assert Value() == Noted(old(Value()), healthy, now);
      if phase == Failed {
        PublishAllowed(false);
        return;
      }
      TickSwitch(now);
      if phase != Idle {
        PublishAllowed(false);
        return;
      }
      Decide(healthy, ready, readyAgain, now);
    }

    method Decide(healthy: bool, ready: bool, readyAgain: bool, now: real)
      requires phase == Idle
      modifies `targetEnabled, `phase, `switchStarted, `pending, `operationOk, `motionAllowed
      ensures Value() == Decided(settings, old(Value()), healthy, ready, readyAgain, now)
    {
      if initialSyncNeeded {
        BeginSwitch(false, ready, now);
      } else if activeEnabled && !healthy {
        if ready {
          BeginSwitch(false, readyAgain, now);
        } else {
          FailSwitch();
        }
      } else if !activeEnabled && healthy {
        var stable := now - healthySince;
        if stable >= settings.recoveryStable {
          BeginSwitch(true, ready, now);
        }
      }
      if phase == Idle {
        PublishAllowed(true);
      }
    }
  }
}
