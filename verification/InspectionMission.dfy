/**
 The inspection mission: a task of points, each with up to three approaches, run as one behaviour-tree
 sequence at a time, with retries, skipped points, pause, resume and cancel.

 The tree is a resumable list of steps. What the vehicle does in a step is an answer from outside; what
 the console's step function decides by itself, the capture memo and which answers a kind of step can
 give, is modelled.
 */
module InspectionMission {
  datatype Phase = Idle | Running | Paused | Failed | Succeeded | Canceled

  datatype Kind = Restore | Navigate | Stop | Adjust | Capture

  datatype Point = Point(id: string, approaches: nat)

  /** A photograph: the point it shows and the approach it was taken from. */
  datatype Photo = Photo(id: string, approach: nat)

  datatype Result = Success | Pending | Failure | Thrown

  /** A step run: after which steps of its tree, for which point and approach, and how it went. */
  datatype Take = Take(kind: Kind, after: seq<Kind>, point: nat, approach: nat, result: Result)

  /**
   tree is the index of the step being run; built counts the trees made for this task, done lists the steps of the
   present tree that succeeded, and log the steps run since the task began.
   */
  datatype State = State(
    phase: Phase, points: seq<Point>, pointIndex: nat, approachIndex: nat, parking: bool,
    missed: seq<string>, lastKind: Kind, tree: nat, photos: seq<Photo>, built: nat, resumes: nat,
    done: seq<Kind>, log: seq<Take>)

  const INITIAL := State(Idle, [], 0, 0, false, [], Restore, 0, [], 0, 0, [], [])

  /** What happens to a step that does not decide by itself. */
  datatype Answer = Done | Wait | Fail | Throw

  const MAX_APPROACHES: nat := 3
  const MAX_POINTS: nat := 100

  // ---------------------------------------------------------------- the specification

  function Body(parking: bool): seq<Kind> {
    if parking then [Restore, Navigate, Stop] else [Restore, Navigate, Stop, Adjust, Capture, Restore]
  }

  predicate Photographed(photos: seq<Photo>, id: string) {
    exists i :: 0 <= i < |photos| && photos[i].id == id
  }

  /** The point whose data the step is given, when there is one. */
  predicate HasContext(s: State) {
    s.parking || (s.pointIndex < |s.points| && s.approachIndex < s.points[s.pointIndex].approaches)
  }

  /** A point photographed before needs nothing more but the camera brought back. */
  predicate Remembered(s: State, kind: Kind) {
    !s.parking && s.pointIndex < |s.points| && Photographed(s.photos, s.points[s.pointIndex].id) && kind != Restore
  }

  datatype Taken = Taken(state: State, result: Result, answers: seq<Answer>)

  /** What a kind of step can answer. */
  function Outcome(kind: Kind, a: Answer, parking: bool): Result {
    match kind
    case Navigate => (match a case Done => Success case Wait => Pending case Fail => Failure case Throw => Thrown)
    case Capture => if a == Done && !parking then Success else Thrown
    case _ => match a case Done => Success case Wait => Pending case Fail => Pending case Throw => Thrown
  }

  function Logged(s: State, kind: Kind, result: Result): State {
    s.(log := s.log + [Take(kind, s.done, s.pointIndex, s.approachIndex, result)],
       done := if result == Success then s.done + [kind] else s.done)
  }

  /** One step. A photograph is stored before the run record is written, and writing can still throw. */
  function Step(s: State, kind: Kind, answers: seq<Answer>): Taken {
    if !HasContext(s) then Taken(s, Thrown, answers)
    else
      var t := s.(lastKind := kind);
      if Remembered(s, kind) then Taken(t.(done := s.done + [kind]), Success, answers)
      else
        var a := if answers == [] then Wait else answers[0];
        var left := if answers == [] then [] else answers[1..];
        var shot := if kind == Capture && (a == Done || a == Fail) && !s.parking
                    then t.(photos := s.photos + [Photo(s.points[s.pointIndex].id, s.approachIndex)]) else t;
        Taken(Logged(shot, kind, Outcome(kind, a, s.parking)), Outcome(kind, a, s.parking), left)
  }

  /** A sequence goes on from the step it stopped at until a step does not succeed. */
  function Walk(s: State, answers: seq<Answer>): Taken
    decreases |Body(s.parking)| - s.tree
  {
    if s.tree >= |Body(s.parking)| then Taken(s, Success, answers)
    else
      var t := Step(s, Body(s.parking)[s.tree], answers);
      if t.result == Success then Walk(t.state.(tree := s.tree + 1), t.answers) else t
  }

  function MakeTree(s: State): State {
    s.(tree := 0, done := [], built := s.built + 1)
  }

  function Halted(s: State, phase: Phase): State {
    s.(phase := phase, tree := 0, done := [])
  }

  function NextPoint(s: State): State {
    MakeTree(s.(pointIndex := s.pointIndex + 1, approachIndex := 0, parking := s.pointIndex + 1 == |s.points|))
  }

  function Settled(s: State, result: Result): (State, Result) {
    match result
    case Failure =>
      if !s.parking && s.lastKind == Navigate && s.pointIndex < |s.points| then
        if s.approachIndex + 1 < s.points[s.pointIndex].approaches then
          (MakeTree(s.(approachIndex := s.approachIndex + 1)), Pending)
        else
          (NextPoint(s.(missed := s.missed + [s.points[s.pointIndex].id])), Pending)
      else (Halted(s, Failed), Failure)
    case Success => if s.parking then (s.(phase := Succeeded), Success) else (NextPoint(s), Pending)
    case Pending => (s, Pending)
    case Thrown => (s, Thrown)
  }

  function Ticked(s: State, answers: seq<Answer>): (State, Result) {
    var t := Walk(s, answers);
    Settled(t.state, t.result)
  }

  function Cancelled(s: State): State {
    Halted(s, Canceled)
  }

  /** The console's timer: any failure or exception of the mission cancels it. */
  function ConsoleTicked(s: State, answers: seq<Answer>): State {
    if s.phase != Running then s
    else
      var (t, result) := Ticked(s, answers);
      if result == Failure || result == Thrown then Cancelled(t) else t
  }

  predicate Distinct(points: seq<Point>) {
    forall i, j :: 0 <= i < j < |points| ==> points[i].id != points[j].id
  }

  /** What the store keeps of a task: nothing else reaches a mission. */
  predicate Saved(points: seq<Point>) {
    && 1 <= |points| <= MAX_POINTS && Distinct(points)
    && forall i :: 0 <= i < |points| ==> 1 <= points[i].approaches <= MAX_APPROACHES
  }

  /** What the executor checks itself. */
  predicate Startable(points: seq<Point>) {
    points != [] && forall i :: 0 <= i < |points| ==> points[i].approaches <= MAX_APPROACHES
  }

  function Started(s: State, points: seq<Point>): State {
    if s.phase == Running || s.phase == Paused || !Startable(points) then s
    else State(Running, points, 0, 0, false, [], Restore, 0, [], 1, 0, [], [])
  }

  datatype Event = Start(points: seq<Point>) | Tick(answers: seq<Answer>) | Pause | Resume | Cancel

  function After(s: State, e: Event): State {
    match e
    case Start(points) => if Saved(points) then Started(s, points) else s
    case Tick(answers) => ConsoleTicked(s, answers)
    case Pause => if s.phase == Running then Halted(s, Paused) else s
    case Resume => if s.phase == Paused then MakeTree(s.(phase := Running, resumes := s.resumes + 1)) else s
    case Cancel => if s.phase == Running || s.phase == Paused then Cancelled(s) else s
  }

  function Run(events: seq<Event>): State {
    if events == [] then INITIAL else After(Run(events[..|events| - 1]), events[|events| - 1])
  }

  // ---------------------------------------------------------------- what every run keeps

  /** Photographed or missed, and not both. */
  predicate Covered(photos: seq<Photo>, missed: seq<string>, id: string) {
    Photographed(photos, id) <==> id !in missed
  }

  predicate Untouched(photos: seq<Photo>, missed: seq<string>, id: string) {
    id !in missed && !Photographed(photos, id)
  }

  /** Approaches not tried yet, of the current point and the ones after it. */
  function Remaining(points: seq<Point>, from: nat): nat
    requires from <= |points|
    decreases |points| - from
  {
    if from == |points| then 0 else points[from].approaches + Remaining(points, from + 1)
  }

  predicate Distinctive(photos: seq<Photo>) {
    forall i, j :: 0 <= i < j < |photos| ==> photos[i].id != photos[j].id
  }

  predicate Live(s: State) {
    s.phase == Running || s.phase == Paused
  }

  /** The mission while it runs. */
  predicate Progress(s: State) {
    && s.pointIndex <= |s.points| && (s.parking <==> s.pointIndex == |s.points|)
    && (forall i :: 0 <= i < s.pointIndex ==> Covered(s.photos, s.missed, s.points[i].id))
    && (forall i :: s.pointIndex < i < |s.points| ==> Untouched(s.photos, s.missed, s.points[i].id))
    && (s.pointIndex < |s.points| ==> s.points[s.pointIndex].id !in s.missed)
    && Distinctive(s.photos)
    && (s.tree > 4 && !s.parking ==> Photographed(s.photos, s.points[s.pointIndex].id))
    && s.tree <= |Body(s.parking)|
  }

  /** Trees built are paid for by approaches given up, points left behind and resumes. */
  predicate Budget(s: State) {
    && s.pointIndex <= |s.points| && (s.parking <==> s.pointIndex == |s.points|)
    && (s.pointIndex < |s.points| ==> s.approachIndex < s.points[s.pointIndex].approaches || s.approachIndex == 0)
    && (s.parking ==> s.approachIndex == 0)
    && s.built + Remaining(s.points, s.pointIndex) <= 1 + Remaining(s.points, 0) + s.resumes + s.approachIndex
  }

  lemma PhotoAdded(photos: seq<Photo>, p: Photo, id: string)
    ensures Photographed(photos + [p], id) <==> Photographed(photos, id) || p.id == id
  {
    if Photographed(photos, id) {
      var i :| 0 <= i < |photos| && photos[i].id == id;
      assert (photos + [p])[i].id == id;
    }
    if p.id == id {
      assert (photos + [p])[|photos|].id == id;
    }
  }

  predicate SameMission(s: State, t: State) {
    t == s.(lastKind := t.lastKind, photos := t.photos, tree := t.tree, done := t.done, log := t.log)
  }

  /** Photographing the current point, not photographed before, keeps the books in order. */
  lemma ShotKeeps(s: State, p: Photo)
    requires Progress(s) && Distinct(s.points) && !s.parking && s.tree <= 4
    requires p.id == s.points[s.pointIndex].id && !Photographed(s.photos, p.id)
    ensures Progress(s.(photos := s.photos + [p])) && Photographed(s.photos + [p], p.id)
  {
    forall i | 0 <= i < |s.points|
      ensures Photographed(s.photos + [p], s.points[i].id) <==> Photographed(s.photos, s.points[i].id) || i == s.pointIndex
    {
      PhotoAdded(s.photos, p, s.points[i].id);
    }
  }

  lemma StepKeeps(s: State, answers: seq<Answer>)
    requires Progress(s) && Distinct(s.points) && s.tree < |Body(s.parking)|
    ensures var t := Step(s, Body(s.parking)[s.tree], answers);
            && SameMission(s, t.state) && t.state.tree == s.tree && Progress(t.state)
            && (t.result == Success ==> HasContext(s) && Progress(t.state.(tree := s.tree + 1)))
            && (t.result == Failure ==>
                  HasContext(s) && t.state.lastKind == Navigate && t.state.photos == s.photos &&
                  (!s.parking ==> !Photographed(s.photos, s.points[s.pointIndex].id)))
  {
    var kind := Body(s.parking)[s.tree];
    var t := Step(s, kind, answers);
    if t.state.photos != s.photos {
      ShotKeeps(s.(lastKind := kind), Photo(s.points[s.pointIndex].id, s.approachIndex));
    }
    assert kind == Capture ==> s.tree == 4;
  }

  lemma {:induction false} WalkKeeps(s: State, answers: seq<Answer>)
    requires Progress(s) && Distinct(s.points)
    ensures var t := Walk(s, answers);
            && SameMission(s, t.state) && Progress(t.state)
            && (t.result == Success ==> t.state.tree == |Body(s.parking)|)
            && (t.result != Success ==> t.state.tree < |Body(s.parking)|)
            && (t.result == Success && s.tree < |Body(s.parking)| ==> HasContext(s))
            && (t.result == Failure ==>
                  HasContext(s) && t.state.lastKind == Navigate &&
                  (!s.parking ==> !Photographed(t.state.photos, s.points[s.pointIndex].id)))
    decreases |Body(s.parking)| - s.tree
  {
    hide Progress, Step;
    TreeInBody(s);
    if s.tree < |Body(s.parking)| {
      StepKeeps(s, answers);
      var t := Step(s, Body(s.parking)[s.tree], answers);
      if t.result == Success {
        WalkKeeps(t.state.(tree := s.tree + 1), t.answers);
      }
    }
  }

  lemma TreeInBody(s: State)
    requires Progress(s)
    ensures s.tree <= |Body(s.parking)| && (!s.parking ==> s.pointIndex < |s.points|)
  {}

  predicate Invariant(s: State) {
    && (s.phase != Idle ==> Saved(s.points) && Budget(s))
    && (Live(s) ==> s.tree < |Body(s.parking)|)
    && (Live(s) || s.phase == Succeeded ==> Progress(s))
    && (s.phase == Succeeded ==> s.parking)
  }

  lemma {:induction false} RemainingNext(points: seq<Point>, from: nat)
    requires from < |points|
    ensures Remaining(points, from) == points[from].approaches + Remaining(points, from + 1)
  {}

  lemma MovedOn(s: State)
    requires Progress(s) && Distinct(s.points) && !s.parking && s.tree == 6
    ensures Progress(NextPoint(s))
  {}

  lemma Skipped(s: State)
    requires Progress(s) && Distinct(s.points) && !s.parking && !Photographed(s.photos, s.points[s.pointIndex].id)
    ensures Progress(NextPoint(s.(missed := s.missed + [s.points[s.pointIndex].id])))
  {
    var id := s.points[s.pointIndex].id;
    var t := NextPoint(s.(missed := s.missed + [id]));
    forall i | 0 <= i < |s.points| && i != s.pointIndex
      ensures s.points[i].id in t.missed <==> s.points[i].id in s.missed
    {}
    assert id in t.missed;
  }

  lemma SettleKeeps(s: State, result: Result)
    requires s.phase == Running && Distinct(s.points) && Progress(s)
    requires result == Success ==> s.tree == |Body(s.parking)|
    requires result != Success ==> s.tree < |Body(s.parking)|
    requires result == Failure && !s.parking ==> !Photographed(s.photos, s.points[s.pointIndex].id)
    ensures var t := Settled(s, result).0;
            && (Live(t) || t.phase == Succeeded ==> Progress(t)) && (Live(t) ==> t.tree < |Body(t.parking)|)
            && (t.phase == Succeeded ==> t.parking)
  {
    hide Progress;
    TreeInBody(s);
    if result == Success && !s.parking {
      MovedOn(s);
    }
    if result == Failure && !s.parking && s.lastKind == Navigate {
      Skipped(s);
      FreshTree(s);
    }
    SucceedKeeps(s);
  }

  lemma FreshTree(s: State)
    requires Progress(s)
    ensures forall a: nat :: Progress(MakeTree(s.(approachIndex := a)))
  {}

  lemma SucceedKeeps(s: State)
    requires Progress(s)
    ensures Progress(s.(phase := Succeeded))
  {}

  lemma {:induction false} WalkSpends(s: State, answers: seq<Answer>)
    ensures var t := Walk(s, answers);
            && SameMission(s, t.state)
            && (t.result != Success ==> t.state.tree < |Body(s.parking)|)
            && (s.tree < |Body(s.parking)| && (t.result == Success || t.result == Failure) ==> HasContext(s))
    decreases |Body(s.parking)| - s.tree
  {
    if s.tree < |Body(s.parking)| {
      var t := Step(s, Body(s.parking)[s.tree], answers);
      if t.result == Success {
        WalkSpends(t.state.(tree := s.tree + 1), t.answers);
      }
    }
  }

  lemma SettleSpends(s: State, result: Result)
    requires Budget(s) && s.phase == Running
    requires result == Success || result == Failure ==> HasContext(s)
    requires result != Success ==> s.tree < |Body(s.parking)|
    ensures var t := Settled(s, result).0;
            && Budget(t) && (Live(t) ==> t.tree < |Body(t.parking)|) && (t.phase == Succeeded ==> t.parking)
  {
    if s.pointIndex < |s.points| {
      RemainingNext(s.points, s.pointIndex);
    }
  }

  lemma BudgetIgnoresTheTree(s: State, t: State)
    requires SameMission(s, t)
    ensures Budget(s) <==> Budget(t)
  {}

  lemma TickKeeps(s: State, answers: seq<Answer>)
    requires Invariant(s)
    ensures Invariant(ConsoleTicked(s, answers))
  {
    hide Walk, Settled, Progress, Budget, Distinct, HasContext;
    if s.phase == Running {
      var w := Walk(s, answers);
      WalkSpends(s, answers);
      BudgetIgnoresTheTree(s, w.state);
      ContextIgnoresTheTree(s, w.state);
      SettleSpends(w.state, w.result);
      var t := Settled(w.state, w.result).0;
      SettledPoints(w.state, w.result);
      CancelKeepsBudget(t);
      WalkKeeps(s, answers);
      SettleKeeps(w.state, w.result);
    }
  }

  lemma ContextIgnoresTheTree(s: State, t: State)
    requires SameMission(s, t)
    ensures HasContext(s) <==> HasContext(t)
  {}

  lemma SettledPoints(s: State, result: Result)
    ensures var t := Settled(s, result).0; t.points == s.points && (s.phase == Running ==> t.phase != Idle)
  {}

  lemma CancelKeepsBudget(s: State)
    ensures Budget(Cancelled(s)) <==> Budget(s)
  {}

  lemma StepOfRunKeeps(s: State, e: Event)
    requires Invariant(s)
    ensures Invariant(After(s, e))
  {
    if e.Tick? {
      TickKeeps(s, e.answers);
    } else if e.Start? && After(s, e) != s {
      assert Started(s, e.points).pointIndex == 0;
    }
  }

  lemma {:induction false} RunKeeps(events: seq<Event>)
    ensures Invariant(Run(events))
    decreases |events|
  {
    hide Invariant, After;
    if events == [] {
      InitialKeeps();
    } else {
      RunKeeps(events[..|events| - 1]);
      StepOfRunKeeps(Run(events[..|events| - 1]), events[|events| - 1]);
    }
  }

  lemma InitialKeeps()
    ensures Invariant(INITIAL)
  {}

  // ---------------------------------------------------------------- the order of the steps

  /** What has to have succeeded in a tree before a step of it is run. */
  predicate InOrder(t: Take) {
    match t.kind
    case Restore => t.after == [] || t.after == [Restore, Navigate, Stop, Adjust, Capture]
    case Navigate => t.after == [Restore]
    case Stop => t.after == [Restore, Navigate]
    case Adjust => t.after == [Restore, Navigate, Stop]
    case Capture => t.after == [Restore, Navigate, Stop, Adjust]
  }

  predicate AllInOrder(log: seq<Take>) {
    forall k :: 0 <= k < |log| ==> InOrder(log[k])
  }

  predicate Threw(log: seq<Take>) {
    log != [] && log[|log| - 1].result == Thrown
  }

  /** The steps that succeeded are those before the tree's present one. */
  predicate Orderly(s: State) {
    AllInOrder(s.log) && s.tree <= |Body(s.parking)| && s.done == Body(s.parking)[..s.tree]
  }

  lemma StepInOrder(s: State, answers: seq<Answer>)
    requires Orderly(s) && s.tree < |Body(s.parking)|
    ensures var t := Step(s, Body(s.parking)[s.tree], answers);
            && SameMission(s, t.state) && t.state.tree == s.tree && AllInOrder(t.state.log)
            && t.state.done == Body(s.parking)[..if t.result == Success then s.tree + 1 else s.tree]
            && (!Threw(s.log) && t.result != Thrown ==> !Threw(t.state.log))
  {
    var kind := Body(s.parking)[s.tree];
    assert Body(s.parking)[..s.tree + 1] == Body(s.parking)[..s.tree] + [kind];
    assert InOrder(Take(kind, s.done, s.pointIndex, s.approachIndex, Success));
  }

  lemma {:induction false} WalkInOrder(s: State, answers: seq<Answer>)
    requires Orderly(s)
    ensures var t := Walk(s, answers);
            SameMission(s, t.state) && Orderly(t.state) && (!Threw(s.log) && t.result != Thrown ==> !Threw(t.state.log))
    decreases |Body(s.parking)| - s.tree
  {
    hide AllInOrder, Threw, Step;
    if s.tree < |Body(s.parking)| {
      StepInOrder(s, answers);
      var t := Step(s, Body(s.parking)[s.tree], answers);
      if t.result == Success {
        WalkInOrder(t.state.(tree := s.tree + 1), t.answers);
      }
    }
  }

  /** A mission that threw or failed is over. */
  predicate OrderKept(s: State) {
    && AllInOrder(s.log) && s.phase != Failed
    && (Live(s) ==> Orderly(s) && !Threw(s.log))
  }

  lemma OrderStep(s: State, e: Event)
    requires OrderKept(s)
    ensures OrderKept(After(s, e))
  {
    hide Walk, AllInOrder;
    if e.Tick? && s.phase == Running {
      WalkInOrder(s, e.answers);
    }
    assert AllInOrder([]) by { NoneOutOfOrder(); }
  }

  lemma NoneOutOfOrder()
    ensures AllInOrder([])
  {}

  lemma {:induction false} RunInOrder(events: seq<Event>)
    ensures OrderKept(Run(events))
    decreases |events|
  {
    if events != [] {
      hide OrderKept, After;
      RunInOrder(events[..|events| - 1]);
      OrderStep(Run(events[..|events| - 1]), events[|events| - 1]);
    }
  }

  /**
   In every run the vehicle drives only after the camera was restored, and the camera is turned only after it
   drove and stopped: every step is run after exactly the steps that belong before it.
   */
  lemma StepsInOrder(events: seq<Event>, k: nat)
    requires k < |Run(events).log|
    ensures InOrder(Run(events).log[k])
  {
    hide Run, InOrder;
    RunInOrder(events);
  }

  /** A step that throws ends the mission, and no mission is left failed but not cancelled. */
  lemma ThrowingEndsTheMission(events: seq<Event>)
    ensures var s := Run(events); s.phase != Failed && (Threw(s.log) ==> !Live(s))
  {
    hide Run;
    RunInOrder(events);
  }

  // ---------------------------------------------------------------- the approaches to a point

  /** The approaches to a point that navigation failed to reach, in the order of the attempts. */
  function FailedApproaches(log: seq<Take>, point: nat): seq<nat> {
    if log == [] then []
    else
      var earlier, last := FailedApproaches(log[..|log| - 1], point), log[|log| - 1];
      if last.kind == Navigate && last.result == Failure && last.point == point then earlier + [last.approach] else earlier
  }

  function UpTo(n: nat): (r: seq<nat>)
    ensures |r| == n && forall i :: 0 <= i < n ==> r[i] == i
  {
    if n == 0 then [] else UpTo(n - 1) + [n - 1]
  }

  lemma LogGrows(log: seq<Take>, t: Take, point: nat)
    ensures FailedApproaches(log + [t], point) ==
            FailedApproaches(log, point) +
            if t.kind == Navigate && t.result == Failure && t.point == point then [t.approach] else []
  {
    assert (log + [t])[..|log|] == log;
  }

  lemma StepTries(s: State, answers: seq<Answer>, point: nat)
    requires s.tree < |Body(s.parking)|
    ensures var t := Step(s, Body(s.parking)[s.tree], answers);
            && SameMission(s, t.state)
            && FailedApproaches(t.state.log, point) ==
               FailedApproaches(s.log, point) + if t.result == Failure && point == s.pointIndex then [s.approachIndex] else []
  {
    hide FailedApproaches;
    var kind := Body(s.parking)[s.tree];
    var t := Step(s, kind, answers);
    LogGrows(s.log, Take(kind, s.done, s.pointIndex, s.approachIndex, t.result), point);
  }

  /** Only a walk that fails has a failed navigation, to the present approach. */
  lemma {:induction false} WalkTries(s: State, answers: seq<Answer>, point: nat)
    ensures var t := Walk(s, answers);
            && SameMission(s, t.state)
            && FailedApproaches(t.state.log, point) ==
               FailedApproaches(s.log, point) + if t.result == Failure && point == s.pointIndex then [s.approachIndex] else []
    decreases |Body(s.parking)| - s.tree
  {
    hide FailedApproaches, Step;
    if s.tree < |Body(s.parking)| {
      StepTries(s, answers, point);
      var t := Step(s, Body(s.parking)[s.tree], answers);
      if t.result == Success {
        WalkTries(t.state.(tree := s.tree + 1), t.answers, point);
      }
    }
  }

  /** A point left behind is missed if and only if every one of its approaches failed, each in its turn. */
  predicate TriedBefore(failed: seq<nat>, p: Point, missed: seq<string>) {
    failed == UpTo(|failed|) && |failed| <= p.approaches && (p.id in missed <==> |failed| == p.approaches)
  }

  /** The present point's approaches before the present one have failed, and later points have not been tried. */
  predicate TriedNow(failed: seq<nat>, p: Point, missed: seq<string>, approach: nat) {
    failed == UpTo(approach) && p.id !in missed
  }

  predicate TriedAt(s: State, i: nat)
    requires i < |s.points|
  {
    var failed, p := FailedApproaches(s.log, i), s.points[i];
    if i < s.pointIndex then TriedBefore(failed, p, s.missed)
    else TriedNow(failed, p, s.missed, if i == s.pointIndex then s.approachIndex else 0)
  }

  lemma SettleTries(s: State, t: State, result: Result, i: nat)
    requires s.phase == Running && Saved(s.points) && s.pointIndex <= |s.points| && (s.parking <==> s.pointIndex == |s.points|)
    requires i < |s.points| && TriedAt(s, i) && SameMission(s, t)
    requires FailedApproaches(t.log, i) ==
             FailedApproaches(s.log, i) + if result == Failure && i == s.pointIndex then [s.approachIndex] else []
    requires result == Failure ==> t.lastKind == Navigate
    requires result == Success || result == Failure ==> HasContext(s)
    ensures result != Thrown ==> TriedAt(Settled(t, result).0, i)
    ensures result == Thrown && s.pointIndex <= |s.points| ==> TriedAt(t, i)
  {
    hide FailedApproaches;
    assert UpTo(s.approachIndex + 1) == UpTo(s.approachIndex) + [s.approachIndex];
    if i == s.pointIndex {
      assert HasContext(s) ==> s.approachIndex < s.points[i].approaches;
    } else if s.pointIndex < |s.points| {
      assert s.points[i].id != s.points[s.pointIndex].id;
    }
  }

  lemma PositionKept(s: State)
    requires Invariant(s) && Live(s)
    ensures Saved(s.points) && s.pointIndex <= |s.points| && (s.parking <==> s.pointIndex == |s.points|)
  {}

  lemma TickTries(s: State, answers: seq<Answer>, i: nat)
    requires Invariant(s) && s.phase == Running && i < |s.points| && TriedAt(s, i)
    ensures var t := ConsoleTicked(s, answers); t.points == s.points && TriedAt(t, i)
  {
    hide Walk, Settled, Saved, FailedApproaches, TriedBefore, TriedNow;
    PositionKept(s);
    var w := Walk(s, answers);
    WalkTries(s, answers, i);
    WalkSpends(s, answers);
    WalkKeeps(s, answers) by { ProgressKept(s); }
    hide Invariant, HasContext;
    SettleTries(s, w.state, w.result, i);
    SettledPoints(w.state, w.result);
    SettledThrown(w.state);
  }

  lemma ProgressKept(s: State)
    requires Invariant(s) && Live(s)
    ensures Progress(s) && Distinct(s.points)
  {}

  lemma SettledThrown(s: State)
    ensures Settled(s, Thrown) == (s, Thrown)
  {}

  lemma TriesStep(s: State, e: Event, i: nat)
    requires Invariant(s) && i < |After(s, e).points|
    requires s.phase != Idle && i < |s.points| ==> TriedAt(s, i)
    ensures After(s, e).phase != Idle ==> TriedAt(After(s, e), i)
  {
    hide ConsoleTicked, FailedApproaches;
    if e.Tick? && s.phase == Running {
      TickPoints(s, e.answers);
      TickTries(s, e.answers, i);
    } else if e.Tick? {
      TickPoints(s, e.answers);
    } else if e.Start? && After(s, e) != s {
      NothingFailed(i);
    }
  }

  lemma TickPoints(s: State, answers: seq<Answer>)
    ensures ConsoleTicked(s, answers).points == s.points && (s.phase != Running ==> ConsoleTicked(s, answers) == s)
  {
    hide Walk, Settled;
    WalkSpends(s, answers);
    SettledPoints(Walk(s, answers).state, Walk(s, answers).result);
  }

  lemma NothingFailed(i: nat)
    ensures FailedApproaches([], i) == [] == UpTo(0)
  {}

  lemma {:induction false} RunTries(events: seq<Event>, i: nat)
    requires Run(events).phase != Idle && i < |Run(events).points|
    ensures TriedAt(Run(events), i)
    decreases |events|
  {
    hide Invariant, TriedAt, After;
    if events == [] {
      assert false;
    }
    var n := |events| - 1;
    RunKeeps(events[..n]);
    if Run(events[..n]).phase != Idle && i < |Run(events[..n]).points| {
      RunTries(events[..n], i);
    }
    TriesStep(Run(events[..n]), events[n], i);
  }

  /**
   In every run a point is recorded missed if and only if navigation failed to reach each of its approaches, in
   their order; the approaches failed so far are the first ones, and none of a point that is not yet due.
   */
  lemma MissedAfterEveryApproach(events: seq<Event>, i: nat)
    requires Run(events).phase != Idle && i < |Run(events).points|
    ensures var s := Run(events); var failed := FailedApproaches(s.log, i);
            && failed == UpTo(|failed|) && |failed| <= s.points[i].approaches
            && (s.points[i].id in s.missed <==> |failed| == s.points[i].approaches)
            && (i > s.pointIndex ==> failed == [])
  {
    hide Run, FailedApproaches;
    RunTries(events, i);
    RunKeeps(events);
    ApproachInRange(Run(events));
  }

  lemma ApproachInRange(s: State)
    requires Invariant(s) && s.phase != Idle
    ensures Saved(s.points) && (s.pointIndex < |s.points| ==> s.approachIndex < s.points[s.pointIndex].approaches)
  {}

  // ---------------------------------------------------------------- what the operator asks for

  /** The same task, at the same point and approach, with what was photographed and missed so far. */
  predicate SamePlace(s: State, t: State) {
    && t.points == s.points && t.pointIndex == s.pointIndex && t.approachIndex == s.approachIndex
    && t.parking == s.parking && t.missed == s.missed && t.photos == s.photos
  }

  /** From 1 to 100 points with different ids, each with 1 to 3 approaches. */
  predicate WellPlanned(points: seq<Point>) {
    && 1 <= |points| <= 100 && (forall i :: 0 <= i < |points| ==> 1 <= points[i].approaches <= 3)
    && (forall i, j :: 0 <= i < j < |points| ==> points[i].id != points[j].id)
  }

  /**
   In every run a mission pauses, resumes, is cancelled and is started exactly when that can be, and keeps its place:
   pausing and resuming lose no point, approach or photograph, and a new task starts with nothing behind it.
   */
  lemma ControlsAreObeyed(events: seq<Event>, points: seq<Point>)
    ensures var s, t := Run(events), Run(events + [Pause]);
            if s.phase == Running then t.phase == Paused && SamePlace(s, t) else t == s
    ensures var s, t := Run(events), Run(events + [Resume]);
            if s.phase == Paused then t.phase == Running && SamePlace(s, t) && t.tree == 0 else t == s
    ensures var s, t := Run(events), Run(events + [Cancel]);
            if Live(s) then t.phase == Canceled && SamePlace(s, t) else t == s
    ensures var s, t := Run(events), Run(events + [Start(points)]);
            if !Live(s) && WellPlanned(points) then
              && t.phase == Running && t.points == points && t.pointIndex == t.approachIndex == t.tree == 0 && !t.parking
              && t.photos == [] && t.missed == [] && t.log == []
            else t == s
  {
    hide Run;
    RunExtends(events, Pause);
    RunExtends(events, Resume);
    RunExtends(events, Cancel);
    RunExtends(events, Start(points));
  }

  lemma RunExtends(events: seq<Event>, e: Event)
    ensures Run(events + [e]) == After(Run(events), e)
  {
    assert (events + [e])[..|events|] == events;
  }

  // ---------------------------------------------------------------- photographs and leaving a point

  /** A photograph is stored exactly when one is taken of a point not photographed yet, even if writing the record throws. */
  lemma CapturesExactly(s: State, kind: Kind, answers: seq<Answer>)
    ensures Step(s, kind, answers).state.photos == s.photos +
            if kind == Capture && !s.parking && s.pointIndex < |s.points| && s.approachIndex < s.points[s.pointIndex].approaches
               && !Photographed(s.photos, s.points[s.pointIndex].id) && answers != [] && (answers[0] == Done || answers[0] == Fail)
            then [Photo(s.points[s.pointIndex].id, s.approachIndex)] else []
  {
    assert s.photos + [] == s.photos;
  }

  /**
   A step succeeds exactly when it is done, or its point needs nothing more; only navigation can fail, a picture that
   cannot be taken throws, and anything else goes on waiting.
   */
  lemma StepsAnswer(s: State, kind: Kind, answers: seq<Answer>)
    ensures var result := Step(s, kind, answers).result;
            var remembered := !s.parking && s.pointIndex < |s.points| && Photographed(s.photos, s.points[s.pointIndex].id) && kind != Restore;
            var a := if answers == [] then Wait else answers[0];
            && (result == Success <==> HasContext(s) && (remembered || (a == Done && !(kind == Capture && s.parking))))
            && (result == Failure <==> HasContext(s) && !remembered && kind == Navigate && a == Fail)
            && (result == Pending <==> HasContext(s) && !remembered && kind != Capture && (a == Wait || (a == Fail && kind != Navigate)))
  {}

  /** The last step of a tree succeeded, and is one of those that are always run. */
  predicate EndsRestored(s: State, t: State) {
    && t.log != [] && var last := t.log[|t.log| - 1];
    && last.kind == (if s.parking then Stop else Restore) && last.result == Success
    && last.point == s.pointIndex && last.approach == s.approachIndex
  }

  /** A step stays where it is, and one that is always run is logged. */
  lemma StepStays(s: State, kind: Kind, answers: seq<Answer>)
    ensures var t := Step(s, kind, answers);
            && t.state.pointIndex == s.pointIndex && t.state.approachIndex == s.approachIndex && t.state.parking == s.parking
            && t.state.missed == s.missed && t.state.phase == s.phase && t.state.tree == s.tree
            && (t.result == Success && kind == (if s.parking then Stop else Restore) ==> EndsRestored(s, t.state))
  {
    hide Photographed;
  }

  lemma {:induction false} WalkEndsRestored(s: State, answers: seq<Answer>)
    requires s.tree < |Body(s.parking)|
    ensures var t := Walk(s, answers);
            && t.state.pointIndex == s.pointIndex && t.state.approachIndex == s.approachIndex && t.state.parking == s.parking
            && t.state.missed == s.missed && t.state.phase == s.phase
            && (if t.result == Success then EndsRestored(s, t.state) else t.state.tree < |Body(s.parking)|)
    decreases |Body(s.parking)| - s.tree
  {
    hide Step;
    var kind := Body(s.parking)[s.tree];
    var t := Step(s, kind, answers);
    StepStays(s, kind, answers);
    if t.result == Success && s.tree + 1 < |Body(s.parking)| {
      WalkEndsRestored(t.state.(tree := s.tree + 1), t.answers);
    }
  }

  /** A live mission stands before a step of its tree. */
  predicate InsideTree(s: State) {
    Live(s) ==> s.tree < |Body(s.parking)|
  }

  lemma {:induction false} AlwaysInsideTree(events: seq<Event>)
    ensures InsideTree(Run(events))
    decreases |events|
  {
    hide Walk, Startable, Saved;
    if events != [] {
      var s, e := Run(events[..|events| - 1]), events[|events| - 1];
      AlwaysInsideTree(events[..|events| - 1]);
      if e.Tick? && s.phase == Running {
        WalkEndsRestored(s, e.answers);
      }
    }
  }

  /**
   In every run a point is left without being missed, and a task succeeds, only in a tick whose last step succeeded:
   the camera restored at that point and approach, or the vehicle stopped where it parks.
   */
  lemma PointsAreLeftRestored(events: seq<Event>, answers: seq<Answer>)
    requires var s, t := Run(events), After(Run(events), Tick(answers));
             (t.pointIndex != s.pointIndex && t.missed == s.missed) || (t.phase == Succeeded && s.phase != Succeeded)
    ensures EndsRestored(Run(events), After(Run(events), Tick(answers)))
  {
    hide Run, Walk;
    var s := Run(events);
    AlwaysInsideTree(events);
    if s.phase == Running {
      WalkEndsRestored(s, answers);
      MissedGrows(s.missed);
    }
  }

  lemma MissedGrows(missed: seq<string>)
    ensures forall id :: missed + [id] != missed
  {
    assert forall id :: |missed + [id]| == |missed| + 1;
  }

  // ---------------------------------------------------------------- what a run that ends means

  /**
   Across any pauses, resumes and failures: a task that succeeded has every point
   photographed or recorded missed, never both, and no point photographed twice.
   */
  lemma SuccessCoversEveryPoint(events: seq<Event>)
    requires Run(events).phase == Succeeded
    ensures var s := Run(events);
            && (forall i :: 0 <= i < |s.points| ==> Covered(s.photos, s.missed, s.points[i].id))
            && Distinctive(s.photos)
  {
    hide Run;
    RunKeeps(events);
  }

  /** Points are dealt with in order, and the vehicle parks only after the last of them. */
  lemma ParksLast(events: seq<Event>)
    requires Live(Run(events))
    ensures var s := Run(events);
            && (s.parking ==> forall i :: 0 <= i < |s.points| ==> Covered(s.photos, s.missed, s.points[i].id))
            && (!s.parking ==>
                  s.pointIndex < |s.points| &&
                  (forall i :: 0 <= i < s.pointIndex ==> Covered(s.photos, s.missed, s.points[i].id)) &&
                  (forall i :: s.pointIndex < i < |s.points| ==> Untouched(s.photos, s.missed, s.points[i].id)))
  {
    hide Run, Covered, Untouched;
    RunKeeps(events);
  }

  /** At any time no more trees have been built than the task has approaches, plus one, plus the resumes. */
  lemma TreesAreBounded(events: seq<Event>)
    requires Run(events).phase != Idle
    ensures var s := Run(events); s.built <= Remaining(s.points, 0) + 1 + s.resumes
  {
    hide Run;
    RunKeeps(events);
    var s := Run(events);
    if s.pointIndex < |s.points| {
      RemainingNext(s.points, s.pointIndex);
    }
  }

  // ---------------------------------------------------------------- the executor and its console

  /** The check of a task that is saved: from 1 to 100 points, none of them twice. */
  method ValidateTask(ids: seq<string>) returns (accepted: bool)
    ensures accepted <==> 1 <= |ids| <= 100 && forall i, j :: 0 <= i < j < |ids| ==> ids[i] != ids[j]
  {
    if ids == [] || |ids| > MAX_POINTS {
      return false;
    }
    var seen: seq<string> := [];
    for i := 0 to |ids|
      invariant seen == ids[..i]
      invariant forall j, k :: 0 <= j < k < i ==> ids[j] != ids[k]
    {
      if ids[i] in seen {
        return false;
      }
      seen := seen + [ids[i]];
    }
    accepted := true;
  }

  /** The executor's own checks of a task: some points, and not too many approaches to any. */
  method CheckPoints(points: seq<Point>) returns (startable: bool)
    ensures startable <==> Startable(points)
    ensures startable <==> points != [] && forall i :: 0 <= i < |points| ==> points[i].approaches <= 3
  {
    if points == [] {
      return false;
    }
    for i := 0 to |points|
      invariant forall j :: 0 <= j < i ==> points[j].approaches <= MAX_APPROACHES
    {
      if points[i].approaches > MAX_APPROACHES {
        return false;
      }
    }
    startable := true;
  }

  class Mission {
    var phase: Phase
    var points: seq<Point>
    var pointIndex: nat
    var approachIndex: nat
    var parking: bool
    var missed: seq<string>
    var lastKind: Kind
    var tree: nat
    var photos: seq<Photo>
    ghost var built: nat
    ghost var resumes: nat
    ghost var done: seq<Kind>
    ghost var log: seq<Take>

    ghost function Value(): State
      reads this
    {
      State(phase, points, pointIndex, approachIndex, parking, missed, lastKind, tree, photos, built, resumes, done, log)
    }

    constructor ()
      ensures Value() == INITIAL
    {
      phase, points, pointIndex, approachIndex, parking := Phase.Idle, [], 0, 0, false;
      missed, lastKind, tree, photos, built, resumes := [], Restore, 0, [], 0, 0;
      done, log := [], [];
    }

    method NewTree()
      modifies `tree, `built, `done
      ensures Value() == MakeTree(old(Value()))
    {
      tree := 0;
      done := [];
      built := built + 1;
    }

    /** Refuses while a task is live, without points, or with more than three approaches to one. */
    method Begin(task: seq<Point>) returns (accepted: bool)
      modifies this
      ensures Value() == Started(old(Value()), task)
      ensures accepted <==> !Live(old(Value())) && Startable(task)
    {
      hide Startable;
      if phase == Running || phase == Paused {
        return false;
      }
      var startable := CheckPoints(task);
      if !startable {
        return false;
      }
      points, pointIndex, approachIndex, parking, missed := task, 0, 0, false, [];
      lastKind, phase, photos := Restore, Running, [];
      built, resumes, log := 0, 0, [];
      NewTree();
      accepted := true;
    }

    method TakeStep(kind: Kind, answers: seq<Answer>) returns (result: Result, left: seq<Answer>)
      modifies `lastKind, `photos, `done, `log
      ensures Taken(Value(), result, left) == Step(old(Value()), kind, answers)
    {
      if !parking && !(pointIndex < |points| && approachIndex < points[pointIndex].approaches) {
        return Thrown, answers;
      }
      lastKind := kind;
      if !parking && Photographed(photos, points[pointIndex].id) && kind != Restore {
        done := done + [kind];
        return Success, answers;
      }
      var a := if answers == [] then Wait else answers[0];
      left := if answers == [] then [] else answers[1..];
      match kind {
        case Navigate =>
          result := match a case Done => Success case Wait => Pending case Fail => Failure case Throw => Thrown;
        case Capture =>
          result := Thrown;
          if a != Wait && a != Throw && !parking {
            photos := photos + [Photo(points[pointIndex].id, approachIndex)];
            if a == Done {
              result := Success;
            }
          }
        case _ =>
          result := match a case Done => Success case Wait => Pending case Fail => Pending case Throw => Thrown;
      }
      log := log + [Take(kind, done, pointIndex, approachIndex, result)];
      done := if result == Success then done + [kind] else done;
    }

    method Advance()
      modifies `pointIndex, `approachIndex, `parking, `tree, `built, `done
      ensures Value() == NextPoint(old(Value()))
    {
      approachIndex := 0;
      pointIndex := pointIndex + 1;
      parking := pointIndex == |points|;
      NewTree();
    }

    method TickTree(answers: seq<Answer>) returns (result: Result)
      modifies `lastKind, `photos, `tree, `done, `log
      ensures Value() == Walk(old(Value()), answers).state && result == Walk(old(Value()), answers).result
    {
      hide Step;
      var body := Body(parking);
      var left := answers;
      while tree < |body|
        invariant body == Body(parking)
        invariant Walk(Value(), left).state == Walk(old(Value()), answers).state
        invariant Walk(Value(), left).result == Walk(old(Value()), answers).result
        invariant SameMission(old(Value()), Value())
        decreases |body| - tree
      {
        ghost var before := Value();
        StepSameMission(before, body[tree], left);
        result, left := TakeStep(body[tree], left);
        if result != Success {
          return;
        }
        tree := tree + 1;
      }
      result := Success;
    }

    method Settle(status: Result) returns (result: Result)
      modifies this
      ensures (Value(), result) == Settled(old(Value()), status)
    {
      match status
      case Failure =>
        if !parking && lastKind == Navigate && pointIndex < |points| {
          if approachIndex + 1 < points[pointIndex].approaches {
            approachIndex := approachIndex + 1;
            NewTree();
            return Pending;
          }
          missed := missed + [points[pointIndex].id];
          Advance();
          return Pending;
        }
        phase, tree, done := Phase.Failed, 0, [];
        return Failure;
      case Success =>
        if parking {
          phase := Succeeded;
          return Success;
        }
        Advance();
        return Pending;
      case Pending => return Pending;
      case Thrown => return Thrown;
    }

    method Stop()
      modifies `phase, `tree, `done
      ensures Value() == Cancelled(old(Value()))
    {
      phase, tree, done := Canceled, 0, [];
    }

    method Tick(answers: seq<Answer>)
      modifies this
      ensures Value() == ConsoleTicked(old(Value()), answers)
    {
      hide Walk, Settled;
      if phase != Running {
        return;
      }
      var status := TickTree(answers);
      var result := Settle(status);
      if result == Failure || result == Thrown {
        Stop();
      }
    }

    method Suspend() returns (accepted: bool)
      modifies `phase, `tree, `done
      ensures Value() == After(old(Value()), Event.Pause) && (accepted <==> old(phase) == Running)
    {
      accepted := phase == Running;
      if accepted {
        phase, tree, done := Paused, 0, [];
      }
    }

    method Proceed() returns (accepted: bool)
      modifies `phase, `tree, `built, `resumes, `done
      ensures Value() == After(old(Value()), Event.Resume) && (accepted <==> old(phase) == Paused)
    {
      accepted := phase == Paused;
      if accepted {
        phase := Running;
        resumes := resumes + 1;
        NewTree();
      }
    }
  }

  lemma StepSameMission(s: State, kind: Kind, answers: seq<Answer>)
    ensures var t := Step(s, kind, answers).state; SameMission(s, t) && t.tree == s.tree
  {}
}
