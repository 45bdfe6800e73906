/**
 The action client behind a motion goal: it may send again before the last goal has ended, keeps a record
 for every goal sent, cancels exactly those the server took, and gives every wait a limit.

 It is what the sessions of RecoveryRuntime stand for; the lemmas at the end show that it keeps their rules.
 Sending and polling let go of the lock before they hand a goal over or cancel, so that callbacks may come in
 between; a call to the transport may throw. Times are readings of the steady clock.
 */
module BoundedAction {
  import R = RecoveryRuntime

  datatype Option<T> = None | Some(value: T)

  datatype Reason = NoReason | GoalRejected | Succeeded | Canceled | Aborted | SendError | ResultTimeout | ResponseTimeout |
                    CancelUnconfirmed | CancelSendError

  /** One goal sent: whether the server took it, and how far its end and its cancellation have come. */
  datatype Goal = Goal(
    taken: bool, terminal: bool, cancelSent: bool, cancelAck: bool, responded: bool, cancelResponded: bool,
    superseded: Option<real>)

  const FRESH := Goal(false, false, false, false, false, false, None)

  datatype Status = Status(
    accepted: bool, terminal: bool, success: bool, rejected: bool, cancelRequested: bool, timedOut: bool,
    cancelAck: bool, reason: Reason)

  /** Where the ticking thread is: outside, about to hand over a goal it recorded, or about to cancel. */
  datatype Busy = Free | Submitting | Cancelling

  datatype Client = Client(
    goals: map<nat, Goal>, revision: nat, status: Status, sent: real, cancelAt: real, resultTimeout: real, busy: Busy)

  datatype Limits = Limits(responseTimeout: real, cancelTimeout: real)

  const UNSENT := Client(map[], 0, Status(false, false, false, false, false, false, false, NoReason), 0.0, 0.0, 0.0, Free)

  // ---------------------------------------------------------------- the specification

  /** Finished as a whole means that some goal was sent and every recorded goal has ended. */
  function Refreshed(c: Client): Client {
    c.(status := c.status.(
         terminal := c.goals != map[] && (forall r :: r in c.goals ==> c.goals[r].terminal),
         cancelAck := forall r :: r in c.goals ==> c.goals[r].terminal || c.goals[r].cancelAck))
  }

  /** A goal the server took is cancelled once. */
  function CancelOf(g: Goal): Goal {
    if g.taken && !g.cancelSent then g.(cancelSent := true) else g
  }

  predicate Attempts(g: Goal) {
    g.taken && !g.cancelSent
  }

  /** Some goal about to be cancelled is one of those whose call throws. */
  predicate SomeThrow(goals: map<nat, Goal>, fails: set<nat>) {
    exists r :: r in fails && r in goals && Attempts(goals[r])
  }

  function Reported(s: Status, threw: bool): Status {
    if threw then s.(reason := CancelSendError) else s
  }

  function AllCanceled(goals: map<nat, Goal>): map<nat, Goal> {
    map r | r in goals :: CancelOf(goals[r])
  }

  predicate Forgettable(g: Goal) {
    g.terminal && g.responded && (!g.cancelSent || g.cancelResponded)
  }

  function Sent(c: Client, resultTimeout: real, now: real): Client {
    if c.status.cancelRequested then c
    else
      var kept := map r | r in c.goals && !Forgettable(c.goals[r]) :: c.goals[r];
      var marked := if c.revision in kept && kept[c.revision].superseded.None?
                    then kept[c.revision := kept[c.revision].(superseded := Some(now))] else kept;
      var s := c.status;
      var status := s.(accepted := s.accepted && !s.rejected && !s.timedOut, terminal := false, success := false,
                       rejected := false);
      Client(marked[c.revision + 1 := FRESH], c.revision + 1, status, now, c.cancelAt, resultTimeout, Submitting)
  }

  /** Handing the goal over may throw, which does not show that the server did not get it. */
  function HandedOver(c: Client, throws: bool): Client {
    c.(busy := Free, status := if throws then c.status.(reason := SendError, timedOut := true) else c.status)
  }

  /** A goal taken too late, replaced or asked to end meanwhile, is cancelled at once. */
  predicate TakenTooLate(c: Client, r: nat) {
    r != c.revision || c.status.cancelRequested
  }

  function AnsweredGoal(c: Client, r: nat, taken: bool): Goal
    requires r in c.goals
  {
    var answered := c.goals[r].(responded := true, taken := taken);
    if !taken then answered.(terminal := true)
    else if TakenTooLate(c, r) then CancelOf(answered) else answered
  }

  function AnsweredStatus(c: Client, r: nat, taken: bool, throws: bool): Status
    requires r in c.goals
  {
    var s := c.status;
    var noted := if r != c.revision then s
                 else if taken then s.(accepted := true) else s.(accepted := false, rejected := true, reason := GoalRejected);
    Reported(noted, taken && TakenTooLate(c, r) && !c.goals[r].cancelSent && throws)
  }

  /** The server's answer to a goal; throws is whether cancelling it, if that is due, throws. */
  function Responded(c: Client, r: nat, taken: bool, throws: bool): Client {
    if r !in c.goals then c
    else Refreshed(c.(goals := c.goals[r := AnsweredGoal(c, r, taken)], status := AnsweredStatus(c, r, taken, throws)))
  }

  function Ended(c: Client, r: nat, outcome: Reason): Client {
    if r !in c.goals then c
    else
      var s := c.status;
      Refreshed(c.(goals := c.goals[r := c.goals[r].(terminal := true)],
                   status := if r == c.revision then s.(success := outcome == Succeeded, reason := outcome) else s))
  }

  function CancelAnswered(c: Client, r: nat, ack: bool): Client {
    if r !in c.goals then c
    else
      var g := c.goals[r];
      Refreshed(c.(goals := c.goals[r := g.(cancelResponded := true, cancelAck := g.cancelAck || (ack && g.taken))]))
  }

  function CancelRequested(c: Client, now: real, fails: set<nat>): Client {
    if c.status.terminal || c.revision == 0 then c
    else
      c.(goals := AllCanceled(c.goals), cancelAt := if c.status.cancelRequested then c.cancelAt else now,
         status := Reported(c.status.(cancelRequested := true), SomeThrow(c.goals, fails)))
  }

  /** A goal that has not ended long after it was replaced, or after the last was sent. */
  predicate Overstays(limits: Limits, g: Goal, sent: real, now: real) {
    !g.terminal &&
    now - (if g.superseded.Some? then g.superseded.value else sent) > limits.responseTimeout + limits.cancelTimeout
  }

  predicate Orphaned(limits: Limits, c: Client, r: nat, now: real)
    requires r in c.goals
  {
    r < c.revision && Overstays(limits, c.goals[r], c.sent, now)
  }

  function OrphanEnded(limits: Limits, c: Client, r: nat, now: real): Goal
    requires r in c.goals
  {
    if Orphaned(limits, c, r, now) then CancelOf(c.goals[r]).(terminal := true) else c.goals[r]
  }

  predicate OrphanAttempts(limits: Limits, c: Client, r: nat, now: real)
    requires r in c.goals
  {
    Orphaned(limits, c, r, now) && Attempts(c.goals[r])
  }

  predicate OrphansThrow(limits: Limits, c: Client, now: real, fails: set<nat>, left: set<nat>) {
    exists r :: r in fails && r in c.goals && r !in left && OrphanAttempts(limits, c, r, now)
  }

  /** The status once every goal but those left was looked at. */
  function OrphansReported(limits: Limits, c: Client, now: real, fails: set<nat>, left: set<nat>): Status {
    Reported(c.status, OrphansThrow(limits, c, now, fails, left))
  }

  lemma OneMoreOrphan(limits: Limits, c: Client, now: real, fails: set<nat>, left: set<nat>, r: nat)
    requires r in c.goals && r in left
    ensures OrphansReported(limits, c, now, fails, left - {r}) ==
            Reported(OrphansReported(limits, c, now, fails, left), r in fails && OrphanAttempts(limits, c, r, now))
  {
    hide OrphanAttempts;
    assert r !in left - {r};
    if OrphansThrow(limits, c, now, fails, left) {
      var q :| q in fails && q in c.goals && q !in left && OrphanAttempts(limits, c, q, now);
      assert q !in left - {r};
    }
  }

  lemma NoOrphan(limits: Limits, c: Client, now: real, fails: set<nat>)
    ensures OrphansReported(limits, c, now, fails, c.goals.Keys) == c.status
  {}

  /** Replaced goals that never ended are cancelled and given up. */
  function OrphansEnded(limits: Limits, c: Client, now: real, fails: set<nat>): Client {
    c.(status := OrphansReported(limits, c, now, fails, {}),
       goals := map r | r in c.goals :: OrphanEnded(limits, c, r, now))
  }

  predicate CurrentResponded(c: Client) {
    c.revision in c.goals && c.goals[c.revision].responded
  }

  predicate Overdue(limits: Limits, c: Client, now: real) {
    var elapsed := now - c.sent;
    (!CurrentResponded(c) && elapsed > limits.responseTimeout) ||
    (c.resultTimeout > 0.0 && elapsed > c.resultTimeout) || c.status.timedOut
  }

  /** Applies the limits: response, result and cancellation; cancelling itself comes after the lock is let go. */
  function Limited(limits: Limits, c: Client, now: real): Client {
    var responded := CurrentResponded(c);
    var late := !c.status.cancelRequested && Overdue(limits, c, now);
    var resultLate := c.resultTimeout > 0.0 && now - c.sent > c.resultTimeout;
    var reason := if (responded || c.status.accepted) && resultLate then ResultTimeout else ResponseTimeout;
    var s1 := if late then c.status.(reason := reason, timedOut := true, accepted := c.status.accepted && responded)
              else c.status;
    var s2 := if s1.cancelRequested && now - c.cancelAt > limits.cancelTimeout
              then s1.(timedOut := true, reason := CancelUnconfirmed) else s1;
    c.(status := s2, busy := if late then Cancelling else c.busy)
  }

  function Polled(limits: Limits, c: Client, now: real, fails: set<nat>): Client {
    if c.status.terminal || c.revision == 0 then c
    else
      var refreshed := Refreshed(OrphansEnded(limits, c, now, fails));
      if refreshed.status.terminal then refreshed else Limited(limits, refreshed, now)
  }

  /** fails are the goals whose cancel call throws. */
  datatype Event =
    | Send(resultTimeout: real, now: real)
    | SendEnds(throws: bool)
    | Poll(now: real, fails: set<nat>)
    | PollEnds(now: real, fails: set<nat>)
    | Cancel(now: real, fails: set<nat>)
    | Response(revision: nat, taken: bool, throws: bool)
    | Result(revision: nat, outcome: Reason)
    | CancelResponse(revision: nat, ack: bool)

  predicate Callback(e: Event) {
    e.Response? || e.Result? || e.CancelResponse?
  }

  /** How a goal can end. */
  predicate Outcome(reason: Reason) {
    reason == Succeeded || reason == Canceled || reason == Aborted
  }

  /** One thread ticks: it sends, polls and cancels one after the other. Callbacks come at any time. */
  function Step(limits: Limits, c: Client, e: Event): Client {
    match e
    case Send(timeout, now) => if c.busy == Free then Sent(c, timeout, now) else c
    case SendEnds(throws) => if c.busy == Submitting then HandedOver(c, throws) else c
    case Poll(now, fails) => if c.busy == Free then Polled(limits, c, now, fails) else c
    case PollEnds(now, fails) => if c.busy == Cancelling then CancelRequested(c.(busy := Free), now, fails) else c
    case Cancel(now, fails) => if c.busy == Free then CancelRequested(c, now, fails) else c
    case Response(r, taken, throws) => Responded(c, r, taken, throws)
    case Result(r, outcome) => if Outcome(outcome) then Ended(c, r, outcome) else c
    case CancelResponse(r, ack) => CancelAnswered(c, r, ack)
  }

  function Run(limits: Limits, events: seq<Event>): Client {
    if events == [] then UNSENT else Step(limits, Run(limits, events[..|events| - 1]), events[|events| - 1])
  }

  // ---------------------------------------------------------------- what every run keeps

  predicate EverythingEnded(c: Client) {
    c.goals != map[] && forall r :: r in c.goals ==> c.goals[r].terminal
  }

  /** Once a cancel was requested, every goal the server took, then or later, has been sent a cancel. */
  predicate NoneEscapes(c: Client) {
    c.status.cancelRequested ==> forall r :: r in c.goals && c.goals[r].taken ==> c.goals[r].cancelSent
  }

  predicate Invariant(c: Client) {
    && (c.status.terminal <==> EverythingEnded(c))
    && NoneEscapes(c)
    && (forall r :: r in c.goals ==> 0 < r <= c.revision)
    && (c.revision == 0 ==> c == UNSENT)
    && (forall r :: r in c.goals && c.goals[r].taken ==> c.goals[r].responded)
  }

  lemma SentKeeps(c: Client, timeout: real, now: real)
    requires Invariant(c)
    ensures Invariant(Sent(c, timeout, now))
  {
    var d := Sent(c, timeout, now);
    if !c.status.cancelRequested {
      assert !d.goals[d.revision].terminal;
    }
  }

  lemma HandedOverKeeps(c: Client, throws: bool)
    requires Invariant(c) && c.busy == Submitting
    ensures Invariant(HandedOver(c, throws))
  {}

  lemma RespondedKeeps(c: Client, r: nat, taken: bool, throws: bool)
    requires Invariant(c)
    ensures Invariant(Responded(c, r, taken, throws))
  {}

  lemma EndedKeeps(c: Client, r: nat, outcome: Reason, ack: bool)
    requires Invariant(c)
    ensures Invariant(Ended(c, r, outcome)) && Invariant(CancelAnswered(c, r, ack))
  {}

  lemma CancelKeeps(c: Client, now: real, fails: set<nat>)
    requires Invariant(c) || (Invariant(c.(busy := Cancelling)) && c.revision != 0)
    ensures Invariant(CancelRequested(c, now, fails))
  {
    hide SomeThrow;
    var d := CancelRequested(c, now, fails);
    assert forall r :: r in d.goals <==> r in c.goals;
    assert d.goals == map[] <==> c.goals == map[];
  }

  lemma OrphansKeep(limits: Limits, c: Client, now: real, fails: set<nat>)
    requires Invariant(c) && c.revision != 0
    ensures Invariant(Refreshed(OrphansEnded(limits, c, now, fails)))
  {
    hide Orphaned;
    var d := OrphansEnded(limits, c, now, fails);
    assert forall r :: r in d.goals <==> r in c.goals;
  }

  lemma LimitedKeeps(limits: Limits, c: Client, now: real)
    requires Invariant(c) && c.revision != 0
    ensures Invariant(Limited(limits, c, now))
  {
    hide Overdue, CurrentResponded;
  }

  lemma PolledKeeps(limits: Limits, c: Client, now: real, fails: set<nat>)
    requires Invariant(c)
    ensures Invariant(Polled(limits, c, now, fails))
  {
    hide Invariant, Refreshed, OrphansEnded, Limited;
    var refreshed := Refreshed(OrphansEnded(limits, c, now, fails));
    RefreshKeepsTheRest(limits, c, now, fails);
    if c.revision != 0 {
      OrphansKeep(limits, c, now, fails);
      LimitedKeeps(limits, refreshed, now);
    }
  }

  lemma StepKeeps(limits: Limits, c: Client, e: Event)
    requires Invariant(c)
    ensures Invariant(Step(limits, c, e))
  {
    hide Invariant, Sent, Responded, Ended, CancelAnswered, Polled, CancelRequested;
    match e
    case Send(timeout, now) => SentKeeps(c, timeout, now);
    case SendEnds(throws) => if c.busy == Submitting { HandedOverKeeps(c, throws); }
    case Poll(now, fails) => PolledKeeps(limits, c, now, fails);
    case PollEnds(now, fails) =>
      if c.busy == Cancelling {
        BusyIsSent(c);
        assert c.(busy := Free).(busy := Cancelling) == c;
        CancelKeeps(c.(busy := Free), now, fails);
      }
    case Cancel(now, fails) => CancelKeeps(c, now, fails);
    case Response(r, taken, throws) => RespondedKeeps(c, r, taken, throws);
    case Result(r, outcome) => EndedKeeps(c, r, outcome, false);
    case CancelResponse(r, ack) => EndedKeeps(c, r, NoReason, ack);
  }

  lemma BusyIsSent(c: Client)
    requires Invariant(c) && c.busy != Free
    ensures c.revision != 0
  {}

  lemma {:induction false} RunKeeps(limits: Limits, events: seq<Event>)
    ensures Invariant(Run(limits, events))
    decreases |events|
  {
    hide Invariant, Step;
    if events == [] {
      UnsentKeeps();
    } else {
      RunKeeps(limits, events[..|events| - 1]);
      StepKeeps(limits, Run(limits, events[..|events| - 1]), events[|events| - 1]);
    }
  }

  lemma UnsentKeeps()
    ensures Invariant(UNSENT)
  {}

  /** In every run the client is finished exactly when every goal it still records has ended. */
  lemma FinishedMeansEnded(limits: Limits, events: seq<Event>)
    ensures var c := Run(limits, events); c.status.terminal <==> EverythingEnded(c)
  {
    hide Run;
    RunKeeps(limits, events);
  }

  /** In every run a requested cancel reaches every goal the server took, even one it took after the request. */
  lemma CancelReachesEveryGoal(limits: Limits, events: seq<Event>, r: nat)
    requires var c := Run(limits, events); c.status.cancelRequested && r in c.goals && c.goals[r].taken
    ensures Run(limits, events).goals[r].cancelSent
  {
    hide Run;
    RunKeeps(limits, events);
  }

  lemma RefreshKeepsTheRest(limits: Limits, c: Client, now: real, fails: set<nat>)
    ensures var d := Refreshed(OrphansEnded(limits, c, now, fails));
            d.status.cancelRequested == c.status.cancelRequested && d.revision == c.revision && d.busy == c.busy
  {}

  /** The locked part of polling leaves nothing waiting past its limit without a cancel or the intention of one. */
  lemma PolledInTime(limits: Limits, c: Client, now: real, fails: set<nat>)
    requires Invariant(c) && c.revision != 0
    ensures var d := Polled(limits, c, now, fails);
            d.status.terminal ||
            (&& (Overdue(limits, d, now) ==> d.status.cancelRequested || d.busy == Cancelling)
             && (d.status.cancelRequested && now - d.cancelAt > limits.cancelTimeout ==> d.status.timedOut))
  {
    hide Refreshed, OrphansEnded, EverythingEnded, NoneEscapes;
    if !c.status.terminal {
      RefreshKeepsTheRest(limits, c, now, fails);
    }
  }

  /** What callbacks leave of a poll's findings. */
  predicate Overtakes(c: Client, d: Client) {
    && d.revision == c.revision && d.busy == c.busy && d.sent == c.sent && d.resultTimeout == c.resultTimeout
    && d.cancelAt == c.cancelAt && d.status.cancelRequested == c.status.cancelRequested
    && d.status.timedOut == c.status.timedOut
    && (CurrentResponded(c) ==> CurrentResponded(d)) && (c.status.terminal ==> d.status.terminal)
  }

  lemma RefreshedFields(c: Client)
    ensures var d := Refreshed(c); d == c.(status := c.status.(terminal := d.status.terminal, cancelAck := d.status.cancelAck))
  {}

  /** A callback that answers for one goal. */
  lemma AnswerOvertakes(c: Client, r: nat, g: Goal, s: Status)
    requires r in c.goals && (c.goals[r].responded ==> g.responded)
    requires s == c.status.(accepted := s.accepted, rejected := s.rejected, success := s.success, reason := s.reason)
    requires c.status.terminal ==> EverythingEnded(c) && g.terminal
    ensures Overtakes(c, Refreshed(c.(goals := c.goals[r := g], status := s)))
  {
    var d := c.(goals := c.goals[r := g], status := s);
    RefreshedFields(d);
    if c.status.terminal {
      StillEnded(c.(status := s), r, g);
    }
  }

  lemma ResponseOvertakes(c: Client, r: nat, taken: bool, throws: bool)
    requires r in c.goals && (c.status.terminal ==> EverythingEnded(c) && c.goals[r].terminal)
    ensures Overtakes(c, Responded(c, r, taken, throws))
  {
    hide Refreshed, Overtakes, EverythingEnded;
    AnswerOvertakes(c, r, AnsweredGoal(c, r, taken), AnsweredStatus(c, r, taken, throws));
  }

  lemma ResultOvertakes(c: Client, r: nat, outcome: Reason, ack: bool)
    requires r in c.goals && (c.status.terminal ==> EverythingEnded(c) && c.goals[r].terminal)
    ensures Overtakes(c, Ended(c, r, outcome)) && Overtakes(c, CancelAnswered(c, r, ack))
  {
    hide Refreshed, Overtakes, EverythingEnded;
    var s, g := c.status, c.goals[r];
    AnswerOvertakes(c, r, g.(terminal := true),
                    if r == c.revision then s.(success := outcome == Succeeded, reason := outcome) else s);
    var acked := g.(cancelResponded := true, cancelAck := g.cancelAck || (ack && g.taken));
    AnswerOvertakes(c, r, acked, s);
    assert c.(goals := c.goals[r := acked], status := s) == c.(goals := c.goals[r := acked]);
  }

  lemma CallbackOvertakes(limits: Limits, c: Client, e: Event)
    requires Invariant(c) && Callback(e)
    ensures Overtakes(c, Step(limits, c, e))
  {
    OvertakesItself(c);
    if e.revision in c.goals {
      hide Overtakes, Responded, Ended, CancelAnswered;
      match e
      case Response(r, taken, throws) => ResponseOvertakes(c, r, taken, throws);
      case Result(r, outcome) => ResultOvertakes(c, r, outcome, false);
      case CancelResponse(r, ack) => ResultOvertakes(c, r, NoReason, ack);
    }
  }

  lemma OvertakesItself(c: Client)
    ensures Overtakes(c, c)
  {}

  lemma {:induction false} CallbacksOvertake(limits: Limits, events: seq<Event>, callbacks: seq<Event>)
    requires forall i :: 0 <= i < |callbacks| ==> Callback(callbacks[i])
    ensures Overtakes(Run(limits, events), Run(limits, events + callbacks))
    decreases |callbacks|
  {
    hide Step, Callback;
    if callbacks == [] {
      assert events + callbacks == events;
    } else {
      var n := |callbacks| - 1;
      CallbacksOvertake(limits, events, callbacks[..n]);
      RunKeeps(limits, events + callbacks[..n]);
      assert (events + callbacks)[..|events + callbacks| - 1] == events + callbacks[..n];
      CallbackOvertakes(limits, Run(limits, events + callbacks[..n]), callbacks[n]);
    }
  }

  lemma RunExtends(limits: Limits, events: seq<Event>, e: Event)
    ensures Run(limits, events + [e]) == Step(limits, Run(limits, events), e)
  {
    assert (events + [e])[..|events|] == events;
  }

  /**
   However callbacks cut in between the two parts of a poll: after it, the client is finished, or no wait for a
   response or result is past its limit without a cancel, and no cancel is without being declared timed out.
   */
  lemma NoWaitOutlivesItsLimit(limits: Limits, events: seq<Event>, now: real, fails: set<nat>, callbacks: seq<Event>,
                               later: real, alsoFail: set<nat>)
    requires Run(limits, events).busy == Free && Run(limits, events).revision != 0
    requires forall i :: 0 <= i < |callbacks| ==> Callback(callbacks[i])
    requires now <= later && limits.cancelTimeout >= 0.0
    ensures var d := Run(limits, events + [Poll(now, fails)] + callbacks + [PollEnds(later, alsoFail)]);
            d.busy == Free &&
            (d.status.terminal ||
             (&& (Overdue(limits, d, now) ==> d.status.cancelRequested)
              && (d.status.cancelRequested && now - d.cancelAt > limits.cancelTimeout ==> d.status.timedOut)))
  {
    hide Run, Polled, CurrentResponded, SomeThrow, AllCanceled;
    var polled := events + [Poll(now, fails)];
    RunKeeps(limits, events);
    RunExtends(limits, events, Poll(now, fails));
    PolledInTime(limits, Run(limits, events), now, fails);
    PolledIsFree(limits, Run(limits, events), now, fails);
    CallbacksOvertake(limits, polled, callbacks);
    RunExtends(limits, polled + callbacks, PollEnds(later, alsoFail));
    RunKeeps(limits, polled + callbacks);
    CancelKeepsResponded(Run(limits, polled + callbacks), later, alsoFail);
  }

  lemma PolledIsFree(limits: Limits, c: Client, now: real, fails: set<nat>)
    requires c.busy == Free
    ensures var d := Polled(limits, c, now, fails);
            d.busy == Free || (d.busy == Cancelling && !d.status.cancelRequested && d.revision != 0)
  {
    hide Refreshed, OrphansEnded;
    RefreshKeepsTheRest(limits, c, now, fails);
  }

  lemma CancelKeepsResponded(c: Client, now: real, fails: set<nat>)
    ensures CurrentResponded(CancelRequested(c.(busy := Free), now, fails)) <==> CurrentResponded(c)
  {
    hide SomeThrow;
  }

  // ---------------------------------------------------------------- the rules of a session

  /** The client as the runtime sees it. */
  function View(c: Client, moves: bool): R.Session {
    R.Session(moves, c.status.accepted, c.status.terminal, c.status.success, c.status.rejected,
              c.status.cancelRequested, c.status.timedOut, c.status.reason == CancelUnconfirmed)
  }

  /** Sending is submitting. */
  lemma SendingSubmits(c: Client, moves: bool, timeout: real, now: real)
    ensures View(Sent(c, timeout, now), moves) == R.Submitted(View(c, moves))
  {}

  /** Whatever else happens, a throwing transport included, happens within the rules of a session. */
  lemma EverythingElseEvolves(limits: Limits, c: Client, moves: bool, e: Event)
    requires Invariant(c) && !e.Send?
    ensures R.Evolves(View(c, moves), View(Step(limits, c, e), moves))
  {
    hide SomeThrow, Invariant, Responded, Ended, CancelAnswered, Polled;
    if Callback(e) {
      CallbackOvertakes(limits, c, e);
    } else if e.Poll? {
      PolledEvolves(limits, c, e.now, e.fails);
    }
  }

  lemma StillEnded(c: Client, r: nat, g: Goal)
    requires EverythingEnded(c) && r in c.goals && g.terminal
    ensures Refreshed(c.(goals := c.goals[r := g])).status.terminal
  {}

  lemma PolledEvolves(limits: Limits, c: Client, now: real, fails: set<nat>)
    ensures c.status.terminal ==> Polled(limits, c, now, fails) == c
    ensures c.status.cancelRequested ==> Polled(limits, c, now, fails).status.cancelRequested
  {
    hide OrphansEnded;
    RefreshKeepsTheRest(limits, c, now, fails);
    hide Refreshed;
  }

  // ---------------------------------------------------------------- the client

  class ActionClient {
    const limits: Limits
    var goals: map<nat, Goal>
    var revision: nat
    var status: Status
    var sent: real
    var cancelAt: real
    var resultTimeout: real
    ghost var busy: Busy

    ghost function Value(): Client
      reads this
    {
      Client(goals, revision, status, sent, cancelAt, resultTimeout, busy)
    }

    constructor (limits: Limits)
      ensures this.limits == limits && Value() == UNSENT
    {
      this.limits := limits;
      goals, revision, status, sent, cancelAt, resultTimeout, busy := map[], 0, UNSENT.status, 0.0, 0.0, 0.0, Free;
    }

    method RefreshTerminal()
      modifies `status
      ensures Value() == Refreshed(old(Value()))
    {
      var terminal, cancelAck := goals != map[], true;
      var left := goals.Keys;
      while left != {}
        invariant left <= goals.Keys
        invariant terminal <==> goals != map[] && forall r :: r in goals && r !in left ==> goals[r].terminal
        invariant cancelAck <==> forall r :: r in goals && r !in left ==> goals[r].terminal || goals[r].cancelAck
        decreases |left|
      {
        var r :| r in left;
        left := left - {r};
        terminal := terminal && goals[r].terminal;
        cancelAck := cancelAck && (goals[r].terminal || goals[r].cancelAck);
      }
      status := status.(terminal := terminal, cancelAck := cancelAck);
    }

    /** Cancels one goal, if the server took it and no cancel was sent; throws is whether the call throws. */
    method CancelRecord(r: nat, throws: bool)
      requires r in goals
      modifies `goals, `status
      ensures goals == old(goals)[r := CancelOf(old(goals)[r])]
      ensures status == Reported(old(status), Attempts(old(goals)[r]) && throws)
    {
      if !goals[r].taken || goals[r].cancelSent {
        return;
      }
      goals := goals[r := goals[r].(cancelSent := true)];
      if throws {
        status := status.(reason := CancelSendError);
      }
    }

    /** Cancels every recorded goal the server took. */
    method CancelRecords(fails: set<nat>)
      modifies `goals, `status
      ensures goals == AllCanceled(old(goals))
      ensures status == Reported(old(status), SomeThrow(old(goals), fails))
    {
      var left := goals.Keys;
      while left != {}
        invariant left <= goals.Keys == old(goals).Keys
        invariant forall r :: r in goals ==> goals[r] == if r in left then old(goals)[r] else CancelOf(old(goals)[r])
        invariant status == Reported(old(status), exists r :: r in fails && r in goals && r !in left && Attempts(old(goals)[r]))
        decreases |left|
      {
        var r :| r in left;
        left := left - {r};
        CancelRecord(r, r in fails);
      }
    }

    method ForgetSettled()
      modifies `goals
      ensures goals == map r | r in old(goals) && !Forgettable(old(goals)[r]) :: old(goals)[r]
    {
      var left := goals.Keys;
      while left != {}
        invariant left <= goals.Keys <= old(goals).Keys
        invariant forall r :: r in old(goals) ==> (r in goals <==> r in left || !Forgettable(old(goals)[r]))
        invariant forall r :: r in goals ==> goals[r] == old(goals)[r]
        decreases |left|
      {
        var r :| r in left;
        left := left - {r};
        if goals[r].terminal && goals[r].responded && (!goals[r].cancelSent || goals[r].cancelResponded) {
          goals := goals - {r};
        }
      }
    }

    /** The locked part of sending; handing over remains to be done unless a cancel was requested. */
    method SendGoal(timeout: real, now: real)
      modifies this
      ensures Value() == Sent(old(Value()), timeout, now)
    {
      if status.cancelRequested {
        return;
      }
      ForgetSettled();
      if revision in goals && goals[revision].superseded.None? {
        goals := goals[revision := goals[revision].(superseded := Some(now))];
      }
      var keepAccepted := status.accepted && !status.rejected && !status.timedOut;
      revision := revision + 1;
      goals := goals[revision := FRESH];
      sent := now;
      resultTimeout := timeout;
      status := status.(accepted := keepAccepted, terminal := false, success := false, rejected := false);
      busy := Submitting;
    }

    method HandOver(throws: bool)
      modifies `status, `busy
      ensures Value() == HandedOver(old(Value()), throws)
    {
      busy := Free;
      if throws {
        status := status.(reason := SendError, timedOut := true);
      }
    }

    method OnResponse(r: nat, taken: bool, throws: bool)
      modifies `goals, `status
      ensures Value() == Responded(old(Value()), r, taken, throws)
    {
      hide Refreshed;
      if r !in goals {
        return;
      }
      goals := goals[r := goals[r].(responded := true, taken := taken)];
      if !taken {
        goals := goals[r := goals[r].(terminal := true)];
        if r == revision {
          status := status.(accepted := false, rejected := true, reason := GoalRejected);
        }
      } else {
        if r == revision {
          status := status.(accepted := true);
        }
        if r != revision || status.cancelRequested {
          CancelRecord(r, throws);
        }
      }
      assert goals == old(goals)[r := goals[r]];
      RefreshTerminal();
    }

    method OnResult(r: nat, outcome: Reason)
      modifies `goals, `status
      ensures Value() == Ended(old(Value()), r, outcome)
    {
      hide Refreshed;
      if r !in goals {
        return;
      }
      goals := goals[r := goals[r].(terminal := true)];
      if r == revision {
        status := status.(success := outcome == Succeeded, reason := outcome);
      }
      RefreshTerminal();
    }

    method OnCancelResponse(r: nat, ack: bool)
      modifies `goals, `status
      ensures Value() == CancelAnswered(old(Value()), r, ack)
    {
      hide Refreshed;
      if r !in goals {
        return;
      }
      goals := goals[r := goals[r].(cancelResponded := true, cancelAck := goals[r].cancelAck || (ack && goals[r].taken))];
      RefreshTerminal();
    }

    method CancelNow(now: real, fails: set<nat>)
      modifies `goals, `status, `cancelAt
      ensures Value() == CancelRequested(old(Value()), now, fails)
    {
      if status.terminal || revision == 0 {
        return;
      }
      if !status.cancelRequested {
        status := status.(cancelRequested := true);
        cancelAt := now;
      }
      CancelRecords(fails);
    }

    /** One goal, recorded in c as it still is. */
    method EndOrphan(ghost c: Client, r: nat, now: real, throws: bool)
      requires r in goals && r in c.goals && goals[r] == c.goals[r] && revision == c.revision && sent == c.sent
      modifies `goals, `status
      ensures goals == old(goals)[r := OrphanEnded(limits, c, r, now)]
      ensures status == Reported(old(status), throws && OrphanAttempts(limits, c, r, now))
    {
      if r < revision && Overstays(limits, goals[r], sent, now) {
        CancelRecord(r, throws);
        goals := goals[r := goals[r].(terminal := true)];
      }
      assert goals == old(goals)[r := goals[r]];
    }

    method EndOrphans(now: real, fails: set<nat>)
      modifies `goals, `status
      ensures Value() == OrphansEnded(limits, old(Value()), now, fails)
    {
      hide OrphanEnded, OrphanAttempts, Reported, OrphansThrow;
      ghost var c := Value();
      NoOrphan(limits, c, now, fails);
      var left := goals.Keys;
      while left != {}
        invariant left <= c.goals.Keys && goals.Keys == c.goals.Keys
        invariant forall r :: r in goals ==> goals[r] == if r in left then c.goals[r] else OrphanEnded(limits, c, r, now)
        invariant status == OrphansReported(limits, c, now, fails, left)
        decreases |left|
      {
        var r :| r in left;
        OneMoreOrphan(limits, c, now, fails, left, r);
        hide OrphansReported;
        left := left - {r};
        EndOrphan(c, r, now, r in fails);
      }
    }

    /** Applies the limits; the caller cancels afterwards if it has to. */
    method ApplyLimits(now: real) returns (cancels: bool)
      modifies `status, `busy
      ensures Value() == Limited(limits, old(Value()), now)
      ensures cancels <==> !old(status).cancelRequested && Overdue(limits, old(Value()), now)
    {
      var responded := revision in goals && goals[revision].responded;
      var elapsed := now - sent;
      cancels := false;
      if !status.cancelRequested &&
         ((!responded && elapsed > limits.responseTimeout) || (resultTimeout > 0.0 && elapsed > resultTimeout) || status.timedOut) {
        var resultLate := resultTimeout > 0.0 && elapsed > resultTimeout;
        status := status.(reason := if (responded || status.accepted) && resultLate then ResultTimeout else ResponseTimeout,
                          timedOut := true);
        if !responded {
          status := status.(accepted := false);
        }
        cancels := true;
        busy := Cancelling;
      }
      if status.cancelRequested && now - cancelAt > limits.cancelTimeout {
        status := status.(timedOut := true, reason := CancelUnconfirmed);
      }
    }

    /** The locked part of polling. */
    method PollNow(now: real, fails: set<nat>) returns (cancels: bool)
      modifies `goals, `status, `busy
      ensures Value() == Polled(limits, old(Value()), now, fails)
      ensures old(busy) == Free ==> (cancels <==> busy == Cancelling)
    {
      hide OrphansEnded, Refreshed;
      if status.terminal || revision == 0 {
        return false;
      }
      RefreshKeepsTheRest(limits, Value(), now, fails);
      EndOrphans(now, fails);
      RefreshTerminal();
      if status.terminal {
        return false;
      }
      cancels := ApplyLimits(now);
    }

    /** After the lock was let go. */
    method FinishPoll(now: real, fails: set<nat>)
      requires busy == Cancelling
      modifies `goals, `status, `cancelAt, `busy
      ensures Value() == CancelRequested(old(Value()).(busy := Free), now, fails)
    {
      busy := Free;
      CancelNow(now, fails);
    }
  }
}
