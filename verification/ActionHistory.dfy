/**
 What the flags of an action client stand for, told by the calls and callbacks of a run alone: which goals ended,
 which were given up, which were cancelled and why, and what the client shows of the latest one.
 */
module ActionHistory {
  import opened BoundedAction

  function Before(events: seq<Event>): seq<Event>
    requires events != []
  {
    events[..|events| - 1]
  }

  function Last(events: seq<Event>): Event
    requires events != []
  {
    events[|events| - 1]
  }

  /** The send that makes a new goal; none does once a cancel was requested. */
  predicate Sends(c: Client, e: Event) {
    e.Send? && c.busy == Free && !c.status.cancelRequested
  }

  /** A cancel of the whole client, by its owner or because a limit has passed. */
  predicate Cancels(c: Client, e: Event) {
    ((e.Cancel? && c.busy == Free) || (e.PollEnds? && c.busy == Cancelling)) && !c.status.terminal && c.revision != 0
  }

  /** The server says that the goal is over: it refused it or reports its result. */
  predicate SaysOver(e: Event, r: nat) {
    (e.Response? && e.revision == r && !e.taken) || (e.Result? && e.revision == r && Outcome(e.outcome))
  }

  // ---------------------------------------------------------------- the history of one goal

  predicate EndHeard(limits: Limits, events: seq<Event>, r: nat)
    decreases |events|
  {
    events != [] && (EndHeard(limits, Before(events), r) || (r in Run(limits, Before(events)).goals && SaysOver(Last(events), r)))
  }

  /** When a later goal was sent in place of this one. */
  function ReplacedAt(limits: Limits, events: seq<Event>, r: nat): Option<real>
    decreases |events|
  {
    if events == [] then None
    else
      var c := Run(limits, Before(events));
      if Sends(c, Last(events)) && c.revision == r then Some(Last(events).now) else ReplacedAt(limits, Before(events), r)
  }

  predicate LongReplaced(limits: Limits, events: seq<Event>, r: nat, now: real) {
    var at := ReplacedAt(limits, events, r);
    at.Some? && now - at.value > limits.responseTimeout + limits.cancelTimeout
  }

  /** A poll found the goal long replaced and still not over. */
  predicate GivenUp(limits: Limits, events: seq<Event>, r: nat)
    decreases |events|
  {
    events != [] &&
    (GivenUp(limits, Before(events), r) ||
     var c := Run(limits, Before(events));
     && Last(events).Poll? && c.busy == Free && !c.status.terminal && r in c.goals && !EndHeard(limits, Before(events), r)
     && LongReplaced(limits, Before(events), r, Last(events).now))
  }

  /** The server's last answer to whether it takes the goal. */
  function Answer(limits: Limits, events: seq<Event>, r: nat): Option<bool>
    decreases |events|
  {
    if events == [] then None
    else if Last(events).Response? && Last(events).revision == r && r in Run(limits, Before(events)).goals then
      Some(Last(events).taken)
    else Answer(limits, Before(events), r)
  }

  /** The server took the goal when it had already been replaced. */
  predicate TakenLate(limits: Limits, events: seq<Event>, r: nat)
    decreases |events|
  {
    events != [] &&
    (TakenLate(limits, Before(events), r) ||
     var c := Run(limits, Before(events));
     Last(events).Response? && Last(events).revision == r && Last(events).taken && r in c.goals && r != c.revision)
  }

  /** The server confirmed that it cancels the goal. */
  predicate AckHeard(limits: Limits, events: seq<Event>, r: nat)
    decreases |events|
  {
    events != [] &&
    (AckHeard(limits, Before(events), r) ||
     (Last(events).CancelResponse? && Last(events).revision == r && Last(events).ack
      && r in Run(limits, Before(events)).goals && Answer(limits, Before(events), r) == Some(true)))
  }

  /** The server answered a cancel of the goal, one way or the other. */
  predicate CancelHeard(limits: Limits, events: seq<Event>, r: nat)
    decreases |events|
  {
    events != [] &&
    (CancelHeard(limits, Before(events), r) ||
     (Last(events).CancelResponse? && Last(events).revision == r && r in Run(limits, Before(events)).goals))
  }

  /** What one step does to one recorded goal. */
  lemma GoalStep(limits: Limits, c: Client, e: Event, r: nat)
    requires Invariant(c) && r in c.goals && r in Step(limits, c, e).goals
    ensures var g := c.goals[r];
            Step(limits, c, e).goals[r] ==
            if Sends(c, e) then if r == c.revision && g.superseded.None? then g.(superseded := Some(e.now)) else g
            else if Cancels(c, e) then CancelOf(g)
            else if e.Poll? && c.busy == Free && !c.status.terminal then OrphanEnded(limits, c, r, e.now)
            else if e.Response? && e.revision == r then AnsweredGoal(c, r, e.taken)
            else if e.Result? && e.revision == r && Outcome(e.outcome) then g.(terminal := true)
            else if e.CancelResponse? && e.revision == r then
              g.(cancelResponded := true, cancelAck := g.cancelAck || (e.ack && g.taken))
            else g
  {
    hide OrphanEnded, AnsweredGoal, AnsweredStatus, OrphansReported, SomeThrow, EverythingEnded, NoneEscapes, Overdue;
  }

  /** Goals are recorded when sent and forgotten, by a later send, exactly when nothing more can be heard of them. */
  lemma RecordsExactly(limits: Limits, c: Client, e: Event, r: nat)
    requires Invariant(c)
    ensures r in Step(limits, c, e).goals <==>
            if Sends(c, e) then r == c.revision + 1 || (r in c.goals && !Forgettable(c.goals[r])) else r in c.goals
    ensures Step(limits, c, e).revision == if Sends(c, e) then c.revision + 1 else c.revision
    ensures Sends(c, e) && r == c.revision + 1 ==> Step(limits, c, e).goals[r] == FRESH
  {
    hide OrphanEnded, AnsweredGoal, AnsweredStatus, OrphansReported, SomeThrow, EverythingEnded, NoneEscapes, Overdue;
  }

  lemma RunSplits(limits: Limits, events: seq<Event>)
    requires events != []
    ensures Run(limits, events) == Step(limits, Run(limits, Before(events)), Last(events))
  {}

  /** Nothing was heard of goals that have not been sent. */
  lemma {:induction false} UnsentIsUnheard(limits: Limits, events: seq<Event>, r: nat)
    requires r > Run(limits, events).revision
    ensures !EndHeard(limits, events, r) && !GivenUp(limits, events, r) && ReplacedAt(limits, events, r).None?
    ensures Answer(limits, events, r).None? && !TakenLate(limits, events, r) && !AckHeard(limits, events, r)
    ensures !CancelHeard(limits, events, r)
    decreases |events|
  {
    hide Run, Step;
    if events != [] {
      RunSplits(limits, events);
      RunKeeps(limits, Before(events));
      RecordsExactly(limits, Run(limits, Before(events)), Last(events), r);
      UnsentIsUnheard(limits, Before(events), r);
    }
  }

  lemma {:induction false} LatestIsNotReplaced(limits: Limits, events: seq<Event>)
    ensures var c := Run(limits, events);
            ReplacedAt(limits, events, c.revision).None? && (c.revision > 0 ==> c.revision in c.goals)
    decreases |events|
  {
    hide Run, Step;
    if events != [] {
      RunSplits(limits, events);
      RunKeeps(limits, Before(events));
      var c := Run(limits, Before(events));
      RecordsExactly(limits, c, Last(events), Run(limits, events).revision);
      LatestIsNotReplaced(limits, Before(events));
      UnsentIsUnheard(limits, Before(events), c.revision + 1);
    } else {
      assert Run(limits, events) == UNSENT by {
        RunOfNothing(limits);
      }
    }
  }

  lemma RunOfNothing(limits: Limits)
    ensures Run(limits, []) == UNSENT
  {}

  /** What the record of a goal says is what the run has shown. */
  predicate Told(limits: Limits, events: seq<Event>, r: nat, g: Goal) {
    && g.terminal == (EndHeard(limits, events, r) || GivenUp(limits, events, r))
    && g.responded == Answer(limits, events, r).Some? && g.taken == (Answer(limits, events, r) == Some(true))
    && g.superseded == ReplacedAt(limits, events, r)
    && g.cancelAck == AckHeard(limits, events, r) && g.cancelResponded == CancelHeard(limits, events, r)
  }

  /** A goal is cancelled for a reason: the client was asked to, or the goal was replaced before it was taken or ended. */
  predicate CancelFounded(limits: Limits, events: seq<Event>, r: nat, g: Goal) {
    && (TakenLate(limits, events, r) ==> g.cancelSent)
    && (g.cancelSent ==> Run(limits, events).status.cancelRequested || TakenLate(limits, events, r) || GivenUp(limits, events, r))
    && (r < Run(limits, events).revision ==> g.superseded.Some?)
  }

  lemma CancelStays(limits: Limits, c: Client, e: Event)
    requires Invariant(c)
    ensures c.status.cancelRequested ==> Step(limits, c, e).status.cancelRequested
    ensures Cancels(c, e) ==> Step(limits, c, e).status.cancelRequested
  {
    hide Invariant, Polled, Responded, Ended, CancelAnswered, SomeThrow;
    if !e.Send? {
      EverythingElseEvolves(limits, c, true, e);
    }
  }

  lemma {:induction false} GoalIsTold(limits: Limits, events: seq<Event>, r: nat)
    requires r in Run(limits, events).goals
    ensures Tells(limits, events, r, Run(limits, events).goals[r])
    decreases |events|
  {
    hide Run, Step, Told, CancelFounded, Sends, Cancels, Invariant, OrphanEnded, AnsweredGoal;
    if events == [] {
      RunOfNothing(limits);
    } else {
      var c, e := Run(limits, Before(events)), Last(events);
      RunSplits(limits, events);
      RunKeeps(limits, Before(events));
      RecordsExactly(limits, c, e, r);
      CancelStays(limits, c, e);
      LatestIsNotReplaced(limits, Before(events));
      if r !in c.goals {
        UnsentIsUnheard(limits, Before(events), c.revision + 1);
        SentIsTold(limits, events, r);
      } else {
        GoalIsTold(limits, Before(events), r);
        RecordedIsOld(c, r);
        GoalStep(limits, c, e, r);
        var g := c.goals[r];
        if Sends(c, e) {
          TellsSend(limits, events, r, c, g);
        } else if Cancels(c, e) {
          TellsCancel(limits, events, r, c, g);
        } else if e.Poll? && c.busy == Free && !c.status.terminal {
          TellsPoll(limits, events, r, c, g);
        } else if e.Response? && e.revision == r {
          TellsResponse(limits, events, r, c, g);
        } else if e.Result? && e.revision == r && Outcome(e.outcome) {
          TellsResult(limits, events, r, c, g);
        } else if e.CancelResponse? && e.revision == r {
          TellsAck(limits, events, r, c, g);
        } else {
          TellsNothing(limits, events, r, c, g);
        }
      }
    }
  }

  lemma RecordedIsOld(c: Client, r: nat)
    requires Invariant(c) && r in c.goals
    ensures 0 < r <= c.revision
  {}

  lemma SentIsTold(limits: Limits, events: seq<Event>, r: nat)
    requires events != [] && Sends(Run(limits, Before(events)), Last(events)) && r == Run(limits, Before(events)).revision + 1
    requires !EndHeard(limits, Before(events), r) && !GivenUp(limits, Before(events), r)
    requires ReplacedAt(limits, Before(events), r).None? && Answer(limits, Before(events), r).None?
    requires !TakenLate(limits, Before(events), r) && !AckHeard(limits, Before(events), r) && !CancelHeard(limits, Before(events), r)
    requires Run(limits, events).revision == r
    ensures Told(limits, events, r, FRESH) && CancelFounded(limits, events, r, FRESH)
  {
    hide Run;
  }

  /** The last step of a run, seen from a goal that was recorded before and after. */
  ghost predicate Stepped(limits: Limits, events: seq<Event>, r: nat, c: Client, g: Goal) {
    && events != [] && c == Run(limits, Before(events)) && r in c.goals && r <= c.revision && g == c.goals[r]
    && Told(limits, Before(events), r, g) && CancelFounded(limits, Before(events), r, g)
    && Run(limits, events).revision == (if Sends(c, Last(events)) then c.revision + 1 else c.revision)
    && ReplacedAt(limits, Before(events), c.revision).None?
    && (c.status.cancelRequested ==> Run(limits, events).status.cancelRequested)
    && (Cancels(c, Last(events)) ==> Run(limits, events).status.cancelRequested)
  }

  predicate Tells(limits: Limits, events: seq<Event>, r: nat, g: Goal) {
    Told(limits, events, r, g) && CancelFounded(limits, events, r, g)
  }

  lemma TellsSend(limits: Limits, events: seq<Event>, r: nat, c: Client, g: Goal)
    requires Stepped(limits, events, r, c, g) && Sends(c, Last(events))
    ensures Tells(limits, events, r, if r == c.revision && g.superseded.None? then g.(superseded := Some(Last(events).now)) else g)
  {
    hide Run;
  }

  lemma TellsCancel(limits: Limits, events: seq<Event>, r: nat, c: Client, g: Goal)
    requires Stepped(limits, events, r, c, g) && Cancels(c, Last(events))
    ensures Tells(limits, events, r, CancelOf(g))
  {
    hide Run;
  }

  lemma TellsPoll(limits: Limits, events: seq<Event>, r: nat, c: Client, g: Goal)
    requires Stepped(limits, events, r, c, g) && Last(events).Poll? && c.busy == Free && !c.status.terminal
    ensures Tells(limits, events, r, OrphanEnded(limits, c, r, Last(events).now))
  {
    hide Run;
  }

  lemma TellsResponse(limits: Limits, events: seq<Event>, r: nat, c: Client, g: Goal)
    requires Stepped(limits, events, r, c, g) && Last(events).Response? && Last(events).revision == r
    ensures Tells(limits, events, r, AnsweredGoal(c, r, Last(events).taken))
  {
    hide Run;
  }

  lemma TellsResult(limits: Limits, events: seq<Event>, r: nat, c: Client, g: Goal)
    requires Stepped(limits, events, r, c, g) && Last(events).Result? && Last(events).revision == r && Outcome(Last(events).outcome)
    ensures Tells(limits, events, r, g.(terminal := true))
  {
    hide Run;
  }

  lemma TellsAck(limits: Limits, events: seq<Event>, r: nat, c: Client, g: Goal)
    requires Stepped(limits, events, r, c, g) && Last(events).CancelResponse? && Last(events).revision == r
    ensures Tells(limits, events, r, g.(cancelResponded := true, cancelAck := g.cancelAck || (Last(events).ack && g.taken)))
  {
    hide Run;
  }

  /** No other step concerns the goal. */
  lemma TellsNothing(limits: Limits, events: seq<Event>, r: nat, c: Client, g: Goal)
    requires Stepped(limits, events, r, c, g) && !Sends(c, Last(events))
    requires Last(events).Poll? ==> c.busy != Free || c.status.terminal
    requires !((Last(events).Response? || Last(events).Result? || Last(events).CancelResponse?) && Last(events).revision == r) ||
             (Last(events).Result? && !Outcome(Last(events).outcome))
    ensures Tells(limits, events, r, g)
  {
    hide Run;
  }

  /**
   In every run, what is recorded of a goal is its history: it is over exactly when the server said so or a poll gave it
   up long after it was replaced; it is taken as the server last answered; and a cancel was sent for it if it was taken
   too late, and otherwise only because the client was cancelled or the goal given up.
   */
  lemma GoalFlagsMean(limits: Limits, events: seq<Event>, r: nat)
    requires r in Run(limits, events).goals
    ensures var c := Run(limits, events); var g := c.goals[r];
            && (g.terminal <==> EndHeard(limits, events, r) || GivenUp(limits, events, r))
            && (g.taken <==> Answer(limits, events, r) == Some(true)) && (g.responded <==> Answer(limits, events, r).Some?)
            && (g.cancelAck <==> AckHeard(limits, events, r))
            && (TakenLate(limits, events, r) ==> g.cancelSent)
            && (g.cancelSent ==> c.status.cancelRequested || TakenLate(limits, events, r) || GivenUp(limits, events, r))
            && (r < c.revision ==> ReplacedAt(limits, events, r).Some?)
  {
    hide Run;
    GoalIsTold(limits, events, r);
  }

  /** So the client is finished exactly when each of its recorded goals is over, as told by the server or given up. */
  lemma FinishedMeansAllOver(limits: Limits, events: seq<Event>)
    ensures var c := Run(limits, events);
            c.status.terminal <==>
            c.goals != map[] && forall r :: r in c.goals ==> EndHeard(limits, events, r) || GivenUp(limits, events, r)
  {
    hide Run;
    FinishedMeansEnded(limits, events);
    forall r | r in Run(limits, events).goals
      ensures Run(limits, events).goals[r].terminal == (EndHeard(limits, events, r) || GivenUp(limits, events, r))
    {
      GoalIsTold(limits, events, r);
    }
  }

  /** When a new goal is sent, exactly those are forgotten of which nothing more can be heard. */
  lemma ForgottenExactly(limits: Limits, events: seq<Event>, e: Event, r: nat)
    requires Sends(Run(limits, events), e) && r in Run(limits, events).goals
    ensures var g := Run(limits, events).goals[r];
            r !in Run(limits, events + [e]).goals <==>
              && (EndHeard(limits, events, r) || GivenUp(limits, events, r)) && Answer(limits, events, r).Some?
              && (g.cancelSent ==> CancelHeard(limits, events, r))
  {
    hide Run, Step, Sends;
    RunKeeps(limits, events);
    RunExtends(limits, events, e);
    RecordsExactly(limits, Run(limits, events), e, r);
    RecordedIsOld(Run(limits, events), r);
    GoalIsTold(limits, events, r);
  }

  /** A callback for a recorded goal, after which the client looks at all of them again. */
  predicate Refreshes(c: Client, e: Event) {
    Callback(e) && e.revision in c.goals && (e.Result? ==> Outcome(e.outcome))
  }

  /** After such a callback the client shows its cancel as confirmed exactly when every goal is over or confirmed. */
  lemma AckShownExactly(limits: Limits, events: seq<Event>, e: Event)
    requires Refreshes(Run(limits, events), e)
    ensures var d := Run(limits, events + [e]);
            d.status.cancelAck <==>
            forall r :: r in d.goals ==>
              EndHeard(limits, events + [e], r) || GivenUp(limits, events + [e], r) || AckHeard(limits, events + [e], r)
  {
    hide Run, Step;
    RunExtends(limits, events, e);
    RefreshShows(limits, Run(limits, events), e);
    var d := Run(limits, events + [e]);
    forall r | r in d.goals
      ensures d.goals[r].terminal == (EndHeard(limits, events + [e], r) || GivenUp(limits, events + [e], r))
      ensures d.goals[r].cancelAck == AckHeard(limits, events + [e], r)
    {
      GoalIsTold(limits, events + [e], r);
    }
  }

  lemma RefreshShows(limits: Limits, c: Client, e: Event)
    requires Refreshes(c, e)
    ensures var d := Step(limits, c, e);
            d.status.cancelAck <==> forall r :: r in d.goals ==> d.goals[r].terminal || d.goals[r].cancelAck
  {
    hide AnsweredGoal, AnsweredStatus;
  }

  // ---------------------------------------------------------------- what the client shows of the latest goal

  /** The last result reported for the latest goal. */
  function LatestOutcome(limits: Limits, events: seq<Event>): Option<Reason>
    decreases |events|
  {
    if events == [] then None
    else
      var c, e := Run(limits, Before(events)), Last(events);
      if Sends(c, e) then None
      else if e.Result? && e.revision == c.revision != 0 && Outcome(e.outcome) then Some(e.outcome)
      else LatestOutcome(limits, Before(events))
  }

  /** The server refused the latest goal. */
  predicate LatestRefused(limits: Limits, events: seq<Event>)
    decreases |events|
  {
    events != [] &&
    var c, e := Run(limits, Before(events)), Last(events);
    !Sends(c, e) &&
    (LatestRefused(limits, Before(events)) || (e.Response? && e.revision == c.revision != 0 && !e.taken))
  }

  predicate CancelAsked(limits: Limits, events: seq<Event>)
    decreases |events|
  {
    events != [] && (CancelAsked(limits, Before(events)) || Cancels(Run(limits, Before(events)), Last(events)))
  }

  /** When the latest goal was sent, with its limit, and when the first cancel was asked for. */
  function SentAt(limits: Limits, events: seq<Event>): (real, real)
    decreases |events|
  {
    if events == [] then (0.0, 0.0)
    else if Sends(Run(limits, Before(events)), Last(events)) then (Last(events).now, Last(events).resultTimeout)
    else SentAt(limits, Before(events))
  }

  function CancelledAt(limits: Limits, events: seq<Event>): real
    decreases |events|
  {
    if events == [] then 0.0
    else if !CancelAsked(limits, Before(events)) && Cancels(Run(limits, Before(events)), Last(events)) then Last(events).now
    else CancelledAt(limits, Before(events))
  }

  /** What one step does to what the client shows. */
  lemma StatusStep(limits: Limits, c: Client, e: Event)
    requires Invariant(c) && (c.revision > 0 ==> c.revision in c.goals)
    ensures var d := Step(limits, c, e);
            var answers := e.Response? && e.revision == c.revision != 0;
            && d.status.success == (if Sends(c, e) then false
                                    else if e.Result? && e.revision == c.revision != 0 && Outcome(e.outcome) then e.outcome == Succeeded
                                    else c.status.success)
            && d.status.rejected == (!Sends(c, e) && (c.status.rejected || (answers && !e.taken)))
            && d.status.cancelRequested == (c.status.cancelRequested || Cancels(c, e))
            && d.sent == (if Sends(c, e) then e.now else c.sent)
            && d.resultTimeout == (if Sends(c, e) then e.resultTimeout else c.resultTimeout)
            && d.cancelAt == (if Cancels(c, e) && !c.status.cancelRequested then e.now else c.cancelAt)
  {
    hide Invariant, Refreshed, Polled, AnsweredGoal, SomeThrow, AllCanceled, Forgettable;
    match e
    case Poll(now, fails) => PollShows(limits, c, now, fails);
    case Response(r, taken, throws) =>
      if r in c.goals {
        RefreshedFields(c.(goals := c.goals[r := AnsweredGoal(c, r, taken)], status := AnsweredStatus(c, r, taken, throws)));
      }
      RecordedIsSent(c, r);
    case Result(r, outcome) =>
      if r in c.goals {
        var s := if r == c.revision then c.status.(success := outcome == Succeeded, reason := outcome) else c.status;
        RefreshedFields(c.(goals := c.goals[r := c.goals[r].(terminal := true)], status := s));
      }
      RecordedIsSent(c, r);
    case CancelResponse(r, ack) =>
      if r in c.goals {
        var g := c.goals[r];
        RefreshedFields(c.(goals := c.goals[r := g.(cancelResponded := true, cancelAck := g.cancelAck || (ack && g.taken))]));
      }
    case Send(_, _) =>
    case SendEnds(_) =>
    case PollEnds(_, _) =>
    case Cancel(_, _) =>
  }

  lemma RecordedIsSent(c: Client, r: nat)
    requires Invariant(c)
    ensures r in c.goals ==> r > 0
  {}

  /** Looking for replaced goals changes nothing that is shown of the latest one. */
  lemma LookingShows(limits: Limits, c: Client, now: real, fails: set<nat>)
    requires c.revision > 0 ==> c.revision in c.goals
    ensures var d := Refreshed(OrphansEnded(limits, c, now, fails));
            && d == c.(goals := d.goals, status := d.status)
            && d.status == c.status.(reason := d.status.reason, terminal := d.status.terminal, cancelAck := d.status.cancelAck)
            && (c.revision > 0 ==> c.revision in d.goals && d.goals[c.revision] == c.goals[c.revision])
  {
    hide OrphansThrow;
    RefreshedFields(OrphansEnded(limits, c, now, fails));
  }

  lemma PollShows(limits: Limits, c: Client, now: real, fails: set<nat>)
    requires c.revision > 0 ==> c.revision in c.goals
    ensures var d := Polled(limits, c, now, fails);
            && d.status.success == c.status.success && d.status.rejected == c.status.rejected && d.revision == c.revision
            && d.status.cancelRequested == c.status.cancelRequested && d.sent == c.sent && d.resultTimeout == c.resultTimeout
            && d.cancelAt == c.cancelAt
  {
    hide Refreshed, OrphansEnded, Overdue;
    LookingShows(limits, c, now, fails);
  }

  /**
   In every run the client shows success exactly when the last result of its latest goal was success, rejection exactly
   when the server refused that goal, and a requested cancel exactly when one was asked for; and its limits are timed
   from the latest send and from the first cancel.
   */
  lemma {:induction false} StatusMeans(limits: Limits, events: seq<Event>)
    ensures var c := Run(limits, events);
            && (c.status.success <==> LatestOutcome(limits, events) == Some(Succeeded))
            && (c.status.rejected <==> LatestRefused(limits, events))
            && (c.status.cancelRequested <==> CancelAsked(limits, events))
            && SentAt(limits, events) == (c.sent, c.resultTimeout)
            && c.cancelAt == CancelledAt(limits, events)
    decreases |events|
  {
    hide Run, Step;
    if events == [] {
      RunOfNothing(limits);
    } else {
      RunSplits(limits, events);
      RunKeeps(limits, Before(events));
      LatestIsNotReplaced(limits, Before(events));
      StatusStep(limits, Run(limits, Before(events)), Last(events));
      StatusMeans(limits, Before(events));
    }
  }

  /** No answer came in time, or no result. */
  predicate TooLate(limits: Limits, c: Client, answered: bool, now: real) {
    (!answered && now - c.sent > limits.responseTimeout) || (c.resultTimeout > 0.0 && now - c.sent > c.resultTimeout)
  }

  /** A goal that was answered, or counts as accepted, lacks its result; any other its answer. */
  function LateReason(c: Client, answered: bool, now: real): Reason {
    if (answered || c.status.accepted) && c.resultTimeout > 0.0 && now - c.sent > c.resultTimeout then ResultTimeout
    else ResponseTimeout
  }

  /**
   In every run a timeout is declared exactly when handing a goal over threw, or a poll found the client unfinished and
   its latest goal without answer or result for too long or a cancel unconfirmed for too long. And the server's answer
   to the latest goal is what is shown as accepted, until a timeout without an answer or a new goal after trouble.
   */
  lemma TimeoutsAreEarned(limits: Limits, events: seq<Event>, e: Event)
    ensures var c := Run(limits, events); var d := Step(limits, c, e);
            var answered := Answer(limits, events, c.revision).Some?;
            var polled := e.Poll? && c.busy == Free && c.revision != 0 && !d.status.terminal;
            var late := polled && !c.status.cancelRequested && (TooLate(limits, c, answered, e.now) || c.status.timedOut);
            && (d.status.timedOut <==>
                  || c.status.timedOut || (e.SendEnds? && e.throws && c.busy == Submitting) || late
                  || (polled && c.status.cancelRequested && e.now - c.cancelAt > limits.cancelTimeout))
            && (d.busy == Cancelling <==> late || (c.busy == Cancelling && !e.PollEnds?))
            && (late ==> d.status.reason == LateReason(c, answered, e.now))
            && (polled && c.status.cancelRequested && e.now - c.cancelAt > limits.cancelTimeout ==>
                  d.status.reason == CancelUnconfirmed)
            && d.status.accepted == (
                 if e.Response? && e.revision == c.revision != 0 then e.taken
                 else if Sends(c, e) then c.status.accepted && !c.status.rejected && !c.status.timedOut
                 else c.status.accepted && (late ==> answered))
  {
    hide Run, Step;
    RunKeeps(limits, events);
    LatestIsNotReplaced(limits, events);
    var c := Run(limits, events);
    if c.revision in c.goals {
      GoalIsTold(limits, events, c.revision);
    }
    TimeoutStep(limits, c, e, Answer(limits, events, c.revision).Some?);
  }

  lemma TimeoutStep(limits: Limits, c: Client, e: Event, answered: bool)
    requires Invariant(c) && (c.revision > 0 ==> c.revision in c.goals && answered == c.goals[c.revision].responded)
    ensures var d := Step(limits, c, e);
            var polled := e.Poll? && c.busy == Free && c.revision != 0 && !d.status.terminal;
            var late := polled && !c.status.cancelRequested && (TooLate(limits, c, answered, e.now) || c.status.timedOut);
            && (d.status.timedOut <==>
                  || c.status.timedOut || (e.SendEnds? && e.throws && c.busy == Submitting) || late
                  || (polled && c.status.cancelRequested && e.now - c.cancelAt > limits.cancelTimeout))
            && (d.busy == Cancelling <==> late || (c.busy == Cancelling && !e.PollEnds?))
            && (late ==> d.status.reason == LateReason(c, answered, e.now))
            && (polled && c.status.cancelRequested && e.now - c.cancelAt > limits.cancelTimeout ==>
                  d.status.reason == CancelUnconfirmed)
            && d.status.accepted == (
                 if e.Response? && e.revision == c.revision != 0 then e.taken
                 else if Sends(c, e) then c.status.accepted && !c.status.rejected && !c.status.timedOut
                 else c.status.accepted && (late ==> answered))
  {
    hide Invariant, Refreshed, Polled, AnsweredGoal, SomeThrow, AllCanceled, Forgettable, TooLate;
    match e
    case Poll(now, fails) => PollTimes(limits, c, now, fails, answered);
    case Response(r, taken, throws) =>
      if r in c.goals {
        RefreshedFields(c.(goals := c.goals[r := AnsweredGoal(c, r, taken)], status := AnsweredStatus(c, r, taken, throws)));
      }
      RecordedIsSent(c, r);
    case Result(r, outcome) =>
      if r in c.goals {
        var s := if r == c.revision then c.status.(success := outcome == Succeeded, reason := outcome) else c.status;
        RefreshedFields(c.(goals := c.goals[r := c.goals[r].(terminal := true)], status := s));
      }
    case CancelResponse(r, ack) =>
      if r in c.goals {
        var g := c.goals[r];
        RefreshedFields(c.(goals := c.goals[r := g.(cancelResponded := true, cancelAck := g.cancelAck || (ack && g.taken))]));
      }
    case Send(_, _) =>
    case SendEnds(_) =>
    case PollEnds(_, _) =>
    case Cancel(_, _) =>
  }

  lemma PollTimes(limits: Limits, c: Client, now: real, fails: set<nat>, answered: bool)
    requires c.revision > 0 ==> c.revision in c.goals && answered == c.goals[c.revision].responded
    ensures var d := Polled(limits, c, now, fails);
            var polled := c.revision != 0 && !d.status.terminal;
            var late := polled && !c.status.cancelRequested && (TooLate(limits, c, answered, now) || c.status.timedOut);
            && (d.status.timedOut <==>
                  c.status.timedOut || late || (polled && c.status.cancelRequested && now - c.cancelAt > limits.cancelTimeout))
            && d.busy == (if late then Cancelling else c.busy)
            && (late ==> d.status.reason == LateReason(c, answered, now))
            && (polled && c.status.cancelRequested && now - c.cancelAt > limits.cancelTimeout ==>
                  d.status.reason == CancelUnconfirmed)
            && d.status.accepted == (c.status.accepted && (late ==> answered))
  {
    hide Refreshed, OrphansEnded;
    LookingShows(limits, c, now, fails);
  }

  /** A cancel that throws is noted: for some goal the server took, and for which none had been sent yet. */
  lemma ThrownCancelsAreNoted(limits: Limits, c: Client, e: Event)
    requires Invariant(c)
    ensures Cancels(c, e) ==>
              Step(limits, c, e).status.reason ==
              if exists r :: r in e.fails && r in c.goals && c.goals[r].taken && !c.goals[r].cancelSent then CancelSendError
              else c.status.reason
    ensures e.Response? && e.taken && e.revision in c.goals ==>
              Step(limits, c, e).status.reason ==
              if e.throws && !c.goals[e.revision].cancelSent && (e.revision != c.revision || c.status.cancelRequested) then CancelSendError
              else c.status.reason
  {
    hide AllCanceled, Invariant, AnsweredGoal, Refreshed;
    if e.Response? && e.revision in c.goals {
      RefreshedFields(c.(goals := c.goals[e.revision := AnsweredGoal(c, e.revision, e.taken)],
                         status := AnsweredStatus(c, e.revision, e.taken, e.throws)));
    }
  }

  /** The runtime sees a cancel as unconfirmed exactly when that is the reason last given, and else what the client shows. */
  lemma ViewShows(c: Client, moves: bool)
    ensures var s := View(c, moves);
            && (s.unconfirmed <==> c.status.reason == CancelUnconfirmed) && s.moves == moves
            && s.accepted == c.status.accepted && s.terminal == c.status.terminal && s.success == c.status.success
            && s.rejected == c.status.rejected && s.cancelRequested == c.status.cancelRequested && s.timedOut == c.status.timedOut
  {}
}
