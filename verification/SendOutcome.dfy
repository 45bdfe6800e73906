/**
 What becomes of what the sender is given: every notice is taken while the connection is open, the newest state is
 not lost, a write carries the text of its message, and the connection closes for exactly three reasons.
 */
module SendOutcome {
  import opened SendQueue

  function Before<T>(events: seq<T>): seq<T>
    requires events != []
  {
    events[..|events| - 1]
  }

  lemma RunStep(events: seq<Event<string>>)
    requires events != []
    ensures Run(events) == Step(Run(Before(events)), events[|events| - 1])
  {}

  lemma NothingRun()
    ensures Run([]) == BOOT
  {}

  // ---------------------------------------------------------------- closing

  /** A notice finds a write under way and the queue full. */
  predicate Overflows(c: Connection, e: Event<string>) {
    (e.Signal? || e.Rtc?) && c.sending != "" && |c.signaling| >= 16
  }

  lemma TaskStaysOpen(w: World, accepts: bool, now: real)
    requires MailboxKept(w.mailbox)
    ensures ConnectionAfter(w.connection, w.mailbox, Task(0.0, accepts), now).closed == w.connection.closed
  {
    hide Sent, MailboxKept;
    if w.mailbox.posted != 0 && w.mailbox.value.Some? {
      LatestIsState(w.mailbox);
      StateStaysOpen(w.connection, w.mailbox.value.value, now, accepts);
    }
  }

  lemma EndCloses(c: Connection, broadcasts: seq<Message>, ok: bool, now: real, accepts: bool)
    requires Leased(c, broadcasts)
    ensures Completed(c, ok, now, accepts).closed == (c.closed || !ok)
  {
    hide Sent, Leased;
    if ok && c.signaling == [] && c.pending.Some? {
      var idle := c.(outstanding := if c.outstanding > 0 then c.outstanding - 1 else 0, sending := "");
      PendingIsState(c, broadcasts);
      StateStaysOpen(idle.(pending := None), c.pending.value, now, accepts);
    }
  }

  lemma TimerStaysOpen(c: Connection, now: real, accepts: bool)
    ensures TimerFired(c, now, accepts).closed == c.closed
  {}

  lemma NoticeCloses(c: Connection, notice: Json, now: real, accepts: bool)
    ensures Sent(c, Reliable(notice), now, accepts).closed == (c.closed || (c.sending != "" && |c.signaling| >= 16))
  {
    hide Sent;
    NoticeExactly(c, notice, now, accepts);
  }

  /** The connection closes exactly when it is told to, when a write fails and when its queue overflows; for good. */
  lemma ClosesExactly(w: World, e: Event<string>)
    requires Leased(w.connection, w.mailbox.broadcasts) && MailboxKept(w.mailbox)
    ensures Step(w, e).connection.closed <==>
            || w.connection.closed || e.Close? || Overflows(w.connection, e)
            || (e.WriteEnded? && !e.ok && w.connection.outstanding > 0)
  {
    hide Sent, Completed, TimerFired, Leased, MailboxKept;
    var c, now := w.connection, Now(w, e);
    match e
    case Task(_, accepts) => TaskStaysOpen(w, accepts, now);
    case Signal(notice, _, accepts) => NoticeCloses(c, notice, now, accepts);
    case Rtc(active, notice, _, accepts) => NoticeCloses(c.(rtcActive := active), notice, now, accepts);
    case WriteEnded(ok, _, accepts) => EndCloses(c, w.mailbox.broadcasts, ok, now, accepts);
    case Timer(_, accepts) => TimerStaysOpen(c, now, accepts);
    case _ =>
  }

  lemma LatestIsState(b: Mailbox)
    requires MailboxKept(b) && b.value.Some?
    ensures !b.value.value.reliable && b.value.value in b.broadcasts
  {}

  lemma PendingIsState(c: Connection, broadcasts: seq<Message>)
    requires Leased(c, broadcasts) && c.pending.Some?
    ensures !c.pending.value.reliable
  {}

  lemma StateStaysOpen(c: Connection, m: Message, now: real, accepts: bool)
    requires !m.reliable
    ensures Sent(c, m, now, accepts).closed == c.closed
    decreases if c.pending.Some? then 1 else 0
  {
    if Expired(m, now) && c.pending.Some? && !c.pending.value.reliable {
      StateStaysOpen(c.(pending := None), c.pending.value, now, accepts);
    }
  }

  /** A notice is written at once when nothing else is, and queued otherwise, unless the queue is full. */
  lemma NoticeExactly(c: Connection, notice: Json, now: real, accepts: bool)
    ensures var m := Reliable(notice); var d := Sent(c, m, now, accepts);
            if c.closed then d == c
            else if c.sending == "" then
              d.handed == c.handed + [Handed(m, now, Socket)] && d.taken == c.taken + [m] && d.signaling == c.signaling && !d.closed
            else if |c.signaling| < SIGNALING_LIMIT then
              d == c.(signaling := c.signaling + [m], taken := c.taken + [m])
            else d.closed
  {}

  // ---------------------------------------------------------------- every notice

  /** The notices a run was given, in order. */
  function Notices(events: seq<Event<string>>): seq<Message> {
    if events == [] then []
    else
      var e, earlier := events[|events| - 1], Notices(Before(events));
      if e.Signal? || e.Rtc? then earlier + [Reliable(e.notice)] else earlier
  }

  lemma StateIsNotTaken(c: Connection, m: Message, now: real, accepts: bool)
    requires !m.reliable
    ensures Sent(c, m, now, accepts).taken == c.taken
    decreases if c.pending.Some? then 1 else 0
  {
    if Expired(m, now) && c.pending.Some? && !c.pending.value.reliable {
      StateIsNotTaken(c.(pending := None), c.pending.value, now, accepts);
    }
  }

  lemma EndTakesNothing(c: Connection, broadcasts: seq<Message>, ok: bool, now: real, accepts: bool)
    requires Leased(c, broadcasts)
    ensures Completed(c, ok, now, accepts).taken == c.taken
  {
    hide Sent, Leased;
    if ok && c.signaling == [] && c.pending.Some? {
      var idle := c.(outstanding := if c.outstanding > 0 then c.outstanding - 1 else 0, sending := "");
      PendingIsState(c, broadcasts);
      StateIsNotTaken(idle.(pending := None), c.pending.value, now, accepts);
    }
  }

  lemma TimerTakesNothing(c: Connection, now: real, accepts: bool)
    ensures TimerFired(c, now, accepts).taken == c.taken
  {}

  lemma NoticeIsTaken(c: Connection, notice: Json, now: real, accepts: bool)
    requires !Sent(c, Reliable(notice), now, accepts).closed
    ensures Sent(c, Reliable(notice), now, accepts).taken == c.taken + [Reliable(notice)]
  {
    hide Sent;
    NoticeExactly(c, notice, now, accepts);
  }

  lemma TakenStep(w: World, e: Event<string>)
    requires Leased(w.connection, w.mailbox.broadcasts) && MailboxKept(w.mailbox)
    requires !Step(w, e).connection.closed && !w.connection.closed
    ensures Step(w, e).connection.taken ==
            if e.Signal? || e.Rtc? then w.connection.taken + [Reliable(e.notice)] else w.connection.taken
  {
    hide Sent, Completed, TimerFired, Leased, MailboxKept;
    var c, now := w.connection, Now(w, e);
    match e
    case Task(_, accepts) =>
      if w.mailbox.posted != 0 && w.mailbox.value.Some? {
        LatestIsState(w.mailbox);
        StateIsNotTaken(c, w.mailbox.value.value, now, accepts);
      }
    case Signal(notice, _, accepts) => NoticeIsTaken(c, notice, now, accepts);
    case Rtc(active, notice, _, accepts) => NoticeIsTaken(c.(rtcActive := active), notice, now, accepts);
    case WriteEnded(ok, _, accepts) => EndTakesNothing(c, w.mailbox.broadcasts, ok, now, accepts);
    case Timer(_, accepts) => TimerTakesNothing(c, now, accepts);
    case _ =>
  }

  lemma {:induction false} AllTaken(events: seq<Event<string>>)
    requires !Run(events).connection.closed
    ensures Run(events).connection.taken == Notices(events)
    decreases |events|
  {
    hide Run, Step, Leased, MailboxKept;
    if events == [] {
      NothingRun();
    } else {
      RunStep(events);
      RunLeased(Before(events));
      var w, e := Run(Before(events)), events[|events| - 1];
      ClosesExactly(w, e);
      TakenStep(w, e);
      AllTaken(Before(events));
    }
  }

  /** While the connection is open, the notices written and then those queued are exactly all it was given, in order. */
  lemma NoticesGoOutInOrder(events: seq<Event<Json>>)
    requires !Run(events).connection.closed
    ensures var c := Run(events).connection; ReliableHanded(c.handed) + c.signaling == Notices(events)
    ensures var c := Run(events).connection; c.sending == "" ==> ReliableHanded(c.handed) == Notices(events)
  {
    hide Run, Notices;
    AllTaken(events);
    ReliableOnceInOrder(events);
    if Run(events).connection.sending == "" {
      IdleMeansEmpty(events);
    }
  }

  // ---------------------------------------------------------------- the newest state

  predicate WasHanded(handed: seq<Handed>, m: Message) {
    exists i :: 0 <= i < |handed| && handed[i].message == m
  }

  /** The state was handed over, waits, is deferred, or its lease is over. */
  predicate Reached(c: Connection, m: Message, now: real) {
    WasHanded(c.handed, m) || c.pending == Some(m) || c.deferred == Some(m) ||
    (m.lease.Some? && now * 1000.0 >= m.lease.value.issuedMs + m.lease.value.leaseMs)
  }

  /** The data channel was given up after the newest state had been given. */
  predicate FellBack(events: seq<Event<string>>) {
    events != [] &&
    var e, w := events[|events| - 1], Run(Before(events));
    if e.Task? && w.mailbox.posted != 0 then false else (e.Rtc? && !e.active) || FellBack(Before(events))
  }

  lemma HandedStays(handed: seq<Handed>, longer: seq<Handed>, m: Message)
    requires handed <= longer
    ensures WasHanded(handed, m) ==> WasHanded(longer, m)
    ensures longer != [] && longer[|longer| - 1].message == m ==> WasHanded(longer, m)
  {
    if WasHanded(handed, m) {
      var i :| 0 <= i < |handed| && handed[i].message == m;
      assert longer[i] == handed[i];
    }
  }

  /** A state that is given reaches its place at once. */
  lemma GivenReaches(c: Connection, m: Message, now: real, accepts: bool)
    requires Kept(c) && !c.closed && !m.reliable && m.isObject
    ensures var d := Sent(c, m, now, accepts);
            && Reached(d, m, now) && (d.deferred == Some(m) && c.deferred != Some(m) ==> d.rtcActive) && d.rtcActive == c.rtcActive
  {
    if Expired(m, now) {
      NothingWaitsWhenIdle(c, m, now, accepts);
    } else {
      HandedStays(c.handed, Sent(c, m, now, accepts).handed, m);
    }
  }

  lemma NoticeKeepsReach(c: Connection, notice: Json, now: real, accepts: bool, m: Message)
    requires !Sent(c, Reliable(notice), now, accepts).closed
    ensures var d := Sent(c, Reliable(notice), now, accepts);
            && (Reached(c, m, now) ==> Reached(d, m, now)) && d.rtcActive == c.rtcActive && d.deferred == c.deferred
  {
    HandedStays(c.handed, Sent(c, Reliable(notice), now, accepts).handed, m);
  }

  /** The end of a write hands the waiting state on, and overtakes no deferred one. */
  lemma EndKeepsReach(c: Connection, now: real, accepts: bool, given: nat, m: Message)
    requires Kept(c) && c.outstanding > 0 && Ordered(c, given, now) && !c.closed && m.isObject && !m.reliable
    requires c.deferred == Some(m) ==> c.rtcActive
    ensures var d := Completed(c, true, now, accepts);
            && (Reached(c, m, now) ==> Reached(d, m, now)) && d.rtcActive == c.rtcActive
            && (d.deferred == Some(m) ==> d.rtcActive)
  {
    hide StatesIncrease, StatesBelow;
    var d := Completed(c, true, now, accepts);
    var idle := c.(outstanding := c.outstanding - 1, sending := "");
    if c.signaling == [] && c.pending.Some? {
      var p := c.pending.value;
      if Expired(p, now) {
        assert Sent(idle.(pending := None), p, now, accepts) == idle.(pending := None);
      } else {
        HandedStays(c.handed, d.handed, m);
      }
    } else {
      HandedStays(c.handed, d.handed, m);
    }
  }

  lemma TimerKeepsReach(c: Connection, now: real, accepts: bool, m: Message)
    requires !c.closed && m.isObject && (c.deferred == Some(m) ==> c.rtcActive)
    ensures var d := TimerFired(c, now, accepts);
            (Reached(c, m, now) ==> Reached(d, m, now)) && d.rtcActive == c.rtcActive && (d.deferred == Some(m) ==> d.rtcActive)
  {
    HandedStays(c.handed, TimerFired(c, now, accepts).handed, m);
  }

  /** What is kept of the newest state as long as the channel is not given up. */
  predicate Minded(c: Connection, m: Message, now: real) {
    m.isObject ==> Reached(c, m, now) && (c.deferred == Some(m) ==> c.rtcActive)
  }

  function Newest(b: Mailbox): Message
    requires b.forwarded != []
  {
    b.forwarded[|b.forwarded| - 1]
  }

  lemma MindedLater(c: Connection, m: Message, now: real, later: real)
    requires Minded(c, m, now) && now <= later
    ensures Minded(c, m, later)
  {}

  lemma MindedStep(w: World, e: Event<string>, m: Message)
    requires Kept(w.connection) && MailboxKept(w.mailbox) && Ordered(w.connection, Given(w.mailbox), w.clock)
    requires !Step(w, e).connection.closed && !w.connection.closed && !m.reliable && !(e.Rtc? && !e.active)
    requires if e.Task? && w.mailbox.posted != 0 then m == Newest(Step(w, e).mailbox) else Minded(w.connection, m, w.clock)
    ensures Minded(Step(w, e).connection, m, Now(w, e))
  {
    hide Kept, Sent, Completed, TimerFired, Reached, StatesIncrease, StatesBelow, Expired;
    var c, now := w.connection, Now(w, e);
    OrderedLater(c, Given(w.mailbox), w.clock, Given(w.mailbox), now);
    if m.isObject {
      if e.Task? && w.mailbox.posted != 0 {
        GivenReaches(c, m, now, e.accepts);
        assert c.deferred != Some(m);
      } else {
        MindedLater(c, m, w.clock, now);
        match e
        case Signal(notice, _, accepts) => NoticeKeepsReach(c, notice, now, accepts, m);
        case Rtc(active, notice, _, accepts) =>
          ChannelOnReaches(c, m, now);
          NoticeKeepsReach(c.(rtcActive := active), notice, now, accepts, m);
        case WriteEnded(ok, _, accepts) =>
          if c.outstanding > 0 {
            FailureCloses(c, ok, now, accepts);
            EndKeepsReach(c, now, accepts, Given(w.mailbox), m);
          }
        case Timer(_, accepts) => TimerKeepsReach(c, now, accepts, m);
        case Profile => ProfileReaches(c, m, now);
        case _ =>
      }
    }
  }

  lemma ChannelOnReaches(c: Connection, m: Message, now: real)
    ensures Reached(c, m, now) ==> Reached(c.(rtcActive := true), m, now)
  {}

  lemma ProfileReaches(c: Connection, m: Message, now: real)
    ensures Reached(c, m, now) ==> Reached(c.(compact := true), m, now)
  {}

  lemma FailureCloses(c: Connection, ok: bool, now: real, accepts: bool)
    requires !c.closed
    ensures !ok ==> Completed(c, ok, now, accepts).closed
  {}

  lemma {:induction false} NewestMinded(events: seq<Event<Json>>)
    requires CleanFrom(events, 0) && !Run(events).connection.closed
    requires Run(events).mailbox.forwarded != [] && !FellBack(events)
    ensures Minded(Run(events).connection, Newest(Run(events).mailbox), Run(events).clock)
    decreases |events|
  {
    hide Run, Step, Leased, MailboxKept, Kept, Ordered, Minded, Switches, Clean;
    if events == [] {
      NothingRun();
    } else {
      var n := |events| - 1;
      var w, e := Run(events[..n]), events[n];
      RunStep(events);
      CleanBefore(events, n);
      OrderKept(events[..n]);
      JsonKeeps(events[..n]);
      RunLeased(events[..n]);
      RunLeased(events);
      ClosesExactly(w, e);
      StepParts(w, e);
      NewestIs(w.mailbox, e);
      if !(e.Task? && w.mailbox.posted != 0) {
        NewestMinded(events[..n]);
      }
      NewestIsState(Run(events).mailbox);
      MindedStep(w, e, Newest(Run(events).mailbox));
    }
  }

  lemma NewestIs(b: Mailbox, e: Event<string>)
    requires MailboxKept(b)
    ensures !(e.Task? && b.posted != 0) ==> MailboxAfter(b, e).forwarded == b.forwarded
  {}

  lemma NewestIsState(b: Mailbox)
    requires MailboxKept(b) && b.forwarded != []
    ensures !Newest(b).reliable
  {}

  /**
   In every run with the data channel only turned on cleanly, the newest state given to an open connection was handed
   over, waits or is deferred for its turn, or its lease is over, unless the channel was given up since.
   */
  lemma NewestIsNotLost(events: seq<Event<Json>>)
    requires CleanFrom(events, 0) && !Run(events).connection.closed
    requires Run(events).mailbox.forwarded != [] && !FellBack(events) && Newest(Run(events).mailbox).isObject
    ensures Reached(Run(events).connection, Newest(Run(events).mailbox), Run(events).clock)
  {
    hide Run;
    NewestMinded(events);
  }

  // ---------------------------------------------------------------- what a write carries

  /** A control state goes out in its short form to a client that has the profile for it or the data channel. */
  function Form(m: Message, short: bool): string {
    if short && m.isObject && m.lease.Some? then m.compactText else m.text
  }

  predicate Profiled(events: seq<Event<string>>) {
    exists i :: 0 <= i < |events| && events[i].Profile?
  }

  /** What the last word on the data channel was. */
  predicate ChannelOn(events: seq<Event<string>>) {
    events != [] && var e := events[|events| - 1]; if e.Rtc? then e.active else ChannelOn(Before(events))
  }

  /** A message was handed to the socket between the two records. */
  predicate Wrote(earlier: seq<Handed>, later: seq<Handed>) {
    |later| > |earlier| && later[|later| - 1].channel == Socket
  }

  /** The text of the last write, told by the messages handed over. */
  function LastWrite(events: seq<Event<string>>): Option<string> {
    if events == [] then None
    else
      var handed := Run(events).connection.handed;
      if Wrote(Run(Before(events)).connection.handed, handed) then
        Some(Form(handed[|handed| - 1].message, Profiled(events) || ChannelOn(events)))
      else LastWrite(Before(events))
  }

  /** The text being written is that of the message just handed to the socket; else it is as before, or none. */
  predicate Says(c: Connection, d: Connection) {
    && c.handed <= d.handed
    && if Wrote(c.handed, d.handed) then d.sending == Form(d.handed[|d.handed| - 1].message, d.compact || d.rtcActive)
       else d.sending == c.sending || d.sending == ""
  }

  lemma SentSays(c: Connection, m: Message, now: real, accepts: bool)
    requires !m.reliable && c.pending.Some? ==> !c.pending.value.reliable
    ensures var d := Sent(c, m, now, accepts);
            Says(c, d) && (!d.closed ==> d.rtcActive == c.rtcActive) && d.compact == c.compact
    decreases if c.pending.Some? then 1 else 0
  {
    if !m.reliable && Expired(m, now) && c.pending.Some? {
      SentSays(c.(pending := None), c.pending.value, now, accepts);
    }
  }

  lemma CompletedSays(c: Connection, ok: bool, now: real, accepts: bool)
    requires c.pending.Some? ==> !c.pending.value.reliable
    ensures var d := Completed(c, ok, now, accepts);
            Says(c, d) && (!d.closed ==> d.rtcActive == c.rtcActive) && d.compact == c.compact
  {
    hide Sent;
    if ok && c.signaling == [] && c.pending.Some? {
      var idle := c.(outstanding := if c.outstanding > 0 then c.outstanding - 1 else 0, sending := "");
      SentSays(idle.(pending := None), c.pending.value, now, accepts);
    }
  }

  lemma TimerSays(c: Connection, now: real, accepts: bool)
    ensures var d := TimerFired(c, now, accepts); Says(c, d) && d.rtcActive == c.rtcActive && d.compact == c.compact
  {}

  lemma StepSays(w: World, e: Event<string>)
    requires Leased(w.connection, w.mailbox.broadcasts) && MailboxKept(w.mailbox)
    ensures var c, d := w.connection, Step(w, e).connection;
            && (!d.closed ==> Says(c, d))
            && (!d.closed ==> d.rtcActive == if e.Rtc? then e.active else c.rtcActive)
            && d.compact == (c.compact || e.Profile?)
  {
    hide Sent, Completed, TimerFired, InTime, FromBroadcasts, MailboxKept;
    var c, now := w.connection, Now(w, e);
    match e
    case Task(_, accepts) => if w.mailbox.value.Some? { SentSays(c, w.mailbox.value.value, now, accepts); }
    case Signal(notice, _, accepts) => SentSays(c, Reliable(notice), now, accepts);
    case Rtc(active, notice, _, accepts) => SentSays(c.(rtcActive := active), Reliable(notice), now, accepts);
    case WriteEnded(ok, _, accepts) => CompletedSays(c, ok, now, accepts);
    case Timer(_, accepts) => TimerSays(c, now, accepts);
    case _ =>
  }

  lemma {:induction false} FormsKept(events: seq<Event<string>>)
    ensures var c := Run(events).connection;
            && c.compact == Profiled(events)
            && (!c.closed ==> c.rtcActive == ChannelOn(events) && (c.sending != "" ==> LastWrite(events) == Some(c.sending)))
    decreases |events|
  {
    hide Run, Step, Leased, MailboxKept;
    if events == [] {
      NothingRun();
    } else {
      RunStep(events);
      RunLeased(Before(events));
      var w, e := Run(Before(events)), events[|events| - 1];
      ClosesExactly(w, e);
      StepSays(w, e);
      FormsKept(Before(events));
      ProfiledStep(events);
    }
  }

  lemma ProfiledStep(events: seq<Event<string>>)
    requires events != []
    ensures Profiled(events) <==> Profiled(Before(events)) || events[|events| - 1].Profile?
  {
    if Profiled(Before(events)) {
      var i :| 0 <= i < |Before(events)| && Before(events)[i].Profile?;
      assert events[i].Profile?;
    }
    if Profiled(events) {
      var i :| 0 <= i < |events| && events[i].Profile?;
      assert i < |events| - 1 ==> Before(events)[i].Profile?;
    }
  }

  /** In every run, what an open connection is writing is the text of the message last handed to the socket, in its form. */
  lemma WritesSay(events: seq<Event<string>>)
    requires !Run(events).connection.closed && Run(events).connection.sending != ""
    ensures LastWrite(events) == Some(Run(events).connection.sending)
  {
    hide Run, LastWrite;
    FormsKept(events);
  }

  /** In every run a deferred state has its timer armed, and goes out when that fires and the channel takes it in time. */
  lemma DeferredIsRetried(events: seq<Event<Json>>, after: Span)
    requires var c := Run(events).connection; !c.closed && c.rtcActive && c.deferred.Some?
    requires !Expired(Run(events).connection.deferred.value, Run(events).clock + after)
    ensures Run(events).connection.flushArmed
    ensures var w := Run(events); var d := Step(w, Timer(after, true)).connection;
            d.deferred.None? && d.handed == w.connection.handed + [Handed(w.connection.deferred.value, w.clock + after, DataChannel)]
  {
    hide Run, Expired;
    JsonKeeps(events);
  }
}
