/**
 The console's websocket sender: one write at a time, a bounded queue of reliable messages, one slot for
 the newest control state, an optional data channel, and the mailbox that brings states from other threads.

 JSON texts are opaque. Times are readings of the steady clock in seconds, which never goes backwards.
 */
module SendQueue {
  datatype Option<T> = None | Some(value: T)

  const SIGNALING_LIMIT: nat := 16

  /** A dumped JSON value, which is never the empty text. */
  type Json = text: string | text != "" witness "{}"

  /** A time that passes. */
  type Span = seconds: real | seconds >= 0.0 witness 0.0

  /** When a control state was issued and for how long it may be used, in milliseconds. */
  datatype Lease = Lease(issuedMs: real, leaseMs: real)

  /**
   A message: its number in the order given, the text and its compact form, whether it must arrive,
   whether the text is a JSON object, and the lease of a control state.
   */
  datatype Message = Message(
    number: nat, text: string, compactText: Json, reliable: bool, isObject: bool, lease: Option<Lease>)

  datatype Channel = Socket | DataChannel

  /** A message handed to a transport. */
  datatype Handed = Handed(message: Message, at: real, channel: Channel)

  /** The connection's fields, and a record of what was handed over and which reliable messages were taken. */
  datatype Connection = Connection(
    closed: bool, sending: string, pending: Option<Message>, signaling: seq<Message>,
    rtcActive: bool, deferred: Option<Message>, flushArmed: bool, compact: bool,
    handed: seq<Handed>, taken: seq<Message>, outstanding: nat)

  const OPENED := Connection(false, "", None, [], false, None, false, false, [], [], 0)

  // ---------------------------------------------------------------- the specification

  predicate Expired(m: Message, now: real) {
    m.isObject && m.lease.Some? && now * 1000.0 - m.lease.value.issuedMs >= m.lease.value.leaseMs
  }

  function Closed(c: Connection): Connection {
    if c.closed then c else c.(closed := true, rtcActive := false, deferred := None)
  }

  function Armed(c: Connection): Connection {
    if c.closed || c.flushArmed || c.deferred.None? then c else c.(flushArmed := true)
  }

  function Written(c: Connection, m: Message, now: real): Connection {
    c.(sending := if (c.compact || c.rtcActive) && m.isObject && m.lease.Some? then m.compactText else m.text,
       handed := c.handed + [Handed(m, now, Socket)], outstanding := c.outstanding + 1)
  }

  /** accepts is whether the data channel takes a message now. */
  function Sent(c: Connection, m: Message, now: real, accepts: bool): Connection
    decreases if c.pending.Some? then 1 else 0
  {
    if c.closed then c
    else if !m.reliable && Expired(m, now) then
      if c.sending != "" || c.pending.None? || c.pending.value.reliable || Expired(c.pending.value, now) then c
      else Sent(c.(pending := None), c.pending.value, now, accepts)
    else if c.rtcActive && !m.reliable then
      if !m.isObject then c
      else if accepts then c.(deferred := None, handed := c.handed + [Handed(m, now, DataChannel)])
      else Armed(c.(deferred := Some(m)))
    else if c.sending != "" then
      if m.reliable then
        if |c.signaling| >= SIGNALING_LIMIT then Closed(c)
        else c.(signaling := c.signaling + [m], taken := c.taken + [m])
      else c.(pending := Some(m))
    else if m.reliable then Written(c.(taken := c.taken + [m]), m, now)
    else Written(c, m, now)
  }

  /** Sending on a message taken from the queue; it was recorded as taken when it was queued. */
  function SentNext(c: Connection, m: Message, now: real): Connection {
    if c.closed then c else Written(c, m, now)
  }

  /** A write has ended; the next reliable message goes first, then the newest state. */
  function Completed(c: Connection, ok: bool, now: real, accepts: bool): Connection {
    var ended := c.(outstanding := if c.outstanding > 0 then c.outstanding - 1 else 0);
    if !ok then Closed(ended)
    else
      var idle := ended.(sending := "");
      if idle.signaling != [] then SentNext(idle.(signaling := idle.signaling[1..]), idle.signaling[0], now)
      else if idle.pending.Some? then Sent(idle.(pending := None), idle.pending.value, now, accepts)
      else idle
  }

  /** The timer tries the deferred state again, or drops it. */
  function Flushed(c: Connection, now: real, accepts: bool): Connection {
    if c.closed || c.deferred.None? || !c.rtcActive then c.(deferred := None)
    else if Expired(c.deferred.value, now) then c.(deferred := None)
    else if !c.deferred.value.isObject then c
    else if accepts then c.(deferred := None, handed := c.handed + [Handed(c.deferred.value, now, DataChannel)])
    else c
  }

  function TimerFired(c: Connection, now: real, accepts: bool): Connection {
    if c.closed || !c.flushArmed then c else Armed(Flushed(c.(flushArmed := false), now, accepts))
  }

  /** The data channel opened or fell back; the client is told by a reliable message. */
  function RtcChanged(c: Connection, active: bool, notice: Message, now: real, accepts: bool): Connection {
    if c.closed then c else Sent(c.(rtcActive := active), notice, now, accepts)
  }

  // ---------------------------------------------------------------- the mailbox between threads

  /** The latest broadcast, whether a task to forward it is posted, and how many such tasks there are. */
  datatype Mailbox = Mailbox(value: Option<Message>, pending: bool, posted: nat, broadcasts: seq<Message>, forwarded: seq<Message>)

  function Posted(b: Mailbox, m: Message): Mailbox {
    if b.pending then b.(value := Some(m), broadcasts := b.broadcasts + [m])
    else b.(value := Some(m), pending := true, posted := b.posted + 1, broadcasts := b.broadcasts + [m])
  }

  datatype World = World(connection: Connection, mailbox: Mailbox, clock: real)

  /** What happens next, after how much time. Text is what callers broadcast: the gateway only dumped JSON. */
  datatype Event<+Text> =
    | Broadcast(text: Text, compactText: Json, isObject: bool, lease: Option<Lease>)
    | Task(after: Span, accepts: bool)
    | Signal(notice: Json, after: Span, accepts: bool)
    | WriteEnded(ok: bool, after: Span, accepts: bool)
    | Timer(after: Span, accepts: bool)
    | Rtc(active: bool, notice: Json, after: Span, accepts: bool)
    | Profile
    | Close

  function Reliable(text: Json): Message {
    Message(0, text, text, true, true, None)
  }

  function Now(w: World, e: Event<string>): real {
    if e.Broadcast? || e.Profile? || e.Close? then w.clock else w.clock + e.after
  }

  function MailboxAfter(b: Mailbox, e: Event<string>): Mailbox {
    match e
    case Broadcast(text, compactText, isObject, lease) =>
      Posted(b, Message(|b.broadcasts|, text, compactText, false, isObject, lease))
    case Task(_, _) =>
      if b.posted == 0 || b.value.None? then b
      else b.(pending := false, posted := b.posted - 1, forwarded := b.forwarded + [b.value.value])
    case _ => b
  }

  function ConnectionAfter(c: Connection, b: Mailbox, e: Event<string>, now: real): Connection {
    match e
    case Broadcast(_, _, _, _) => c
    case Task(_, accepts) => if b.posted == 0 || b.value.None? then c else Sent(c, b.value.value, now, accepts)
    case Signal(notice, _, accepts) => Sent(c, Reliable(notice), now, accepts)
    case WriteEnded(ok, _, accepts) => if c.outstanding == 0 then c else Completed(c, ok, now, accepts)
    case Timer(_, accepts) => TimerFired(c, now, accepts)
    case Rtc(active, notice, _, accepts) => RtcChanged(c, active, Reliable(notice), now, accepts)
    case Profile => c.(compact := true)
    case Close => Closed(c)
  }

  function Step(w: World, e: Event<string>): World {
    World(ConnectionAfter(w.connection, w.mailbox, e, Now(w, e)), MailboxAfter(w.mailbox, e), Now(w, e))
  }

  const BOOT := World(OPENED, Mailbox(None, false, 0, [], []), 0.0)

  function Run(events: seq<Event<string>>): World {
    if events == [] then BOOT else Step(Run(events[..|events| - 1]), events[|events| - 1])
  }

  // ---------------------------------------------------------------- what every run keeps

  predicate AllReliable(ms: seq<Message>) {
    forall i :: 0 <= i < |ms| ==> ms[i].reliable
  }

  predicate InTime(handed: seq<Handed>) {
    forall i :: 0 <= i < |handed| && !handed[i].message.reliable ==> !Expired(handed[i].message, handed[i].at)
  }

  predicate FromBroadcasts(handed: seq<Handed>, broadcasts: seq<Message>) {
    forall i :: 0 <= i < |handed| && !handed[i].message.reliable ==> handed[i].message in broadcasts
  }

  /** Every state the connection has, had or handed over was broadcast, and was handed over within its lease. */
  predicate Leased(c: Connection, broadcasts: seq<Message>) {
    && AllReliable(c.signaling)
    && InTime(c.handed) && FromBroadcasts(c.handed, broadcasts)
    && (c.pending.Some? ==> !c.pending.value.reliable && c.pending.value in broadcasts)
    && (c.deferred.Some? ==> !c.deferred.value.reliable && c.deferred.value in broadcasts)
  }

  /** At most one task is posted, it is for the latest value, and what was forwarded are broadcasts in order. */
  predicate MailboxKept(b: Mailbox) {
    && b.posted == (if b.pending then 1 else 0)
    && (b.value.Some? <==> b.broadcasts != [])
    && (b.broadcasts != [] ==> b.value.value == b.broadcasts[|b.broadcasts| - 1])
    && (b.pending ==> b.broadcasts != [])
    && (forall i :: 0 <= i < |b.broadcasts| ==> b.broadcasts[i].number == i && !b.broadcasts[i].reliable)
    && (forall i :: 0 <= i < |b.forwarded| ==> b.forwarded[i] in b.broadcasts)
    && (forall i, j :: 0 <= i < j < |b.forwarded| ==> b.forwarded[i].number < b.forwarded[j].number)
    && (b.forwarded != [] && b.pending ==> b.forwarded[|b.forwarded| - 1].number < |b.broadcasts| - 1)
    && (b.broadcasts != [] && !b.pending ==>
          b.forwarded != [] && b.forwarded[|b.forwarded| - 1] == b.broadcasts[|b.broadcasts| - 1])
  }

  lemma MailboxStep(b: Mailbox, e: Event<string>)
    requires MailboxKept(b)
    ensures MailboxKept(MailboxAfter(b, e))
  {}

  lemma HandedLeased(handed: seq<Handed>, h: Handed, broadcasts: seq<Message>)
    requires InTime(handed) && FromBroadcasts(handed, broadcasts)
    requires !h.message.reliable ==> !Expired(h.message, h.at) && h.message in broadcasts
    ensures InTime(handed + [h]) && FromBroadcasts(handed + [h], broadcasts)
  {}

  lemma SentLeased(c: Connection, m: Message, now: real, accepts: bool, broadcasts: seq<Message>)
    requires Leased(c, broadcasts) && (m.reliable || m in broadcasts)
    ensures Leased(Sent(c, m, now, accepts), broadcasts)
    decreases if c.pending.Some? then 1 else 0
  {
    hide InTime, FromBroadcasts;
    if !m.reliable && Expired(m, now) {
      if c.pending.Some? {
        SentLeased(c.(pending := None), c.pending.value, now, accepts, broadcasts);
      }
    } else {
      HandedLeased(c.handed, Handed(m, now, Socket), broadcasts);
      HandedLeased(c.handed, Handed(m, now, DataChannel), broadcasts);
    }
  }

  lemma CompletedLeased(c: Connection, ok: bool, now: real, accepts: bool, broadcasts: seq<Message>)
    requires Leased(c, broadcasts)
    ensures Leased(Completed(c, ok, now, accepts), broadcasts)
  {
    hide Sent;
    if ok && c.signaling == [] && c.pending.Some? {
      var idle := c.(outstanding := if c.outstanding > 0 then c.outstanding - 1 else 0, sending := "");
      SentLeased(idle.(pending := None), c.pending.value, now, accepts, broadcasts);
    }
  }

  lemma LeasedStep(w: World, e: Event<string>)
    requires Leased(w.connection, w.mailbox.broadcasts) && MailboxKept(w.mailbox)
    ensures Leased(Step(w, e).connection, Step(w, e).mailbox.broadcasts)
  {
    hide Sent, Completed;
    var c, bs, now := w.connection, w.mailbox.broadcasts, Now(w, e);
    match e
    case Task(_, accepts) =>
      if w.mailbox.value.Some? { SentLeased(c, w.mailbox.value.value, now, accepts, bs); }
    case Signal(notice, _, accepts) => SentLeased(c, Reliable(notice), now, accepts, bs);
    case WriteEnded(ok, _, accepts) => CompletedLeased(c, ok, now, accepts, bs);
    case Rtc(active, notice, _, accepts) => SentLeased(c.(rtcActive := active), Reliable(notice), now, accepts, bs);
    case _ =>
  }

  lemma {:induction false} RunLeased(events: seq<Event<string>>)
    ensures MailboxKept(Run(events).mailbox) && Leased(Run(events).connection, Run(events).mailbox.broadcasts)
    decreases |events|
  {
    hide Step, MailboxKept, Leased;
    if events == [] {
      BootKeeps();
    } else {
      var earlier, e := Run(events[..|events| - 1]), events[|events| - 1];
      RunLeased(events[..|events| - 1]);
      LeasedStep(earlier, e);
      MailboxStep(earlier.mailbox, e);
      assert Step(earlier, e).mailbox == MailboxAfter(earlier.mailbox, e) by { StepParts(earlier, e); }
    }
  }

  lemma StepParts(w: World, e: Event<string>)
    ensures Step(w, e).mailbox == MailboxAfter(w.mailbox, e) && Step(w, e).clock == Now(w, e)
    ensures Step(w, e).connection == ConnectionAfter(w.connection, w.mailbox, e, Now(w, e))
  {}

  // ---------------------------------------------------------------- what runs over texts that are not empty keep

  function ReliableHanded(handed: seq<Handed>): seq<Message> {
    if handed == [] then []
    else
      var earlier, last := ReliableHanded(handed[..|handed| - 1]), handed[|handed| - 1].message;
      if last.reliable then earlier + [last] else earlier
  }

  predicate AllTexts(ms: seq<Message>) {
    forall i :: 0 <= i < |ms| ==> ms[i].text != ""
  }

  predicate Queued(c: Connection) {
    && (c.pending.Some? ==> !c.pending.value.reliable && c.pending.value.text != "")
    && AllReliable(c.signaling) && AllTexts(c.signaling) && |c.signaling| <= SIGNALING_LIMIT
  }

  /** What the connection keeps when it is given no empty text. */
  predicate Kept(c: Connection) {
    && Queued(c)
    && (!c.closed && c.sending == "" ==> c.signaling == [] && c.pending.None?)
    && (!c.closed ==> c.outstanding == if c.sending == "" then 0 else 1)
    && (!c.closed ==> c.taken == ReliableHanded(c.handed) + c.signaling)
    && (!c.closed && c.deferred.Some? ==> c.flushArmed && c.deferred.value.isObject)
  }

  lemma HandedAdds(handed: seq<Handed>, h: Handed)
    ensures ReliableHanded(handed + [h]) ==
            if h.message.reliable then ReliableHanded(handed) + [h.message] else ReliableHanded(handed)
  {
    assert (handed + [h])[..|handed + [h]| - 1] == handed;
  }

  /** The message m, not yet recorded as written, is written while no other write is under way. */
  lemma WriteKeeps(c: Connection, m: Message, now: real)
    requires Queued(c) && !c.closed && c.sending == "" && c.outstanding == 0 && m.text != ""
    requires c.deferred.Some? ==> c.flushArmed && c.deferred.value.isObject
    requires c.taken == ReliableHanded(c.handed) + ((if m.reliable then [m] else []) + c.signaling)
    ensures Kept(Written(c, m, now))
  {
    HandedAdds(c.handed, Handed(m, now, Socket));
    assert [] + c.signaling == c.signaling;
  }

  /** A message for the data channel: handed over, or kept as the newest state for later. */
  lemma ChannelKeeps(c: Connection, m: Message, now: real)
    requires Kept(c) && !m.reliable && m.isObject
    ensures Kept(c.(deferred := None, handed := c.handed + [Handed(m, now, DataChannel)]))
    ensures Kept(Armed(c.(deferred := Some(m))))
  {
    HandedAdds(c.handed, Handed(m, now, DataChannel));
  }

  lemma WaitKeeps(c: Connection, m: Message)
    requires Kept(c) && !c.closed && c.sending != "" && m.text != ""
    ensures m.reliable && |c.signaling| < SIGNALING_LIMIT ==>
              Kept(c.(signaling := c.signaling + [m], taken := c.taken + [m]))
    ensures !m.reliable ==> Kept(c.(pending := Some(m)))
  {}

  lemma CloseKeeps(c: Connection)
    requires Kept(c)
    ensures Kept(Closed(c)) && Closed(c).closed
  {}

  lemma SentKeeps(c: Connection, m: Message, now: real, accepts: bool)
    requires Kept(c) && m.text != ""
    ensures Kept(Sent(c, m, now, accepts))
  {
    if c.closed {
    } else if !m.reliable && Expired(m, now) {
      NothingWaitsWhenIdle(c, m, now, accepts);
    } else if c.rtcActive && !m.reliable {
      if m.isObject { ChannelKeeps(c, m, now); }
    } else if c.sending != "" {
      hide Kept;
      WaitKeeps(c, m);
      CloseKeeps(c);
    } else {
      var d := if m.reliable then c.(taken := c.taken + [m]) else c;
      assert c.signaling == [];
      assert ReliableHanded(c.handed) + [] == ReliableHanded(c.handed);
      assert [m] + [] == [m];
      WriteKeeps(d, m, now);
    }
  }

  /** The state that would be sent in place of an expired one is never there when nothing is being written. */
  lemma NothingWaitsWhenIdle(c: Connection, m: Message, now: real, accepts: bool)
    requires Kept(c) && !c.closed && !m.reliable && Expired(m, now)
    ensures Sent(c, m, now, accepts) == c
  {}

  lemma CompletedKeeps(c: Connection, ok: bool, now: real, accepts: bool)
    requires Kept(c) && c.outstanding > 0
    ensures Kept(Completed(c, ok, now, accepts))
  {
    var idle := c.(outstanding := c.outstanding - 1, sending := "");
    if ok && !c.closed && c.signaling != [] {
      assert c.signaling == [c.signaling[0]] + c.signaling[1..];
      WriteKeeps(idle.(signaling := idle.signaling[1..]), c.signaling[0], now);
    } else if ok && !c.closed && c.pending.Some? {
      SentKeeps(idle.(pending := None), c.pending.value, now, accepts);
    }
  }

  lemma TimerKeeps(c: Connection, now: real, accepts: bool)
    requires Kept(c) && (c.deferred.Some? ==> !c.deferred.value.reliable)
    ensures Kept(TimerFired(c, now, accepts))
  {
    if c.deferred.Some? {
      HandedAdds(c.handed, Handed(c.deferred.value, now, DataChannel));
    }
  }

  lemma RtcKeeps(c: Connection, active: bool, notice: Json, now: real, accepts: bool)
    requires Kept(c)
    ensures Kept(RtcChanged(c, active, Reliable(notice), now, accepts))
  {
    hide Sent;
    SentKeeps(c.(rtcActive := active), Reliable(notice), now, accepts);
  }

  lemma ProfileKeeps(c: Connection)
    requires Kept(c)
    ensures Kept(c.(compact := true))
  {}

  predicate HasText(e: Event<string>) {
    e.Broadcast? ==> e.text != ""
  }

  predicate SolidValue(b: Mailbox) {
    b.value.Some? ==> b.value.value.text != ""
  }

  lemma StepKeeps(w: World, e: Event<string>)
    requires Kept(w.connection) && SolidValue(w.mailbox) && HasText(e)
    requires w.connection.deferred.Some? ==> !w.connection.deferred.value.reliable
    ensures Kept(Step(w, e).connection) && SolidValue(Step(w, e).mailbox)
  {
    hide Kept, Sent, Completed, TimerFired, RtcChanged, Closed;
    var c, now := w.connection, Now(w, e);
    match e
    case Broadcast(_, _, _, _) =>
    case Task(_, accepts) =>
      if w.mailbox.value.Some? { SentKeeps(c, w.mailbox.value.value, now, accepts); }
    case Signal(notice, _, accepts) => SentKeeps(c, Reliable(notice), now, accepts);
    case WriteEnded(ok, _, accepts) => if c.outstanding > 0 { CompletedKeeps(c, ok, now, accepts); }
    case Timer(_, accepts) => TimerKeeps(c, now, accepts);
    case Rtc(active, notice, _, accepts) => RtcKeeps(c, active, notice, now, accepts);
    case Profile => ProfileKeeps(c);
    case Close => CloseKeeps(c);
  }

  lemma BootKeeps()
    ensures Kept(BOOT.connection) && SolidValue(BOOT.mailbox)
    ensures MailboxKept(BOOT.mailbox) && Leased(BOOT.connection, BOOT.mailbox.broadcasts)
  {}

  lemma {:induction false} RunKeeps(events: seq<Event<string>>)
    requires forall i :: 0 <= i < |events| ==> HasText(events[i])
    ensures Kept(Run(events).connection) && SolidValue(Run(events).mailbox)
    decreases |events|
  {
    hide Kept, Step, HasText, SolidValue;
    if events == [] {
      BootKeeps();
    } else {
      var earlier := events[..|events| - 1];
      RunKeeps(earlier);
      RunLeased(earlier);
      StepKeeps(Run(earlier), events[|events| - 1]);
    }
  }

  /** Dumped JSON is text. */
  lemma JsonKeeps(events: seq<Event<Json>>)
    ensures Kept(Run(events).connection) && SolidValue(Run(events).mailbox)
  {
    hide Kept, Run, SolidValue;
    forall i | 0 <= i < |events|
      ensures HasText(events[i])
    {
      var e: Event<Json> := events[i];
    }
    RunKeeps(events);
  }

  // ---------------------------------------------------------------- what a reader gets from it

  /** While the connection is open and nothing is being written, nothing is waiting either. */
  lemma IdleMeansEmpty(events: seq<Event<Json>>)
    requires !Run(events).connection.closed && Run(events).connection.sending == ""
    ensures var c := Run(events).connection; c.signaling == [] && c.pending.None? && c.outstanding == 0
  {
    hide Run;
    JsonKeeps(events);
  }

  /** While the connection is open the reliable messages written, then those queued, are exactly those given, in order. */
  lemma ReliableOnceInOrder(events: seq<Event<Json>>)
    requires !Run(events).connection.closed
    ensures var c := Run(events).connection;
            c.taken == ReliableHanded(c.handed) + c.signaling && |c.signaling| <= SIGNALING_LIMIT && c.outstanding <= 1
  {
    hide Run;
    JsonKeeps(events);
  }

  /** No control state is ever handed to a transport after its lease, and none that was not broadcast. */
  lemma LeasesAreRespected(events: seq<Event<string>>, i: nat)
    requires i < |Run(events).connection.handed| && !Run(events).connection.handed[i].message.reliable
    ensures var h := Run(events).connection.handed[i];
            && h.message in Run(events).mailbox.broadcasts
            && (h.message.isObject && h.message.lease.Some? ==>
                  h.at * 1000.0 < h.message.lease.value.issuedMs + h.message.lease.value.leaseMs)
  {
    hide Run;
    RunLeased(events);
  }

  /** One task at most is posted between threads, and once it has run the latest broadcast has been forwarded. */
  lemma MailboxForwardsTheLatest(events: seq<Event<string>>)
    ensures var b := Run(events).mailbox;
            && b.posted <= 1
            && (b.posted == 0 && b.broadcasts != [] ==>
                  b.forwarded != [] && b.forwarded[|b.forwarded| - 1] == b.broadcasts[|b.broadcasts| - 1])
            && (forall i, j :: 0 <= i < j < |b.forwarded| ==> b.forwarded[i].number < b.forwarded[j].number)
  {
    hide Run;
    RunLeased(events);
  }

  // ---------------------------------------------------------------- texts that may be broadcast

  predicate TextsIn(events: seq<Event<string>>, texts: iset<string>) {
    forall i :: 0 <= i < |events| && events[i].Broadcast? ==> events[i].text in texts
  }

  predicate OneWrite(c: Connection) {
    c.closed || c.outstanding <= 1
  }

  /** Callers that broadcast the texts of a given set never cause two writes at once exactly when "" is none of them. */
  lemma OneWriteExactlyWithoutEmpty(texts: iset<string>)
    ensures (forall events :: TextsIn(events, texts) ==> OneWrite(Run(events).connection)) <==> "" !in texts
  {
    if "" in texts {
      var events := EmptyOverlaps();
      assert TextsIn(events, texts) && !OneWrite(Run(events).connection);
    } else {
      forall events | TextsIn(events, texts)
        ensures OneWrite(Run(events).connection)
      {
        hide Run;
        RunKeeps(events);
      }
    }
  }

  /** An empty text looks like no write at all, so that a second write is started beside the first. */
  lemma EmptyOverlaps() returns (events: seq<Event<string>>)
    ensures Run(events).connection.outstanding == 2 && !Run(events).connection.closed
    ensures TextsIn(events, iset{""})
  {
    var empty := Broadcast("", "{}", false, None);
    events := [empty, Task(0.0, false), empty, Task(0.0, false)];
    RunSplits([], events);
    assert [] + events == events;
    var w2 := Step(Step(BOOT, empty), Task(0.0, false));
    assert w2.connection.outstanding == 1 && w2.connection.sending == "" && !w2.connection.closed;
    TwoSteps(BOOT, events);
    TwoSteps(w2, events[2..]);
    assert events[2..][2..] == [];
  }

  /** Running on from a given state. */
  function RunFrom(w: World, events: seq<Event<string>>): World
    decreases |events|
  {
    if events == [] then w else RunFrom(Step(w, events[0]), events[1..])
  }

  lemma TwoSteps(w: World, events: seq<Event<string>>)
    requires |events| >= 2
    ensures RunFrom(w, events) == RunFrom(Step(Step(w, events[0]), events[1]), events[2..])
  {
    hide Step;
    assert events[1..][1..] == events[2..];
  }

  lemma {:induction false} RunSplits(events: seq<Event<string>>, more: seq<Event<string>>)
    ensures Run(events + more) == RunFrom(Run(events), more)
    decreases |more|
  {
    hide Step;
    if more == [] {
      assert events + more == events;
    } else {
      var longer := events + [more[0]];
      assert longer[..|longer| - 1] == events;
      RunSplits(longer, more[1..]);
      assert longer + more[1..] == events + more;
    }
  }

  // ---------------------------------------------------------------- order

  /** The number no state given so far has reached. */
  function Given(b: Mailbox): nat {
    if b.forwarded == [] then 0 else b.forwarded[|b.forwarded| - 1].number + 1
  }

  predicate StatesBelow(handed: seq<Handed>, limit: nat) {
    forall i :: 0 <= i < |handed| && !handed[i].message.reliable ==> handed[i].message.number < limit
  }

  predicate StatesIncrease(handed: seq<Handed>) {
    forall i, j :: 0 <= i < j < |handed| && !handed[i].message.reliable && !handed[j].message.reliable ==>
      handed[i].message.number < handed[j].message.number
  }

  predicate Gone(m: Option<Message>, now: real) {
    m.None? || Expired(m.value, now)
  }

  /** The event turns the data channel on, and the connection survives telling the client. */
  predicate Switches(c: Connection, e: Event<string>) {
    e.Rtc? && e.active && !c.closed && !c.rtcActive && (c.sending == "" || |c.signaling| < SIGNALING_LIMIT)
  }

  /** No usable state waits behind a write, and none is deferred that a later one has overtaken. */
  predicate Clean(c: Connection, now: real) {
    Gone(c.pending, now) && (Gone(c.deferred, now) || StatesBelow(c.handed, c.deferred.value.number))
  }

  /** From event k on the data channel is turned on only when that is clean. */
  predicate CleanFrom(events: seq<Event<string>>, k: nat) {
    forall i :: k <= i < |events| && Switches(Run(events[..i]).connection, events[i]) ==>
      Clean(Run(events[..i]).connection, Now(Run(events[..i]), events[i]))
  }

  /**
   What keeps the order: while the data channel is on, what waits is expired and what is deferred is newer than
   all that was handed over; while it is off, what waits is.
   */
  predicate Ordered(c: Connection, given: nat, now: real) {
    && StatesIncrease(c.handed) && StatesBelow(c.handed, given)
    && (c.pending.Some? ==>
          c.pending.value.number < given &&
          (Expired(c.pending.value, now) || (!c.rtcActive && StatesBelow(c.handed, c.pending.value.number))))
    && (c.deferred.Some? ==>
          c.deferred.value.number < given &&
          (c.rtcActive && !Expired(c.deferred.value, now) ==> StatesBelow(c.handed, c.deferred.value.number)))
  }

  lemma HandedInOrder(handed: seq<Handed>, h: Handed, given: nat)
    requires StatesIncrease(handed)
    requires h.message.reliable ==> StatesBelow(handed, given)
    requires !h.message.reliable ==> StatesBelow(handed, h.message.number) && h.message.number < given
    ensures StatesIncrease(handed + [h]) && StatesBelow(handed + [h], given)
  {}

  lemma StatesBelowReliable(handed: seq<Handed>, h: Handed)
    requires h.message.reliable
    ensures forall limit: nat :: StatesBelow(handed, limit) ==> StatesBelow(handed + [h], limit)
  {}

  lemma LimitRises(handed: seq<Handed>, low: nat, high: nat)
    requires StatesBelow(handed, low) && low <= high
    ensures StatesBelow(handed, high)
  {}

  /** Time passes and more states are given. */
  lemma OrderedLater(c: Connection, given: nat, now: real, more: nat, later: real)
    requires Ordered(c, given, now) && given <= more && now <= later
    ensures Ordered(c, more, later)
  {
    hide StatesIncrease, StatesBelow;
    LimitRises(c.handed, given, more);
  }

  lemma SentOrdered(c: Connection, m: Message, now: real, accepts: bool, given: nat)
    requires Ordered(c, given, now)
    requires !m.reliable && !Expired(m, now) ==> StatesBelow(c.handed, m.number) && m.number < given
    requires !c.closed && c.sending == "" ==> c.pending.None?
    ensures Ordered(Sent(c, m, now, accepts), given, now)
  {
    hide StatesIncrease, StatesBelow;
    if m.reliable {
      HandedInOrder(c.handed, Handed(m, now, Socket), given);
      StatesBelowReliable(c.handed, Handed(m, now, Socket));
    } else if !Expired(m, now) {
      HandedInOrder(c.handed, Handed(m, now, Socket), given);
      HandedInOrder(c.handed, Handed(m, now, DataChannel), given);
    }
  }

  lemma CompletedOrdered(c: Connection, ok: bool, now: real, accepts: bool, given: nat)
    requires Ordered(c, given, now) && AllReliable(c.signaling)
    ensures Ordered(Completed(c, ok, now, accepts), given, now)
  {
    hide StatesIncrease, StatesBelow, Sent;
    var idle := c.(outstanding := if c.outstanding > 0 then c.outstanding - 1 else 0, sending := "");
    if ok && c.signaling != [] {
      HandedInOrder(c.handed, Handed(c.signaling[0], now, Socket), given);
      StatesBelowReliable(c.handed, Handed(c.signaling[0], now, Socket));
    } else if ok && c.pending.Some? {
      SentOrdered(idle.(pending := None), c.pending.value, now, accepts, given);
    }
  }

  lemma TimerOrdered(c: Connection, now: real, accepts: bool, given: nat)
    requires Ordered(c, given, now)
    ensures Ordered(TimerFired(c, now, accepts), given, now)
  {
    hide StatesIncrease, StatesBelow;
    if c.deferred.Some? && c.rtcActive && !Expired(c.deferred.value, now) {
      var h := Handed(c.deferred.value, now, DataChannel);
      if h.message.reliable {
        StatesBelowReliable(c.handed, h);
      }
      HandedInOrder(c.handed, h, given);
    }
  }

  lemma RtcOrdered(c: Connection, active: bool, notice: Json, now: real, accepts: bool, given: nat)
    requires Ordered(c, given, now) && (!c.closed && c.sending == "" ==> c.pending.None?)
    requires Switches(c, Rtc(active, notice, 0.0, accepts)) ==> Clean(c, now)
    ensures Ordered(RtcChanged(c, active, Reliable(notice), now, accepts), given, now)
  {
    hide StatesIncrease, StatesBelow;
    if !c.closed && (c.rtcActive || !active || c.sending == "" || |c.signaling| < SIGNALING_LIMIT) {
      SentOrdered(c.(rtcActive := active), Reliable(notice), now, accepts, given);
    }
  }

  lemma OrderStep(w: World, e: Event<string>)
    requires Ordered(w.connection, Given(w.mailbox), w.clock) && Kept(w.connection) && MailboxKept(w.mailbox)
    requires Switches(w.connection, e) ==> Clean(w.connection, Now(w, e))
    ensures var v := Step(w, e); Ordered(v.connection, Given(v.mailbox), v.clock)
  {
    hide Sent, Completed, TimerFired, RtcChanged, StatesIncrease, StatesBelow;
    var c, b, now := w.connection, w.mailbox, Now(w, e);
    var given := Given(MailboxAfter(b, e));
    OrderedLater(c, Given(b), w.clock, given, now);
    match e
    case Task(_, accepts) =>
      if b.posted != 0 {
        LimitRises(c.handed, Given(b), b.value.value.number);
        SentOrdered(c, b.value.value, now, accepts, given);
      }
    case Signal(notice, _, accepts) => SentOrdered(c, Reliable(notice), now, accepts, given);
    case WriteEnded(ok, _, accepts) => CompletedOrdered(c, ok, now, accepts, given);
    case Timer(_, accepts) => TimerOrdered(c, now, accepts, given);
    case Rtc(active, notice, _, accepts) => RtcOrdered(c, active, notice, now, accepts, given);
    case _ =>
  }

  lemma BootOrdered()
    ensures Ordered(BOOT.connection, Given(BOOT.mailbox), BOOT.clock)
  {}

  lemma CleanBefore(events: seq<Event<string>>, n: nat)
    requires CleanFrom(events, 0) && n <= |events|
    ensures CleanFrom(events[..n], 0)
  {
    hide Run, Switches, Clean;
    forall i | 0 <= i < n && Switches(Run(events[..n][..i]).connection, events[..n][i])
      ensures Clean(Run(events[..n][..i]).connection, Now(Run(events[..n][..i]), events[..n][i]))
    {
      assert events[..n][..i] == events[..i];
    }
  }

  lemma {:induction false} OrderKept(events: seq<Event<Json>>)
    requires CleanFrom(events, 0)
    ensures var w := Run(events); Ordered(w.connection, Given(w.mailbox), w.clock)
    decreases |events|
  {
    hide Ordered, Step, Kept, MailboxKept, Switches, Clean;
    if events == [] {
      BootOrdered();
    } else {
      var n := |events| - 1;
      CleanBefore(events, n);
      OrderKept(events[..n]);
      JsonKeeps(events[..n]);
      RunLeased(events[..n]);
      OrderStep(Run(events[..n]), events[n]);
    }
  }

  /** With the data channel only turned on cleanly, states are handed over in the order of their broadcasts, each at most once. */
  lemma StatesAreAnInOrderSelection(events: seq<Event<Json>>)
    requires CleanFrom(events, 0)
    ensures StatesIncrease(Run(events).connection.handed)
  {
    hide Run, CleanFrom;
    OrderKept(events);
  }

  /** The order stands whatever comes after e, as long as the channel is then turned on cleanly. */
  ghost predicate OrderStays(events: seq<Event<Json>>, e: Event<Json>) {
    forall more: seq<Event<Json>> :: CleanFrom(events + [e] + more, |events| + 1) ==>
      StatesIncrease(Run(events + [e] + more).connection.handed)
  }

  /** Turning the data channel on keeps the order from then on exactly when it is done cleanly. */
  lemma SwitchingKeepsOrderExactly(events: seq<Event<Json>>, e: Event<Json>)
    requires CleanFrom(events, 0) && Switches(Run(events).connection, e)
    ensures OrderStays(events, e) <==> Clean(Run(events).connection, Now(Run(events), e))
  {
    hide Run, Switches, Clean;
    if Clean(Run(events).connection, Now(Run(events), e)) {
      forall more: seq<Event<Json>> | CleanFrom(events + [e] + more, |events| + 1)
        ensures StatesIncrease(Run(events + [e] + more).connection.handed)
      {
        CleanThroughout(events, e, more);
        StatesAreAnInOrderSelection(events + [e] + more);
      }
    } else {
      var more := Reordering(events, e);
    }
  }

  lemma CleanThroughout(events: seq<Event<Json>>, e: Event<Json>, more: seq<Event<Json>>)
    requires CleanFrom(events, 0) && Clean(Run(events).connection, Now(Run(events), e))
    requires CleanFrom(events + [e] + more, |events| + 1)
    ensures CleanFrom(events + [e] + more, 0)
  {
    hide Run, Switches, Clean;
    var all := events + [e] + more;
    forall i | 0 <= i < |all| && Switches(Run(all[..i]).connection, all[i])
      ensures Clean(Run(all[..i]).connection, Now(Run(all[..i]), all[i]))
    {
      if i <= |events| {
        assert all[..i] == events[..i];
        assert i == |events| ==> events[..i] == events;
      }
    }
  }

  // ---------------------------------------------------------------- how a late switch reorders

  predicate NoneSwitches(more: seq<Event<string>>) {
    forall i :: 0 <= i < |more| ==> !(more[i].Rtc? && more[i].active)
  }

  lemma QuietIsClean(events: seq<Event<string>>, more: seq<Event<string>>)
    requires NoneSwitches(more)
    ensures CleanFrom(events + more, |events|)
  {}

  /** The end of a write hands over the next message from the queue. */
  lemma DrainStep(w: World)
    requires Kept(w.connection) && !w.connection.closed && w.connection.pending.Some? && w.connection.signaling != []
    ensures var v := Step(w, WriteEnded(true, 0.0, true));
            && Kept(v.connection) && !v.connection.closed && v.connection.pending == w.connection.pending
            && v.connection.signaling == w.connection.signaling[1..] && v.clock == w.clock
            && v.connection.handed == w.connection.handed + [Handed(w.connection.signaling[0], w.clock, Socket)]
  {
    hide Sent;
    CompletedKeeps(w.connection, true, w.clock, true);
  }

  /** The writes end until only the newest state waits. */
  lemma {:induction false} Drained(w: World, p: Message) returns (more: seq<Event<Json>>)
    requires Kept(w.connection) && !w.connection.closed && w.connection.pending == Some(p)
    ensures NoneSwitches(more)
    ensures var v := RunFrom(w, more);
            && Kept(v.connection) && !v.connection.closed && v.connection.pending == Some(p) && v.connection.signaling == []
            && w.connection.handed <= v.connection.handed && v.clock == w.clock
    decreases |w.connection.signaling|
  {
    hide Step, Kept;
    if w.connection.signaling == [] {
      more := [];
    } else {
      DrainStep(w);
      var rest := Drained(Step(w, WriteEnded(true, 0.0, true)), p);
      more := [WriteEnded(true, 0.0, true)] + rest;
      assert more[1..] == rest;
    }
  }

  /** A client that falls back is told by a message that waits for its turn. */
  lemma FallenBack(w: World)
    requires Kept(w.connection) && !w.connection.closed && w.connection.signaling == [] && w.connection.pending.Some?
    ensures var v := Step(w, Rtc(false, "{}", 0.0, true)).connection;
            && Kept(v) && !v.closed && !v.rtcActive && v.sending != "" && v.signaling == [Reliable("{}")]
            && v.pending == w.connection.pending && v.handed == w.connection.handed
  {
    RtcKeeps(w.connection, false, "{}", w.clock, true);
  }

  lemma NoticeWritten(c: Connection, now: real)
    requires Kept(c) && !c.closed && !c.rtcActive && c.sending != "" && c.signaling == [Reliable("{}")]
    ensures var d := Completed(c, true, now, true);
            && Kept(d) && !d.closed && !d.rtcActive && d.sending != "" && d.signaling == []
            && d.pending == c.pending && c.handed < d.handed
  {
    CompletedKeeps(c, true, now, true);
  }

  lemma WaitingWritten(c: Connection, now: real)
    requires Kept(c) && !c.closed && !c.rtcActive && c.sending != "" && c.signaling == []
    requires c.pending.Some? && !Expired(c.pending.value, now)
    ensures Completed(c, true, now, true).handed == c.handed + [Handed(c.pending.value, now, Socket)]
  {}

  /** The client falls back, and the state that waited is written. */
  lemma WrittenLate(w: World, p: Message) returns (more: seq<Event<Json>>)
    requires Kept(w.connection) && !w.connection.closed && w.connection.signaling == []
    requires w.connection.pending == Some(p) && !Expired(p, w.clock)
    ensures NoneSwitches(more)
    ensures var handed := RunFrom(w, more).connection.handed;
            w.connection.handed < handed && handed[|handed| - 1].message == p
  {
    hide Completed, RtcChanged, Expired;
    var end := WriteEnded(true, 0.0, true);
    more := [Rtc(false, "{}", 0.0, true), end, end];
    var w1 := Step(w, more[0]);
    FallenBack(w);
    NoticeWritten(w1.connection, w1.clock);
    var w2 := Step(w1, more[1]);
    WaitingWritten(w2.connection, w2.clock);
    TwoSteps(w, more);
    TwoSteps(w1, more[1..]);
    assert more[1..][2..] == [] && more[2..] == [end];
    assert RunFrom(w2, more[2..]) == Step(w2, end) by { assert more[2..][1..] == []; }
  }

  /** A newer state goes through the data channel. */
  lemma Overtaken(w: World) returns (more: seq<Event<Json>>)
    requires MailboxKept(w.mailbox) && !w.connection.closed && w.connection.rtcActive
    ensures NoneSwitches(more)
    ensures var v := RunFrom(w, more);
            exists m: Message :: m.number == |w.mailbox.broadcasts| && !m.reliable &&
              v.connection == w.connection.(deferred := None, handed := w.connection.handed + [Handed(m, w.clock, DataChannel)]) &&
              v.clock == w.clock
  {
    more := [Broadcast("{}", "{}", true, None), Task(0.0, true)];
    var w1 := Step(w, more[0]);
    var m := Message(|w.mailbox.broadcasts|, "{}", "{}", false, true, None);
    assert w1.connection == w.connection && w1.mailbox.value == Some(m) && w1.mailbox.posted != 0;
    var w2 := Step(w1, more[1]);
    assert w2.connection == w.connection.(deferred := None, handed := w.connection.handed + [Handed(m, w.clock, DataChannel)]);
    assert more[1..] == [more[1]] && more[1..][1..] == [];
    assert RunFrom(w1, more[1..]) == RunFrom(w2, []);
  }

  lemma {:induction false} FromSplits(w: World, events: seq<Event<string>>, more: seq<Event<string>>)
    ensures RunFrom(w, events + more) == RunFrom(RunFrom(w, events), more)
    decreases |events|
  {
    hide Step;
    if events == [] {
      assert events + more == more;
    } else {
      FromSplits(Step(w, events[0]), events[1..], more);
      assert (events + more)[1..] == events[1..] + more;
    }
  }

  lemma Overtakes(earlier: seq<Handed>, h: Handed, later: seq<Handed>)
    requires !h.message.reliable && earlier + [h] <= later && |later| > |earlier| + 1
    requires var last := later[|later| - 1].message; !last.reliable && last.number <= h.message.number
    ensures !StatesIncrease(later)
  {
    assert later[|earlier|] == h;
  }

  /** A usable state waits when the channel is turned on: a newer one overtakes it. */
  lemma WaitingOvertaken(w: World, p: Message) returns (more: seq<Event<Json>>)
    requires Kept(w.connection) && MailboxKept(w.mailbox) && !w.connection.closed && w.connection.rtcActive
    requires w.connection.pending == Some(p) && !Expired(p, w.clock) && p.number < |w.mailbox.broadcasts|
    ensures NoneSwitches(more) && !StatesIncrease(RunFrom(w, more).connection.handed)
  {
    hide MailboxKept, Kept, StatesIncrease, RunFrom;
    var first := Overtaken(w);
    var v := RunFrom(w, first);
    var m: Message :| m.number == |w.mailbox.broadcasts| && !m.reliable &&
      v.connection == w.connection.(deferred := None, handed := w.connection.handed + [Handed(m, w.clock, DataChannel)]);
    KeptOvertaken(w.connection, Handed(m, w.clock, DataChannel));
    var drain := Drained(v, p);
    var x := RunFrom(v, drain);
    var last := WrittenLate(x, p);
    more := first + drain + last;
    FromSplits(w, first + drain, last);
    FromSplits(w, first, drain);
    StillReliable(v.connection, p);
    Overtakes(w.connection.handed, Handed(m, w.clock, DataChannel), RunFrom(x, last).connection.handed);
  }

  lemma KeptOvertaken(c: Connection, h: Handed)
    requires Kept(c) && !h.message.reliable
    ensures Kept(c.(deferred := None, handed := c.handed + [h]))
  {
    HandedAdds(c.handed, h);
  }

  lemma StillReliable(c: Connection, p: Message)
    requires Kept(c) && c.pending == Some(p)
    ensures !p.reliable
  {}

  /** A deferred state that was overtaken is sent by the timer. */
  lemma DeferredLate(w: World)
    requires Kept(w.connection) && !w.connection.closed && w.connection.rtcActive
    requires w.connection.deferred.Some? && !Expired(w.connection.deferred.value, w.clock)
    requires !w.connection.deferred.value.reliable
    requires !StatesBelow(w.connection.handed, w.connection.deferred.value.number)
    ensures !StatesIncrease(RunFrom(w, [Timer(0.0, true)]).connection.handed)
  {
    var d := w.connection.deferred.value;
    var v := Step(w, Timer(0.0, true));
    assert v.connection.handed == w.connection.handed + [Handed(d, w.clock, DataChannel)];
    var i :| 0 <= i < |w.connection.handed| && !w.connection.handed[i].message.reliable &&
      w.connection.handed[i].message.number >= d.number;
    assert v.connection.handed[i] == w.connection.handed[i] && v.connection.handed[|w.connection.handed|].message == d;
    var timer: seq<Event<Json>> := [Timer(0.0, true)];
    assert RunFrom(v, []) == v && timer[1..] == [];
  }

  /** Switching leaves what waits and what is deferred. */
  lemma SwitchedOn(w: World, e: Event<string>)
    requires Switches(w.connection, e) && Kept(w.connection)
    ensures var c := Step(w, e).connection;
            && !c.closed && c.rtcActive && c.pending == w.connection.pending && c.deferred == w.connection.deferred
            && (forall limit: nat :: StatesBelow(c.handed, limit) ==> StatesBelow(w.connection.handed, limit))
  {
    var c := Step(w, e).connection;
    assert w.connection.handed <= c.handed;
    forall limit: nat | StatesBelow(c.handed, limit)
      ensures StatesBelow(w.connection.handed, limit)
    {
      forall i | 0 <= i < |w.connection.handed| && !w.connection.handed[i].message.reliable
        ensures w.connection.handed[i].message.number < limit
      {
        assert c.handed[i] == w.connection.handed[i];
      }
    }
  }

  lemma WaitingWasBroadcast(w: World, p: Message)
    requires Leased(w.connection, w.mailbox.broadcasts) && MailboxKept(w.mailbox) && w.connection.pending == Some(p)
    ensures p.number < |w.mailbox.broadcasts|
  {}

  lemma RunExtends(events: seq<Event<string>>, e: Event<string>)
    ensures Run(events + [e]) == Step(Run(events), e)
  {
    assert (events + [e])[..|events|] == events;
  }

  /** After a switch that is not clean a run can go on so that an older state is handed over after a newer one. */
  lemma Reordering(events: seq<Event<Json>>, e: Event<Json>) returns (more: seq<Event<Json>>)
    requires Switches(Run(events).connection, e) && !Clean(Run(events).connection, Now(Run(events), e))
    ensures CleanFrom(events + [e] + more, |events| + 1)
    ensures !StatesIncrease(Run(events + [e] + more).connection.handed)
  {
    hide Run, Kept, MailboxKept, Leased, StatesIncrease, StatesBelow, RunFrom, CleanFrom, Step, Switches;
    var w0, w := Run(events), Run(events + [e]);
    RunExtends(events, e);
    StepParts(w0, e);
    JsonKeeps(events);
    JsonKeeps(events + [e]);
    RunLeased(events + [e]);
    SwitchedOn(w0, e);
    if !Gone(w0.connection.pending, w.clock) {
      var p := w0.connection.pending.value;
      WaitingWasBroadcast(w, p);
      more := WaitingOvertaken(w, p);
    } else {
      more := [Timer(0.0, true)];
      DeferredIsState(w);
      DeferredLate(w);
    }
    RunSplits(events + [e], more);
    QuietIsClean(events + [e], more);
  }

  lemma DeferredIsState(w: World)
    requires Leased(w.connection, w.mailbox.broadcasts) && w.connection.deferred.Some?
    ensures !w.connection.deferred.value.reliable
  {}

  /**
   A run in which a state overtakes another: two states are broadcast while the first is being written, the
   channel is turned on, and a third goes through it before the second is written.
   */
  lemma ChannelCanReorder() returns (events: seq<Event<Json>>)
    ensures !StatesIncrease(Run(events).connection.handed)
  {
    var state := Broadcast("{}", "{}", true, None);
    var start := [state, Task(0.0, true), state, Task(0.0, true)];
    var on := Rtc(true, "{}", 0.0, true);
    RunSplits([], start);
    assert [] + start == start;
    var w2 := Step(Step(BOOT, state), Task(0.0, true));
    TwoSteps(BOOT, start);
    TwoSteps(w2, start[2..]);
    assert start[2..][2..] == [];
    var more := Reordering(start, on);
    events := start + [on] + more;
  }

  // ---------------------------------------------------------------- the connection

  /** A websocket connection; the ghost fields record what went to the transports. */
  class Ws {
    var closed: bool
    var sending: string
    var pending: Option<Message>
    var signaling: seq<Message>
    var rtcActive: bool
    var rtcDeferred: Option<Message>
    var flushArmed: bool
    var compact: bool
    ghost var handed: seq<Handed>
    ghost var taken: seq<Message>
    ghost var outstanding: nat

    ghost function Value(): Connection
      reads this
    {
      Connection(closed, sending, pending, signaling, rtcActive, rtcDeferred, flushArmed, compact, handed, taken, outstanding)
    }

    constructor ()
      ensures Value() == OPENED
    {
      closed, sending, pending, signaling, rtcActive, rtcDeferred := false, "", None, [], false, None;
      flushArmed, compact, handed, taken, outstanding := false, false, [], [], 0;
    }

    method CloseNow()
      modifies `closed, `rtcActive, `rtcDeferred
      ensures Value() == Closed(old(Value()))
    {
      if closed {
        return;
      }
      closed := true;
      rtcActive := false;
      rtcDeferred := None;
    }

    method ArmFlush()
      modifies `flushArmed
      ensures Value() == Armed(old(Value()))
    {
      if closed || flushArmed || rtcDeferred.None? {
        return;
      }
      flushArmed := true;
    }

    method StartWrite(m: Message, now: real)
      modifies `sending, `handed, `outstanding
      ensures Value() == Written(old(Value()), m, now)
    {
      sending := if (compact || rtcActive) && m.isObject && m.lease.Some? then m.compactText else m.text;
      handed := handed + [Handed(m, now, Socket)];
      outstanding := outstanding + 1;
    }

    method Send(m: Message, now: real, accepts: bool)
      modifies this
      ensures Value() == Sent(old(Value()), m, now, accepts)
      decreases if pending.Some? then 1 else 0
    {
      if closed {
        return;
      }
      if !m.reliable && Expired(m, now) {
        if sending != "" || pending.None? || pending.value.reliable || Expired(pending.value, now) {
          return;
        }
        var next := pending.value;
        pending := None;
        Send(next, now, accepts);
        return;
      }
      if rtcActive && !m.reliable {
        if !m.isObject {
          return;
        }
        if accepts {
          rtcDeferred := None;
          handed := handed + [Handed(m, now, DataChannel)];
          return;
        }
        rtcDeferred := Some(m);
        ArmFlush();
        return;
      }
      if sending != "" {
        if m.reliable {
          if |signaling| >= SIGNALING_LIMIT {
            CloseNow();
            return;
          }
          signaling := signaling + [m];
          taken := taken + [m];
        } else {
          pending := Some(m);
        }
        return;
      }
      if m.reliable {
        taken := taken + [m];
      }
      StartWrite(m, now);
    }

    method WriteEnded(ok: bool, now: real, accepts: bool)
      requires outstanding > 0
      modifies this
      ensures Value() == Completed(old(Value()), ok, now, accepts)
    {
      hide Sent;
      outstanding := outstanding - 1;
      if !ok {
        CloseNow();
        return;
      }
      sending := "";
      if signaling != [] {
        var next := signaling[0];
        signaling := signaling[1..];
        if !closed {
          StartWrite(next, now);
        }
      } else if pending.Some? {
        var next := pending.value;
        pending := None;
        Send(next, now, accepts);
      }
    }

    method FlushDeferred(now: real, accepts: bool)
      modifies `rtcDeferred, `handed
      ensures Value() == Flushed(old(Value()), now, accepts)
    {
      if closed || rtcDeferred.None? || !rtcActive {
        rtcDeferred := None;
        return;
      }
      if Expired(rtcDeferred.value, now) {
        rtcDeferred := None;
        return;
      }
      if !rtcDeferred.value.isObject {
        return;
      }
      if accepts {
        handed := handed + [Handed(rtcDeferred.value, now, DataChannel)];
        rtcDeferred := None;
      }
    }

    method FlushTimer(now: real, accepts: bool)
      requires !closed ==> flushArmed
      modifies this
      ensures Value() == TimerFired(old(Value()), now, accepts)
    {
      if closed {
        return;
      }
      flushArmed := false;
      FlushDeferred(now, accepts);
      ArmFlush();
    }

    method RtcState(active: bool, notice: Message, now: real, accepts: bool)
      modifies this
      ensures Value() == RtcChanged(old(Value()), active, notice, now, accepts)
    {
      hide Sent;
      if closed {
        return;
      }
      rtcActive := active;
      Send(notice, now, accepts);
    }
  }

  /** The mailbox fields of the server. */
  class BroadcastBox {
    var value: Option<Message>
    var pending: bool
    ghost var posted: nat
    ghost var broadcasts: seq<Message>
    ghost var forwarded: seq<Message>

    ghost function Value(): Mailbox
      reads this
    {
      Mailbox(value, pending, posted, broadcasts, forwarded)
    }

    constructor ()
      ensures Value() == BOOT.mailbox
    {
      value, pending, posted, broadcasts, forwarded := None, false, 0, [], [];
    }

    /** Any thread; post is whether a task has to be posted to the sender's thread. */
    method Put(m: Message) returns (post: bool)
      modifies this
      ensures Value() == Posted(old(Value()), m) && post == !old(pending)
    {
      value := Some(m);
      broadcasts := broadcasts + [m];
      if pending {
        return false;
      }
      pending := true;
      posted := posted + 1;
      post := true;
    }

    /** The posted task takes the latest value out. */
    method Take() returns (latest: Message)
      requires posted > 0 && value.Some?
      modifies this
      ensures latest == old(value).value
      ensures Value() == old(Value()).(pending := false, posted := old(posted) - 1, forwarded := old(forwarded) + [latest])
    {
      latest := value.value;
      pending := false;
      posted := posted - 1;
      forwarded := forwarded + [latest];
    }
  }
}
