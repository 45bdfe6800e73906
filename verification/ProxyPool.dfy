/**
 The proxy's health pool: probes run in parallel with real connections, and a generation number keeps
 a probe that started before a connection failed from overruling that failure.

 Every event is one critical section of the pool's mutex. Times are clock milliseconds; 0 is the
 clock's epoch, which the code uses for "never".
 */
module ProxyPool {
  const TWO_32: nat := 0x1_0000_0000

  datatype Upstream = Upstream(name: string, key: string)

  datatype Status = Status(ok: bool, checked: int, blocked: int, generation: nat)

  const UNKNOWN := Status(false, 0, 0, 0)

  datatype Config = Config(cooldown: int, interval: int, probeTimeout: int)

  datatype PoolState = PoolState(order: seq<Upstream>, state: map<string, Status>)

  // ---------------------------------------------------------------- the specification

  function StatusOf(p: PoolState, key: string): Status {
    if key in p.state then p.state[key] else UNKNOWN
  }

  /** A new candidate list; what is known about upstreams no longer listed is forgotten. */
  function Listed(p: PoolState, order: seq<Upstream>): PoolState {
    PoolState(order, map key | key in p.state && (exists u :: u in order && u.key == key) :: p.state[key])
  }

  /** A probe may start unless the upstream is cooling down. */
  predicate MayProbe(p: PoolState, u: Upstream, now: int) {
    now >= StatusOf(p, u.key).blocked
  }

  function Touched(p: PoolState, u: Upstream): PoolState {
    p.(state := p.state[u.key := StatusOf(p, u.key)])
  }

  function Probed(p: PoolState, key: string, generation: nat, ok: bool, now: int): PoolState {
    var s := StatusOf(p, key);
    p.(state := p.state[key := if s.generation != generation then s else s.(ok := ok, checked := now)])
  }

  function FailedAt(cfg: Config, p: PoolState, key: string, now: int): PoolState {
    var s := StatusOf(p, key);
    p.(state := p.state[key := s.(ok := false, blocked := now + cfg.cooldown, generation := (s.generation + 1) % TWO_32)])
  }

  predicate Usable(cfg: Config, p: PoolState, key: string, now: int) {
    key in p.state && p.state[key].ok && now >= p.state[key].blocked &&
    now - p.state[key].checked < cfg.interval + cfg.probeTimeout + 5000
  }

  /** The usable upstreams among the given ones, in their order. */
  function Among(cfg: Config, p: PoolState, order: seq<Upstream>, now: int): seq<Upstream> {
    if order == [] then []
    else
      var earlier, last := Among(cfg, p, order[..|order| - 1], now), order[|order| - 1];
      if Usable(cfg, p, last.key, now) then earlier + [last] else earlier
  }

  function ReadyUpstreams(cfg: Config, p: PoolState, now: int): seq<Upstream> {
    Among(cfg, p, p.order, now)
  }

  // ---------------------------------------------------------------- interleavings

  /** A probe on its way, and how many connection failures its upstream had since it started. */
  datatype Probe = Probe(key: string, generation: nat, failsSince: nat)

  datatype World = World(pool: PoolState, todo: seq<Upstream>, probes: seq<Probe>, now: int)

  datatype Event =
    | Refresh(order: seq<Upstream>, at: int)
    | Launch(at: int)
    | Done(index: nat, ok: bool, at: int)
    | Fail(upstream: Upstream, at: int)

  function Later(now: int, at: int): int {
    if at > now then at else now
  }

  function Aged(probes: seq<Probe>, key: string): (r: seq<Probe>)
    ensures |r| == |probes|
    ensures forall i :: 0 <= i < |r| ==>
                          r[i] == if probes[i].key == key then probes[i].(failsSince := probes[i].failsSince + 1) else probes[i]
  {
    seq(|probes|, i requires 0 <= i < |probes| =>
      if probes[i].key == key then probes[i].(failsSince := probes[i].failsSince + 1) else probes[i])
  }

  /** One checker thread refreshes, waiting for all its probes before it refreshes again; connections fail at any time. */
  function Step(cfg: Config, w: World, e: Event): World {
    var now := Later(w.now, e.at);
    match e
    case Refresh(order, _) =>
      if w.todo != [] || w.probes != [] then w
      else w.(pool := Listed(w.pool, order), todo := order, now := now)
    case Launch(_) =>
      if w.todo == [] then w
      else
        var u := w.todo[0];
        var touched := w.(pool := Touched(w.pool, u), todo := w.todo[1..], now := now);
        if MayProbe(w.pool, u, now) then
          touched.(probes := w.probes + [Probe(u.key, StatusOf(w.pool, u.key).generation, 0)])
        else touched
    case Done(i, ok, _) =>
      if i >= |w.probes| then w
      else w.(pool := Probed(w.pool, w.probes[i].key, w.probes[i].generation, ok, now),
              probes := w.probes[..i] + w.probes[i + 1..], now := now)
    case Fail(u, _) =>
      w.(pool := FailedAt(cfg, w.pool, u.key, now), probes := Aged(w.probes, u.key), now := now)
  }

  function Boot(now: int): World {
    World(PoolState([], map[]), [], [], now)
  }

  function Run(cfg: Config, boot: int, events: seq<Event>): World {
    if events == [] then Boot(boot)
    else Step(cfg, Run(cfg, boot, events[..|events| - 1]), events[|events| - 1])
  }

  predicate Tracked(p: PoolState, probe: Probe) {
    probe.key in p.state && p.state[probe.key].generation == (probe.generation + probe.failsSince) % TWO_32 &&
    probe.generation < TWO_32
  }

  predicate Invariant(w: World) {
    && (forall i :: 0 <= i < |w.probes| ==> Tracked(w.pool, w.probes[i]))
    && (forall key :: key in w.pool.state ==> w.pool.state[key].generation < TWO_32)
    && (forall key :: key in w.pool.state && w.pool.state[key].ok ==> 0 < w.pool.state[key].checked <= w.now)
    && 0 < w.now
  }

  lemma StepKeeps(cfg: Config, w: World, e: Event)
    requires Invariant(w)
    ensures Invariant(Step(cfg, w, e))
  {
    var after := Step(cfg, w, e);
    match e
    case Refresh(_, _) =>
    case Launch(_) => LaunchKeeps(cfg, w, e);
    case Done(i, ok, _) => DoneKeeps(cfg, w, e);
    case Fail(u, _) =>
      forall i | 0 <= i < |w.probes|
        ensures Tracked(after.pool, after.probes[i])
      {
        assert Tracked(w.pool, w.probes[i]);
        NextGeneration(w.probes[i].generation + w.probes[i].failsSince);
      }
  }

  lemma NextGeneration(n: nat)
    ensures (n % TWO_32 + 1) % TWO_32 == (n + 1) % TWO_32
  {}

  lemma LaunchKeeps(cfg: Config, w: World, e: Event)
    requires Invariant(w) && e.Launch?
    ensures Invariant(Step(cfg, w, e))
  {
    var after := Step(cfg, w, e);
    forall i | 0 <= i < |after.probes|
      ensures Tracked(after.pool, after.probes[i])
    {
      if i < |w.probes| {
        assert Tracked(w.pool, w.probes[i]);
      }
    }
  }

  lemma DoneKeeps(cfg: Config, w: World, e: Event)
    requires Invariant(w) && e.Done?
    ensures Invariant(Step(cfg, w, e))
  {
    if e.index < |w.probes| {
      var after := Step(cfg, w, e);
      forall i | 0 <= i < |after.probes|
        ensures Tracked(after.pool, after.probes[i])
      {
        assert Tracked(w.pool, w.probes[if i < e.index then i else i + 1]);
      }
    }
  }

  lemma {:induction false} RunKeeps(cfg: Config, boot: int, events: seq<Event>)
    requires boot > 0
    ensures Invariant(Run(cfg, boot, events))
    decreases |events|
  {
    hide Step, Invariant;
    if events == [] {
      BootKeeps(boot);
    } else {
      RunKeeps(cfg, boot, events[..|events| - 1]);
      StepKeeps(cfg, Run(cfg, boot, events[..|events| - 1]), events[|events| - 1]);
    }
  }

  lemma BootKeeps(boot: int)
    requires boot > 0
    ensures Invariant(Boot(boot))
  {}

  /**
   In every interleaving a finished probe sets its upstream's health exactly when the failures since
   it started number a multiple of 2^32, in particular when there were none; otherwise it changes nothing.
   */
  lemma ProbeCountsUnlessFailedSince(cfg: Config, boot: int, events: seq<Event>, i: nat, ok: bool, at: int)
    requires boot > 0 && i < |Run(cfg, boot, events).probes|
    ensures var w := Run(cfg, boot, events); var after := Step(cfg, w, Done(i, ok, at));
            var key, state := w.probes[i].key, w.pool.state;
            key in state &&
            after.pool == w.pool.(state := state[key :=
              if w.probes[i].failsSince % TWO_32 == 0 then state[key].(ok := ok, checked := after.now) else state[key]])
  {
    hide Run;
    RunKeeps(cfg, boot, events);
    var p := Run(cfg, boot, events).probes[i];
    assert Tracked(Run(cfg, boot, events).pool, p);
    SameGeneration(p.generation, p.failsSince);
  }

  lemma SameGeneration(g: nat, fails: nat)
    requires g < TWO_32
    ensures (g + fails) % TWO_32 == g <==> fails % TWO_32 == 0
  {
    var q, r := fails / TWO_32, fails % TWO_32;
    assert fails == q * TWO_32 + r;
    if g + r < TWO_32 {
      Remainder(g + fails, q, g + r);
    } else {
      Remainder(g + fails, q + 1, g + r - TWO_32);
    }
  }

  lemma Remainder(n: nat, q: nat, r: nat)
    requires n == q * TWO_32 + r && r < TWO_32
    ensures n % TWO_32 == r
  {}

  /** So a stale probe, with fewer than 2^32 failures in between, can never bring an upstream back. */
  lemma StaleProbeIsIgnored(cfg: Config, boot: int, events: seq<Event>, i: nat, ok: bool, at: int)
    requires boot > 0 && i < |Run(cfg, boot, events).probes|
    requires 0 < Run(cfg, boot, events).probes[i].failsSince < TWO_32
    ensures Step(cfg, Run(cfg, boot, events), Done(i, ok, at)).pool == Run(cfg, boot, events).pool
  {
    hide Run, Step;
    ProbeCountsUnlessFailedSince(cfg, boot, events, i, ok, at);
    var w := Run(cfg, boot, events);
    assert w.pool.state[w.probes[i].key := w.pool.state[w.probes[i].key]] == w.pool.state;
  }

  predicate StillListed(e: Event, key: string) {
    e.Refresh? ==> exists v :: v in e.order && v.key == key
  }

  /**
   A connection failure keeps the upstream blocked for the whole cooldown, whatever probes report,
   as long as every refresh still lists it.
   */
  lemma {:induction false} FailureMeansCooldown(cfg: Config, boot: int, events: seq<Event>, u: Upstream, at: int, more: seq<Event>)
    requires boot > 0
    requires forall i :: 0 <= i < |more| ==> StillListed(more[i], u.key)
    ensures var w := Run(cfg, boot, events + [Fail(u, at)] + more);
            w.now >= Run(cfg, boot, events).now &&
            u.key in w.pool.state && w.pool.state[u.key].blocked >= Run(cfg, boot, events).now + cfg.cooldown
    decreases |more|
  {
    hide Step;
    var first := events + [Fail(u, at)];
    RunKeeps(cfg, boot, events);
    if more == [] {
      assert first + more == first && first[..|first| - 1] == events;
      FailBlocks(cfg, Run(cfg, boot, events), u, at);
    } else {
      FailureMeansCooldown(cfg, boot, events, u, at, more[..|more| - 1]);
      assert (first + more)[..|first + more| - 1] == first + more[..|more| - 1];
      BlockNeverShrinks(cfg, Run(cfg, boot, first + more[..|more| - 1]), more[|more| - 1], u.key);
    }
  }

  lemma FailBlocks(cfg: Config, w: World, u: Upstream, at: int)
    ensures var after := Step(cfg, w, Fail(u, at));
            after.now >= w.now && u.key in after.pool.state && after.pool.state[u.key].blocked >= w.now + cfg.cooldown
  {}

  lemma BlockNeverShrinks(cfg: Config, w: World, e: Event, key: string)
    requires key in w.pool.state && StillListed(e, key)
    ensures key in Step(cfg, w, e).pool.state && Step(cfg, w, e).now >= w.now
    ensures Step(cfg, w, e).pool.state[key].blocked >= w.pool.state[key].blocked ||
            Step(cfg, w, e).pool.state[key].blocked >= w.now + cfg.cooldown
  {}

  // ---------------------------------------------------------------- what makes an upstream usable, told by the events

  /** What was last learnt of an upstream since it is listed: from a probe that counts, or from a failed connection. */
  datatype Word = Silent | Said(ok: bool, at: int)

  predicate Counts(w: World, e: Event, key: string) {
    e.Done? && e.index < |w.probes| && w.probes[e.index].key == key && w.probes[e.index].failsSince % TWO_32 == 0
  }

  predicate Drops(w: World, e: Event, key: string) {
    e.Refresh? && w.todo == [] && w.probes == [] && forall u :: u in e.order ==> u.key != key
  }

  function LastWord(cfg: Config, boot: int, events: seq<Event>, key: string): Word {
    if events == [] then Silent
    else
      var n := |events| - 1;
      var w, e := Run(cfg, boot, events[..n]), events[n];
      if Drops(w, e, key) then Silent
      else if Counts(w, e, key) then Said(e.ok, Run(cfg, boot, events).now)
      else if e.Fail? && e.upstream.key == key then Said(false, Run(cfg, boot, events).now)
      else LastWord(cfg, boot, events[..n], key)
  }

  /** When a connection last failed since the upstream is listed; Silent if none did. */
  function LastFailure(cfg: Config, boot: int, events: seq<Event>, key: string): Word {
    if events == [] then Silent
    else
      var n := |events| - 1;
      var w, e := Run(cfg, boot, events[..n]), events[n];
      if Drops(w, e, key) then Silent
      else if e.Fail? && e.upstream.key == key then Said(false, Run(cfg, boot, events).now)
      else LastFailure(cfg, boot, events[..n], key)
  }

  /** What the pool's entry for an upstream says of these events. */
  predicate Tells(cfg: Config, s: Status, word: Word, failure: Word) {
    && (s.ok <==> word.Said? && word.ok)
    && (s.ok ==> s.checked == word.at)
    && s.blocked == if failure.Said? then failure.at + cfg.cooldown else 0
  }

  lemma TellsStep(cfg: Config, w: World, e: Event, key: string, word: Word, failure: Word)
    requires Invariant(w) && Tells(cfg, StatusOf(w.pool, key), word, failure)
    ensures var after := Step(cfg, w, e); var s := StatusOf(after.pool, key);
            if Drops(w, e, key) then Tells(cfg, s, Silent, Silent)
            else if Counts(w, e, key) then Tells(cfg, s, Said(e.ok, after.now), failure)
            else if e.Fail? && e.upstream.key == key then Tells(cfg, s, Said(false, after.now), Said(false, after.now))
            else Tells(cfg, s, word, failure)
  {
    match e
    case Refresh(order, _) =>
      if key in w.pool.state && (exists u :: u in order && u.key == key) {
        var u :| u in order && u.key == key;
      }
    case Launch(_) =>
    case Done(i, ok, _) =>
      if i < |w.probes| {
        assert Tracked(w.pool, w.probes[i]);
        SameGeneration(w.probes[i].generation, w.probes[i].failsSince);
      }
    case Fail(u, _) =>
  }

  lemma {:induction false} EntriesTell(cfg: Config, boot: int, events: seq<Event>, key: string)
    requires boot > 0
    ensures Tells(cfg, StatusOf(Run(cfg, boot, events).pool, key),
                  LastWord(cfg, boot, events, key), LastFailure(cfg, boot, events, key))
    decreases |events|
  {
    hide Step, Invariant, Tells;
    if events == [] {
      BootTells(cfg, boot, key);
    } else {
      var n := |events| - 1;
      EntriesTell(cfg, boot, events[..n], key);
      RunKeeps(cfg, boot, events[..n]);
      TellsStep(cfg, Run(cfg, boot, events[..n]), events[n], key,
                LastWord(cfg, boot, events[..n], key), LastFailure(cfg, boot, events[..n], key));
    }
  }

  lemma BootTells(cfg: Config, boot: int, key: string)
    ensures Tells(cfg, StatusOf(Boot(boot).pool, key), Silent, Silent)
  {}

  /**
   In every interleaving an upstream is usable if and only if the last word on it since it is listed is a good
   probe, not too old, and no connection to it failed within the cooldown.
   */
  lemma UsableMeansProbed(cfg: Config, boot: int, events: seq<Event>, key: string, now: int)
    requires boot > 0
    ensures var word, failure := LastWord(cfg, boot, events, key), LastFailure(cfg, boot, events, key);
            Usable(cfg, Run(cfg, boot, events).pool, key, now) <==>
            && word.Said? && word.ok && now - word.at < cfg.interval + cfg.probeTimeout + 5000
            && now >= if failure.Said? then failure.at + cfg.cooldown else 0
  {
    hide Run, LastWord, LastFailure;
    EntriesTell(cfg, boot, events, key);
  }

  /** In every interleaving the next candidate is probed if and only if no connection to it failed within the cooldown. */
  lemma ProbesWaitForTheCooldown(cfg: Config, boot: int, events: seq<Event>, at: int)
    requires boot > 0 && Run(cfg, boot, events).todo != []
    ensures var w, after := Run(cfg, boot, events), Step(cfg, Run(cfg, boot, events), Launch(at));
            var failure := LastFailure(cfg, boot, events, w.todo[0].key);
            && after.todo == w.todo[1..]
            && (if after.now >= (if failure.Said? then failure.at + cfg.cooldown else 0)
                then |after.probes| == |w.probes| + 1 && after.probes[..|w.probes|] == w.probes &&
                     after.probes[|w.probes|].key == w.todo[0].key && after.probes[|w.probes|].failsSince == 0
                else after.probes == w.probes)
  {
    hide Run, LastFailure, LastWord;
    EntriesTell(cfg, boot, events, Run(cfg, boot, events).todo[0].key);
  }

  // ---------------------------------------------------------------- what the status page shows

  datatype Row = Checking | Known(usable: bool, coolingDown: bool, selected: bool)

  predicate ShownUsable(cfg: Config, s: Status, now: int) {
    var recent := s.checked != 0 && now - s.checked < cfg.interval + cfg.probeTimeout + 5000;
    recent && s.ok && now >= s.blocked
  }

  /** The rows for a prefix of the list; only the first usable upstream is marked selected. */
  function Rows(cfg: Config, p: PoolState, order: seq<Upstream>, now: int): (rows: seq<Row>)
    ensures |rows| == |order|
  {
    if order == [] then []
    else
      var earlier, key := Rows(cfg, p, order[..|order| - 1], now), order[|order| - 1].key;
      if key !in p.state then earlier + [Checking]
      else
        var usable := ShownUsable(cfg, p.state[key], now);
        earlier + [Known(usable, now < p.state[key].blocked, usable && !Selects(earlier))]
  }

  predicate Selects(rows: seq<Row>) {
    exists i :: 0 <= i < |rows| && rows[i].Known? && rows[i].selected
  }

  /** What is shown as usable is what connections would be offered, and the selected one is the first of them. */
  lemma {:induction false} StatusAgreesWithReady(cfg: Config, w: World, order: seq<Upstream>, now: int)
    requires Invariant(w)
    ensures var rows, ready := Rows(cfg, w.pool, order, now), Among(cfg, w.pool, order, now);
            && (Selects(rows) <==> ready != [])
            && (forall i :: 0 <= i < |rows| ==>
                  ((rows[i].Known? && rows[i].usable) <==> Usable(cfg, w.pool, order[i].key, now)))
            && (forall i :: 0 <= i < |rows| && rows[i].Known? && rows[i].selected ==> ready != [] && order[i] == ready[0])
    decreases |order|
  {
    hide Usable, ShownUsable;
    if order != [] {
      var n := |order| - 1;
      StatusAgreesWithReady(cfg, w, order[..n], now);
      var rows, earlier := Rows(cfg, w.pool, order, now), Rows(cfg, w.pool, order[..n], now);
      assert forall i :: 0 <= i < n ==> rows[i] == earlier[i] && order[i] == order[..n][i];
      SameCriterion(cfg, w, order[n].key, now);
      if Selects(earlier) {
        var i :| 0 <= i < |earlier| && earlier[i].Known? && earlier[i].selected;
        assert rows[i].selected;
      }
      if rows[n].Known? && rows[n].selected {
        assert Selects(rows);
      }
    }
  }

  lemma SameCriterion(cfg: Config, w: World, key: string, now: int)
    requires Invariant(w)
    ensures key in w.pool.state ==> (ShownUsable(cfg, w.pool.state[key], now) <==> Usable(cfg, w.pool, key, now))
    ensures key !in w.pool.state ==> !Usable(cfg, w.pool, key, now)
  {}

  /** The ready list keeps the candidates' order and holds exactly the usable ones. */
  lemma {:induction false} ReadyIsUsable(cfg: Config, p: PoolState, order: seq<Upstream>, now: int, u: Upstream)
    ensures u in Among(cfg, p, order, now) <==> u in order && Usable(cfg, p, u.key, now)
    decreases |order|
  {
    if order != [] {
      var n := |order| - 1;
      ReadyIsUsable(cfg, p, order[..n], now, u);
      assert order == order[..n] + [order[n]];
    }
  }

  /** In the candidates' order: what a longer list makes ready is what its parts make ready, one after the other. */
  lemma {:induction false} ReadyKeepsOrder(cfg: Config, p: PoolState, first: seq<Upstream>, second: seq<Upstream>, now: int)
    ensures Among(cfg, p, first + second, now) == Among(cfg, p, first, now) + Among(cfg, p, second, now)
    decreases |second|
  {
    if second == [] {
      assert first + second == first;
    } else {
      var n := |second| - 1;
      ReadyKeepsOrder(cfg, p, first, second[..n], now);
      assert (first + second)[..|first + second| - 1] == first + second[..n];
    }
  }

  // ---------------------------------------------------------------- the pool

  class Pool {
    const config: Config
    var order: seq<Upstream>
    var state: map<string, Status>

    function Value(): PoolState
      reads this
    {
      PoolState(order, state)
    }

    constructor (config: Config)
      ensures this.config == config && Value() == PoolState([], map[])
    {
      this.config := config;
      order := [];
      state := map[];
    }

    /** First critical section of a refresh: take the list and drop what is no longer on it. */
    method List(candidates: seq<Upstream>)
      modifies this
      ensures Value() == Listed(old(Value()), candidates)
    {
      order := candidates;
      var keys := state.Keys;
      while keys != {}
        invariant keys <= old(state.Keys) && order == candidates
        invariant forall key :: key in state <==>
                                key in old(state) && (key in keys || exists u :: u in candidates && u.key == key)
        invariant forall key :: key in state ==> state[key] == old(state)[key]
        decreases |keys|
      {
        var key :| key in keys;
        keys := keys - {key};
        if !(exists u :: u in candidates && u.key == key) {
          state := state - {key};
        }
      }
    }

    /** Second critical section, for each candidate: whether to probe it, and under which generation. */
    method Launch(u: Upstream, now: int) returns (probe: bool, generation: nat)
      modifies `state
      ensures Value() == Touched(old(Value()), u)
      ensures probe <==> MayProbe(old(Value()), u, now)
      ensures probe ==> generation == StatusOf(old(Value()), u.key).generation
    {
      if u.key !in state {
        state := state[u.key := UNKNOWN];
      }
      assert state[u.key := state[u.key]] == state;
      generation := state[u.key].generation;
      probe := now >= state[u.key].blocked;
    }

    /** Critical section at the end of a probe. */
    method Finish(key: string, generation: nat, ok: bool, now: int)
      modifies `state
      ensures Value() == Probed(old(Value()), key, generation, ok, now)
    {
      if key !in state {
        state := state[key := UNKNOWN];
      }
      assert state[key := state[key]] == state;
      if state[key].generation != generation {
        return;
      }
      state := state[key := state[key].(ok := ok, checked := now)];
    }

    method Fail(u: Upstream, now: int)
      modifies `state
      ensures Value() == FailedAt(config, old(Value()), u.key, now)
    {
      if u.key !in state {
        state := state[u.key := UNKNOWN];
      }
      var s := state[u.key];
      state := state[u.key := s.(ok := false, blocked := now + config.cooldown, generation := (s.generation + 1) % TWO_32)];
    }

    method Ready(now: int) returns (result: seq<Upstream>)
      ensures result == ReadyUpstreams(config, Value(), now)
    {
      result := [];
      for i := 0 to |order|
        invariant result == Among(config, Value(), order[..i], now)
      {
        assert order[..i + 1][..|order[..i + 1]| - 1] == order[..i];
        var key := order[i].key;
        if key in state && state[key].ok && now >= state[key].blocked &&
           now - state[key].checked < config.interval + config.probeTimeout + 5000 {
          result := result + [order[i]];
        }
      }
      assert order[..|order|] == order;
    }

    method ShowStatus(now: int) returns (rows: seq<Row>, selected: bool)
      ensures rows == Rows(config, Value(), order, now) && (selected <==> Selects(rows))
    {
      rows, selected := [], false;
      for i := 0 to |order|
        invariant rows == Rows(config, Value(), order[..i], now) && (selected <==> Selects(rows))
      {
        assert order[..i + 1][..|order[..i + 1]| - 1] == order[..i];
        var key := order[i].key;
        ghost var earlier := rows;
        if key !in state {
          rows := rows + [Checking];
        } else {
          var usable := ShownUsable(config, state[key], now);
          rows := rows + [Known(usable, now < state[key].blocked, usable && !selected)];
          if usable && !selected {
            selected := true;
          }
        }
        SelectsGrows(earlier, rows[|rows| - 1]);
      }
      assert order[..|order|] == order;
    }
  }

  lemma SelectsGrows(rows: seq<Row>, r: Row)
    ensures Selects(rows + [r]) <==> Selects(rows) || (r.Known? && r.selected)
  {
    if Selects(rows) {
      var i :| 0 <= i < |rows| && rows[i].Known? && rows[i].selected;
      assert (rows + [r])[i] == rows[i];
    }
    if r.Known? && r.selected {
      assert (rows + [r])[|rows|] == r;
    }
  }
}
