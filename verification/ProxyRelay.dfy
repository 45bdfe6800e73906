/**
 The proxy's relay: two sockets, one bounded buffer in each direction, back-pressure and half-close.

 A run is a list of rounds, each saying how poll and the socket calls answered; an answer larger than
 what was asked for is cut to it, and readiness that was not asked for is not reported.
 */
module ProxyRelay {
  const BUFFER_LIMIT: nat := 65536
  const CHUNK: nat := 16384

  /** What recv can do; no bytes at all means the peer has finished sending. */
  datatype Receive = Bytes(data: string) | NothingYet | ReceiveError

  /** What send can do; zero bytes taken is treated as an error. */
  datatype Send = Took(count: nat) | NotNow | SendError

  /** What poll reports for one socket, and how that socket then answers. */
  datatype Reported = Reported(broken: bool, writable: bool, readable: bool, hungUp: bool, send: Send, receive: Receive)

  datatype Poll = Stopping | Interrupted | PollError | Polled(sockets: seq<Reported>)

  type Round = r: Poll | r.Polled? ==> |r.sockets| == 2 witness Stopping

  /** One direction: what side i has sent us, what of it the other side took, and what waits in between. */
  datatype Flow = Flow(eof: bool, shut: bool, pending: string, received: string, delivered: string)

  datatype Ending = Open | Finished | Cut

  type Flows = f: seq<Flow> | |f| == 2 witness [Flow(false, false, "", "", ""), Flow(false, false, "", "", "")]

  datatype Session = Session(flows: Flows, ending: Ending)

  const FRESH := Session([Flow(false, false, "", "", ""), Flow(false, false, "", "", "")], Open)

  function Min(x: nat, y: nat): nat {
    if x < y then x else y
  }

  // ---------------------------------------------------------------- the specification

  predicate WantsInput(f: Flow) {
    !f.eof && |f.pending| < BUFFER_LIMIT
  }

  /** What poll is asked about a socket; one asked nothing is not polled at all. */
  datatype Asks = Asks(input: bool, room: bool)

  /** Socket i is watched for input of its own flow and for room for the other's. */
  function Asked(flows: Flows, i: nat): Asks
    requires i < 2
  {
    Asks(WantsInput(flows[i]), flows[1 - i].pending != "")
  }

  predicate Watched(flows: Flows, i: nat)
    requires i < 2
  {
    Asked(flows, i).input || Asked(flows, i).room
  }

  function HalfClosed(f: Flow): Flow {
    if f.eof && f.pending == "" && !f.shut then f.(shut := true) else f
  }

  function Drained(f: Flow, n: nat): Flow {
    var k := Min(n, |f.pending|);
    f.(pending := f.pending[k..], delivered := f.delivered + f.pending[..k])
  }

  function Filled(f: Flow, data: string): Flow {
    var k := Min(|data|, Min(CHUNK, if |f.pending| < BUFFER_LIMIT then BUFFER_LIMIT - |f.pending| else 0));
    f.(pending := f.pending + data[..k], received := f.received + data[..k])
  }

  /** Room on socket i takes from the flow of the other side. */
  function Written(s: Session, i: nat, r: Reported, asks: Asks): Session
    requires i < 2
  {
    if !(r.writable && asks.room) then s
    else match r.send
      case Took(count) =>
        if count > 0 then s.(flows := s.flows[1 - i := Drained(s.flows[1 - i], count)]) else s.(ending := Cut)
      case NotNow => s
      case SendError => s.(ending := Cut)
  }

  function ReadFrom(s: Session, i: nat, r: Reported, asks: Asks): Session
    requires i < 2
  {
    if !(((r.readable && asks.input) || r.hungUp) && WantsInput(s.flows[i])) then s
    else match r.receive
      case Bytes(data) =>
        if data != "" then s.(flows := s.flows[i := Filled(s.flows[i], data)])
        else s.(flows := s.flows[i := s.flows[i].(eof := true)])
      case NothingYet => s
      case ReceiveError => s.(ending := Cut)
  }

  /** Serving socket i, of which poll was asked what asks says. */
  function Served(s: Session, i: nat, r: Reported, asks: Asks): Session
    requires i < 2
  {
    if !(asks.input || asks.room) || s.ending != Open then s
    else if r.broken then s.(ending := Cut)
    else
      var written := Written(s, i, r, asks);
      if written.ending != Open then written else ReadFrom(written, i, r, asks)
  }

  function Prepared(s: Session): Session {
    s.(flows := [HalfClosed(s.flows[0]), HalfClosed(s.flows[1])])
  }

  function Stepped(s: Session, r: Round): Session {
    if s.ending != Open then s
    else if r.Stopping? then s.(ending := Cut)
    else
      var p := Prepared(s);
      if p.flows[0].shut && p.flows[1].shut then p.(ending := Finished)
      else match r
        case Interrupted => p
        case PollError => p.(ending := Cut)
        case Polled(sockets) =>
          var first := Served(p, 0, sockets[0], Asked(p.flows, 0));
          Served(first, 1, sockets[1], Asked(p.flows, 1))
  }

  function Run(rounds: seq<Round>): Session {
    if rounds == [] then FRESH else Stepped(Run(rounds[..|rounds| - 1]), rounds[|rounds| - 1])
  }

  // ---------------------------------------------------------------- one socket served

  /** Something waits for the side behind the socket that poll says has room. */
  predicate Writes(flows: Flows, i: nat, r: Reported)
    requires i < 2
  {
    flows[1 - i].pending != "" && r.writable
  }

  /** There is input or its end, and the buffer is not full. */
  predicate Reads(flows: Flows, i: nat, r: Reported)
    requires i < 2
  {
    !flows[i].eof && |flows[i].pending| < 65536 && (r.readable || r.hungUp)
  }

  /** The socket is polled, and fails, or a call on it does; taking no byte at all counts as failing. */
  predicate Breaks(flows: Flows, i: nat, r: Reported)
    requires i < 2
  {
    (flows[1 - i].pending != "" || (!flows[i].eof && |flows[i].pending| < 65536)) && (
      || r.broken
      || (Writes(flows, i, r) && (r.send.SendError? || r.send == Took(0)))
      || (Reads(flows, i, r) && r.receive.ReceiveError?))
  }

  /**
   Serving a socket cuts the relay exactly when the socket or a call on it fails. Otherwise exactly the bytes the
   socket takes leave the other side's buffer, and exactly those it gives, as far as the chunk and the buffer have
   room, enter its own; an empty read is the end of its input; and nothing else changes.
   */
  lemma ServesExactly(s: Session, i: nat, r: Reported)
    requires i < 2 && s.ending == Open
    ensures var t := Served(s, i, r, Asked(s.flows, i));
            var f, g := s.flows[i], s.flows[1 - i];
            && (t.ending != Open <==> Breaks(s.flows, i, r)) && t.ending != Finished
            && (t.ending == Open ==>
                  && t.flows[1 - i] == (if Writes(s.flows, i, r) && r.send.Took? then
                                          var k := Min(r.send.count, |g.pending|);
                                          g.(pending := g.pending[k..], delivered := g.delivered + g.pending[..k])
                                        else g)
                  && t.flows[i] == (if Reads(s.flows, i, r) && r.receive.Bytes? then
                                      var k := Min(|r.receive.data|, Min(16384, 65536 - |f.pending|));
                                      if k == 0 then f.(eof := true)
                                      else f.(pending := f.pending + r.receive.data[..k], received := f.received + r.receive.data[..k])
                                    else f))
  {}

  // ---------------------------------------------------------------- what every run keeps

  predicate FlowInvariant(f: Flow) {
    && f.received == f.delivered + f.pending
    && |f.pending| <= BUFFER_LIMIT
    && (f.shut ==> f.eof && f.pending == "")
  }

  predicate Invariant(s: Session) {
    && FlowInvariant(s.flows[0]) && FlowInvariant(s.flows[1])
    && (s.ending == Finished ==> s.flows[0].shut && s.flows[1].shut)
  }

  lemma DrainKeeps(f: Flow, n: nat)
    requires FlowInvariant(f)
    ensures FlowInvariant(Drained(f, n))
  {
    var k := Min(n, |f.pending|);
    assert f.pending == f.pending[..k] + f.pending[k..];
  }

  lemma FillKeeps(f: Flow, data: string)
    requires FlowInvariant(f) && WantsInput(f)
    ensures FlowInvariant(Filled(f, data))
  {}

  lemma ServeKeeps(s: Session, i: nat, r: Reported, asks: Asks)
    requires i < 2 && Invariant(s) && s.ending != Finished
    ensures Invariant(Served(s, i, r, asks)) && Served(s, i, r, asks).ending != Finished
  {
    hide Drained, Filled;
    if r.send.Took? {
      DrainKeeps(s.flows[1 - i], r.send.count);
    }
    var written := Written(s, i, r, asks);
    if r.receive.Bytes? && WantsInput(written.flows[i]) {
      FillKeeps(written.flows[i], r.receive.data);
    }
  }

  lemma StepKeeps(s: Session, r: Round)
    requires Invariant(s)
    ensures Invariant(Stepped(s, r))
  {
    hide Served, Asked;
    if s.ending == Open && r.Polled? {
      var p := Prepared(s);
      if !(p.flows[0].shut && p.flows[1].shut) {
        ServeKeeps(p, 0, r.sockets[0], Asked(p.flows, 0));
        var first := Served(p, 0, r.sockets[0], Asked(p.flows, 0));
        ServeKeeps(first, 1, r.sockets[1], Asked(p.flows, 1));
      }
    }
  }

  /**
   In each direction everything received is what was delivered followed by the buffer, the buffer is
   bounded, and the far side is closed only after the sender finished and the buffer emptied.
   */
  lemma {:induction false} NothingIsLost(rounds: seq<Round>)
    ensures Invariant(Run(rounds))
    decreases |rounds|
  {
    hide Invariant, Stepped;
    if rounds == [] {
      FreshKeeps();
    } else {
      NothingIsLost(rounds[..|rounds| - 1]);
      StepKeeps(Run(rounds[..|rounds| - 1]), rounds[|rounds| - 1]);
    }
  }

  lemma FreshKeeps()
    ensures Invariant(FRESH)
  {}

  /** A relay that finishes by itself has delivered everything, both ways. */
  lemma FinishedMeansDelivered(rounds: seq<Round>)
    requires Run(rounds).ending == Finished
    ensures var flows := Run(rounds).flows;
            forall i :: 0 <= i < 2 ==> flows[i].eof && flows[i].delivered == flows[i].received
  {
    hide Run;
    NothingIsLost(rounds);
  }

  /** Until both sides are shut, poll is always asked to watch something: the relay cannot starve itself. */
  lemma AlwaysWatching(rounds: seq<Round>)
    requires var p := Prepared(Run(rounds)); !(p.flows[0].shut && p.flows[1].shut)
    ensures var p := Prepared(Run(rounds)); Watched(p.flows, 0) || Watched(p.flows, 1)
  {
    hide Run;
    NothingIsLost(rounds);
  }

  /** Bytes moved, plus one for each end of stream seen. */
  function Moved(s: Session): nat {
    |s.flows[0].received| + |s.flows[0].delivered| + |s.flows[1].received| + |s.flows[1].delivered| +
    (if s.flows[0].eof then 1 else 0) + (if s.flows[1].eof then 1 else 0)
  }

  predicate SendsNow(s: Session, i: nat, r: Reported)
    requires i < 2
  {
    !r.broken && r.writable && s.flows[1 - i].pending != "" && r.send.Took? && r.send.count > 0
  }

  predicate ReadsNow(s: Session, i: nat, r: Reported)
    requires i < 2
  {
    !r.broken && r.readable && WantsInput(s.flows[i]) && r.receive.Bytes?
  }

  /** Socket i was asked about and answered with something to do. */
  predicate Active(p: Session, i: nat, r: Reported)
    requires i < 2
  {
    SendsNow(p, i, r) || ReadsNow(p, i, r)
  }

  lemma ServeMoves(s: Session, i: nat, r: Reported, asks: Asks)
    requires i < 2
    ensures Moved(Served(s, i, r, asks)) >= Moved(s)
    ensures WantsInput(s.flows[i]) && i == 0 ==> WantsInput(Written(s, i, r, asks).flows[i])
    ensures (s.ending == Open && asks.room && SendsNow(s, i, r)) ==> Moved(Served(s, i, r, asks)) > Moved(s)
    ensures (s.ending == Open && asks.input && ReadsNow(s, i, r)) ==>
              Moved(Served(s, i, r, asks)) > Moved(s) || Served(s, i, r, asks).ending == Cut
  {}

  lemma ServeLeavesTheOther(s: Session, r: Reported, asks: Asks)
    ensures var t := Served(s, 0, r, asks);
            && (s.flows[0].pending != "" ==> t.flows[0].pending != "")
            && (WantsInput(s.flows[1]) ==> WantsInput(t.flows[1]))
  {}

  /** A round in which some watched socket answers moves something, or the relay is cut. */
  lemma AnsweredRoundsProgress(rounds: seq<Round>, r: Round)
    requires Run(rounds).ending == Open && r.Polled?
    requires var p := Prepared(Run(rounds));
             !(p.flows[0].shut && p.flows[1].shut) && (Active(p, 0, r.sockets[0]) || Active(p, 1, r.sockets[1]))
    ensures var t := Stepped(Run(rounds), r); t.ending == Cut || Moved(t) > Moved(Run(rounds))
  {
    hide Run, Served, Moved;
    var s := Run(rounds);
    var p := Prepared(s);
    PreparedMovesNothing(s);
    var a0, a1 := Asked(p.flows, 0), Asked(p.flows, 1);
    ServeMoves(p, 0, r.sockets[0], a0);
    ServeLeavesTheOther(p, r.sockets[0], a0);
    var first := Served(p, 0, r.sockets[0], a0);
    ServeMoves(first, 1, r.sockets[1], a1);
    ServeEnds(p, 0, r.sockets[0], a0);
    ServeEnds(first, 1, r.sockets[1], a1);
  }

  lemma PreparedMovesNothing(s: Session)
    ensures Moved(Prepared(s)) == Moved(s) && Prepared(s).ending == s.ending
  {}

  lemma ServeEnds(s: Session, i: nat, r: Reported, asks: Asks)
    requires i < 2
    ensures s.ending != Open ==> Served(s, i, r, asks) == s
    ensures s.ending == Open ==> Served(s, i, r, asks).ending != Finished
  {}

  lemma ServeLeavesShut(s: Session, i: nat, j: nat, r: Reported, asks: Asks)
    requires i < 2 && j < 2 && s.flows[j].eof && s.flows[j].pending == ""
    ensures Served(s, i, r, asks).flows[j] == s.flows[j]
  {
    assert forall n: nat :: Drained(s.flows[j], n) == s.flows[j];
  }

  /** Once a flow's far side is shut nothing about that flow ever changes. */
  lemma ShutFlowIsFrozen(rounds: seq<Round>, r: Round, j: nat)
    requires j < 2 && Run(rounds).flows[j].shut
    ensures Stepped(Run(rounds), r).flows[j] == Run(rounds).flows[j]
  {
    hide Run, Served;
    NothingIsLost(rounds);
    var s := Run(rounds);
    var p := Prepared(s);
    if s.ending == Open && r.Polled? && !(p.flows[0].shut && p.flows[1].shut) {
      ServeLeavesShut(p, 0, j, r.sockets[0], Asked(p.flows, 0));
      var first := Served(p, 0, r.sockets[0], Asked(p.flows, 0));
      ServeLeavesShut(first, 1, j, r.sockets[1], Asked(p.flows, 1));
    }
  }

  // ---------------------------------------------------------------- the loop

  lemma EndedStays(s: Session, r: Round)
    requires s.ending != Open
    ensures Stepped(s, r) == s
  {}

  lemma {:induction false} RunAfterEnd(rounds: seq<Round>, n: nat)
    requires n <= |rounds| && Run(rounds[..n]).ending != Open
    ensures Run(rounds) == Run(rounds[..n])
    decreases |rounds|
  {
    hide Stepped;
    if n == |rounds| {
      assert rounds[..n] == rounds;
    } else {
      assert rounds[..|rounds| - 1][..n] == rounds[..n];
      RunAfterEnd(rounds[..|rounds| - 1], n);
      EndedStays(Run(rounds[..n]), rounds[|rounds| - 1]);
    }
  }

  /** The relay's variables; the two ghost fields record what went through. */
  class Relay {
    var eof: array<bool>
    var shut: array<bool>
    var pending: array<string>
    ghost var received: seq<string>
    ghost var delivered: seq<string>

    ghost predicate Valid()
      reads this
    {
      eof.Length == shut.Length == pending.Length == 2 && |received| == |delivered| == 2 && eof != shut
    }

    ghost function FlowOf(i: nat): Flow
      requires Valid() && i < 2
      reads this, eof, shut, pending
    {
      Flow(eof[i], shut[i], pending[i], received[i], delivered[i])
    }

    ghost function Value(ending: Ending): Session
      requires Valid()
      reads this, eof, shut, pending
    {
      Session([FlowOf(0), FlowOf(1)], ending)
    }

    constructor ()
      ensures Valid() && fresh(eof) && fresh(shut) && fresh(pending) && Value(Open) == FRESH
    {
      eof := new bool[2](_ => false);
      shut := new bool[2](_ => false);
      pending := new string[2](_ => "");
      received := ["", ""];
      delivered := ["", ""];
    }

    /** Sends to socket i out of the other side's buffer. */
    method Write(i: nat, answer: Send) returns (ending: Ending)
      requires Valid() && i < 2
      modifies this`delivered, pending
      ensures Valid()
      ensures Value(ending) == Written(old(Value(Open)), i, Reported(false, true, false, false, answer, NothingYet), Asks(false, true))
    {
      ending := Open;
      match answer
      case Took(count) =>
        if count > 0 {
          var buffer := pending[1 - i];
          var n := if count < |buffer| then count else |buffer|;
          delivered := delivered[1 - i := delivered[1 - i] + buffer[..n]];
          pending[1 - i] := buffer[n..];
        } else {
          ending := Cut;
        }
      case NotNow =>
      case SendError =>
        ending := Cut;
    }

    /** Receives from socket i into its own buffer. */
    method Read(i: nat, answer: Receive) returns (ending: Ending)
      requires Valid() && i < 2 && WantsInput(FlowOf(i))
      modifies this`received, eof, pending
      ensures Valid()
      ensures Value(ending) == ReadFrom(old(Value(Open)), i, Reported(false, false, true, false, NotNow, answer), Asks(true, false))
    {
      ending := Open;
      match answer
      case Bytes(data) =>
        if data != "" {
          var n := Min(|data|, Min(CHUNK, BUFFER_LIMIT - |pending[i]|));
          received := received[i := received[i] + data[..n]];
          pending[i] := pending[i] + data[..n];
        } else {
          eof[i] := true;
        }
      case NothingYet =>
      case ReceiveError =>
        ending := Cut;
    }

    method Serve(i: nat, r: Reported, asks: Asks) returns (ending: Ending)
      requires Valid() && i < 2
      modifies this`received, this`delivered, eof, pending
      ensures Valid()
      ensures Value(ending) == Served(old(Value(Open)), i, r, asks)
    {
      hide Drained, Filled;
      ending := Open;
      if !asks.input && !asks.room {
        return;
      }
      if r.broken {
        return Cut;
      }
      if r.writable && asks.room {
        ending := Write(i, r.send);
        if ending != Open {
          return;
        }
      }
      if ((r.readable && asks.input) || r.hungUp) && !eof[i] && |pending[i]| < BUFFER_LIMIT {
        ending := Read(i, r.receive);
      }
    }

    method HalfClose()
      requires Valid()
      modifies shut
      ensures Valid() && Value(Open) == Prepared(old(Value(Open)))
    {
      for i := 0 to 2
        invariant Valid()
        invariant forall j :: i <= j < 2 ==> shut[j] == old(shut[j])
        invariant forall j :: 0 <= j < i ==> shut[j] == HalfClosed(old(FlowOf(j))).shut
        invariant eof[..] == old(eof[..])
      {
        if eof[i] && pending[i] == "" && !shut[i] {
          shut[i] := true;
        }
      }
      assert forall j :: 0 <= j < 2 ==> FlowOf(j) == HalfClosed(old(FlowOf(j)));
    }

    /** One turn of the loop. */
    method Turn(r: Round) returns (ending: Ending)
      requires Valid()
      modifies this`received, this`delivered, eof, shut, pending
      ensures Valid()
      ensures Value(ending) == Stepped(old(Value(Open)), r)
    {
      hide Served, HalfClosed;
      if r.Stopping? {
        return Cut;
      }
      HalfClose();
      ghost var p := Value(Open);
      if shut[0] && shut[1] {
        return Finished;
      }
      var left := Asks(!eof[0] && |pending[0]| < BUFFER_LIMIT, pending[1] != "");
      var right := Asks(!eof[1] && |pending[1]| < BUFFER_LIMIT, pending[0] != "");
      assert left == Asked(p.flows, 0) && right == Asked(p.flows, 1);
      match r
      case Interrupted =>
        return Open;
      case PollError =>
        return Cut;
      case Polled(sockets) =>
        ending := Serve(0, sockets[0], left);
        if ending != Open {
          ServeEnds(Value(ending), 1, sockets[1], right);
          return;
        }
        ending := Serve(1, sockets[1], right);
    }
  }

  /** Relays until both sides are shut, an error cuts it, or the answers run out. */
  method RelayAll(rounds: seq<Round>) returns (relay: Relay, ending: Ending)
    ensures relay.Valid() && relay.Value(ending) == Run(rounds)
  {
    hide Stepped;
    relay := new Relay();
    ending := Open;
    var n := 0;
    while n < |rounds|
      invariant n <= |rounds| && relay.Valid() && fresh(relay) && fresh(relay.eof) && fresh(relay.shut) && fresh(relay.pending)
      invariant ending == Open && relay.Value(Open) == Run(rounds[..n])
    {
      assert rounds[..n + 1][..|rounds[..n + 1]| - 1] == rounds[..n];
      ending := relay.Turn(rounds[n]);
      if ending != Open {
        RunAfterEnd(rounds, n + 1);
        return;
      }
      n := n + 1;
    }
    assert rounds[..n] == rounds;
  }
}
