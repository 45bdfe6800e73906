/**
 One client connection of the proxy: read the request head, then try the ready upstreams in order
 until one takes the request, never repeating bytes that belong to the business exchange.

 CONNECT is the method of section 9.3.6 of RFC 9110: after a successful answer the connection is a tunnel.
 The answers of the socket calls are lists; running out of answers is running into the deadline.
 */
module ProxyFailover {
  import opened ProxyRelay
  import ProxyPool

  const HEAD_LIMIT: nat := 65536
  const HEAD_CHUNK: nat := 8192
  const LINE_END := "\r\n"
  const HEAD_END := "\r\n\r\n"

  // ---------------------------------------------------------------- text

  predicate OccursAt(s: string, pattern: string, at: int) {
    0 <= at && at + |pattern| <= |s| && s[at..at + |pattern|] == pattern
  }

  /** The first place at or after i where the pattern occurs, or -1. */
  function Find(s: string, pattern: string, i: nat := 0): (at: int)
    requires pattern != ""
    ensures at == -1 || (i <= at && OccursAt(s, pattern, at))
    ensures forall j :: i <= j && (at == -1 || j < at) ==> !OccursAt(s, pattern, j)
    decreases |s| - i
  {
    if i + |pattern| > |s| then -1
    else if OccursAt(s, pattern, i) then i
    else Find(s, pattern, i + 1)
  }

  predicate IsSpace(c: char) {
    c == ' ' || c == '\t' || c == '\n' || c == '\r' || c == '\U{0B}' || c == '\U{0C}'
  }

  function SkipSpaces(s: string): string {
    if s != "" && IsSpace(s[0]) then SkipSpaces(s[1..]) else s
  }

  function WordLength(s: string): (n: nat)
    ensures n <= |s|
  {
    if s == "" || IsSpace(s[0]) then 0 else 1 + WordLength(s[1..])
  }

  /** The next word and what follows it. */
  function Word(s: string): (string, string) {
    var t := SkipSpaces(s);
    (t[..WordLength(t)], t[WordLength(t)..])
  }

  function Digits(s: string, value: nat): nat {
    if s != "" && '0' <= s[0] <= '9' then Digits(s[1..], value * 10 + (s[0] as int - '0' as int)) else value
  }

  /** A leading decimal number, zero when there is none. */
  function Number(s: string): int {
    var t := SkipSpaces(s);
    var size: int := Digits(if t != "" && (t[0] == '-' || t[0] == '+') then t[1..] else t, 0);
    if t != "" && t[0] == '-' then -size else size
  }

  predicate StartsWith(s: string, prefix: string) {
    prefix <= s
  }

  // ---------------------------------------------------------------- what a request is

  datatype Kind = StatusPage | BadRequest | Tunnel | Plain

  function Classify(data: string): Kind {
    var lineEnd := Find(data, LINE_END);
    var line := if lineEnd == -1 then data else data[..lineEnd];
    var (verb, afterVerb) := Word(line);
    var (target, afterTarget) := Word(afterVerb);
    var (version, _) := Word(afterTarget);
    if verb == "GET" && target == "/__jetson_proxy_status" then StatusPage
    else if !StartsWith(version, "HTTP/1.") || (verb != "CONNECT" && !StartsWith(target, "http://")) then BadRequest
    else if verb == "CONNECT" then Tunnel
    else Plain
  }

  /** The code of a CONNECT answer, and whether the tunnel is open. */
  function Answered(response: string): (int, bool) {
    var (protocol, rest) := Word(response);
    var code := Number(rest);
    (code, StartsWith(protocol, "HTTP/1.") && code == 200)
  }

  // ---------------------------------------------------------------- whole-message input and output

  datatype Sending = Sending(ok: bool, sent: string)

  function SentAll(data: string, answers: seq<Send>): (r: Sending)
    ensures r.sent <= data && (r.ok <==> r.sent == data)
    decreases |answers|
  {
    if data == "" then Sending(true, "")
    else if answers == [] then Sending(false, "")
    else match answers[0]
      case Took(count) =>
        if count == 0 then Sending(false, "")
        else
          var k := Min(count, |data|);
          var rest := SentAll(data[k..], answers[1..]);
          assert data == data[..k] + data[k..];
          Sending(rest.ok, data[..k] + rest.sent)
      case NotNow => SentAll(data, answers[1..])
      case SendError => Sending(false, "")
  }

  /** A send that took k bytes leaves the rest of the data and of the answers. */
  lemma TookSome(data: string, offset: nat, k: nat, answers: seq<Send>)
    requires offset + k <= |data| && answers != [] && answers[0].Took? && 0 < answers[0].count
    requires k == Min(answers[0].count, |data| - offset) && offset < |data|
    ensures var rest := SentAll(data[offset + k..], answers[1..]);
            var all := SentAll(data[offset..], answers);
            all.ok == rest.ok && data[..offset] + all.sent == data[..offset + k] + rest.sent
  {
    assert data[offset..][k..] == data[offset + k..];
    assert data[..offset + k] == data[..offset] + data[offset..][..k];
  }

  method SendAll(data: string, answers: seq<Send>) returns (ok: bool, sent: string)
    ensures Sending(ok, sent) == SentAll(data, answers)
  {
    var offset, n := 0, 0;
    assert data[0..] == data && answers[0..] == answers;
    while offset < |data|
      invariant 0 <= offset <= |data| && n <= |answers|
      invariant SentAll(data, answers).ok == SentAll(data[offset..], answers[n..]).ok
      invariant SentAll(data, answers).sent == data[..offset] + SentAll(data[offset..], answers[n..]).sent
      decreases |answers| - n
    {
      if n == |answers| {
        return false, data[..offset];
      }
      assert answers[n..][1..] == answers[n + 1..];
      match answers[n] {
        case Took(count) =>
          if count == 0 {
            return false, data[..offset];
          }
          var k := Min(count, |data| - offset);
          TookSome(data, offset, k, answers[n..]);
          offset := offset + k;
        case NotNow =>
        case SendError =>
          return false, data[..offset];
      }
      n := n + 1;
    }
    assert data[..offset] == data;
    return true, data;
  }

  datatype Reading = Reading(ok: bool, data: string)

  predicate HasHead(data: string) {
    Find(data, HEAD_END) != -1
  }

  /** Reads until the head is complete; answers are received bytes, cut to the room left. */
  function ReadHead(data: string, answers: seq<Receive>): (r: Reading)
    ensures data <= r.data
    ensures r.ok ==> HasHead(r.data)
    ensures |data| <= HEAD_LIMIT ==> |r.data| <= HEAD_LIMIT
    decreases |answers|
  {
    if HasHead(data) then Reading(true, data)
    else if |data| >= HEAD_LIMIT || answers == [] then Reading(false, data)
    else match answers[0]
      case Bytes(bytes) =>
        if bytes == "" then Reading(false, data)
        else ReadHead(data + bytes[..Min(|bytes|, Min(HEAD_CHUNK, HEAD_LIMIT - |data|))], answers[1..])
      case NothingYet => ReadHead(data, answers[1..])
      case ReceiveError => Reading(false, data)
  }

  method ReadHeaders(answers: seq<Receive>) returns (ok: bool, data: string)
    ensures Reading(ok, data) == ReadHead("", answers)
  {
    hide HasHead;
    data := "";
    var n := 0;
    assert answers[0..] == answers;
    while !HasHead(data)
      invariant n <= |answers| && |data| <= HEAD_LIMIT
      invariant ReadHead("", answers) == ReadHead(data, answers[n..])
      decreases |answers| - n
    {
      if |data| >= HEAD_LIMIT || n == |answers| {
        return false, data;
      }
      assert answers[n..][1..] == answers[n + 1..];
      match answers[n] {
        case Bytes(bytes) =>
          if bytes == "" {
            return false, data;
          }
          data := data + bytes[..Min(|bytes|, Min(HEAD_CHUNK, HEAD_LIMIT - |data|))];
        case NothingYet =>
        case ReceiveError =>
          return false, data;
      }
      n := n + 1;
    }
    ok := true;
  }

  // ---------------------------------------------------------------- one upstream

  /** How one upstream, and the client while it is being served by it, behave. */
  datatype Peer = Peer(connects: bool, sends: seq<Send>, receives: seq<Receive>, clientSends: seq<Send>,
                       restSends: seq<Send>, rounds: seq<Round>)

  datatype Verdict = TryNext(failed: bool) | Served

  /** What one attempt sent each way before relaying, and the relay if it got that far. */
  datatype Attempt = Attempt(verdict: Verdict, sent: string, toClient: string, relayed: bool, session: Session)

  /** Everything the upstream got from this attempt. */
  function UpstreamGot(a: Attempt): string {
    a.sent + if a.relayed then a.session.flows[0].delivered else ""
  }

  /** Everything the client got from this attempt. */
  function ClientGot(a: Attempt): string {
    a.toClient + if a.relayed then a.session.flows[1].delivered else ""
  }

  function HeadLength(data: string): (end: nat)
    requires HasHead(data)
    ensures end <= |data|
  {
    Find(data, HEAD_END) + |HEAD_END|
  }

  function Tried(tunnel: bool, data: string, peer: Peer): Attempt
    requires HasHead(data)
  {
    if !peer.connects then Attempt(TryNext(true), "", "", false, FRESH)
    else if !tunnel then
      var s := SentAll(data, peer.sends);
      if s.ok then Attempt(Served, s.sent, "", true, Run(peer.rounds)) else Attempt(Served, s.sent, "", false, FRESH)
    else
      var end := HeadLength(data);
      var head := SentAll(data[..end], peer.sends);
      if !head.ok then Attempt(TryNext(true), head.sent, "", false, FRESH)
      else
        var response := ReadHead("", peer.receives);
        if !response.ok then Attempt(TryNext(true), head.sent, "", false, FRESH)
        else
          var (code, tunnelOpen) := Answered(response.data);
          if !tunnelOpen then Attempt(TryNext(code == 407 || code >= 500 || code == 0), head.sent, "", false, FRESH)
          else
            var passed := SentAll(response.data, peer.clientSends);
            if !passed.ok then Attempt(Served, head.sent, passed.sent, false, FRESH)
            else
              var rest := SentAll(data[end..], peer.restSends);
              if !rest.ok then Attempt(Served, head.sent + rest.sent, passed.sent, false, FRESH)
              else Attempt(Served, head.sent + rest.sent, passed.sent, true, Run(peer.rounds))
  }

  // ---------------------------------------------------------------- all upstreams in order

  /** The attempts made, one an upstream from the first on. */
  function Attempts(tunnel: bool, data: string, peers: seq<Peer>): (attempts: seq<Attempt>)
    requires HasHead(data)
    ensures |attempts| <= |peers|
  {
    if peers == [] then []
    else
      var a := Tried(tunnel, data, peers[0]);
      if a.verdict == Served then [a] else [a] + Attempts(tunnel, data, peers[1..])
  }

  datatype Reply = Reply(code: int) | NoReply

  /** The client's head, the attempts, and the proxy's own reply. */
  datatype Outcome = Outcome(data: string, attempts: seq<Attempt>, reply: Reply)

  predicate Delivered(attempts: seq<Attempt>) {
    attempts != [] && attempts[|attempts| - 1].verdict == Served
  }

  function Handled(request: seq<Receive>, peers: seq<Peer>): Outcome {
    var head := ReadHead("", request);
    if !head.ok then Outcome(head.data, [], Reply(400))
    else match Classify(head.data)
      case StatusPage => Outcome(head.data, [], Reply(200))
      case BadRequest => Outcome(head.data, [], Reply(400))
      case Tunnel =>
        if peers == [] then Outcome(head.data, [], Reply(503)) else Finished(head.data, Attempts(true, head.data, peers))
      case Plain =>
        if peers == [] then Outcome(head.data, [], Reply(503)) else Finished(head.data, Attempts(false, head.data, peers))
  }

  function Finished(data: string, attempts: seq<Attempt>): Outcome {
    Outcome(data, attempts, if Delivered(attempts) then NoReply else Reply(502))
  }

  // ---------------------------------------------------------------- no business byte is repeated

  /** The upstream saw at most a CONNECT head, or nothing at all of a plain request. */
  predicate OnlyHandshake(tunnel: bool, data: string, a: Attempt)
    requires HasHead(data)
  {
    !a.relayed && a.sent <= (if tunnel then data[..HeadLength(data)] else "") && a.toClient == ""
  }

  lemma PassedOverIsHandshake(tunnel: bool, data: string, peer: Peer)
    requires HasHead(data)
    ensures Tried(tunnel, data, peer).verdict != Served ==> OnlyHandshake(tunnel, data, Tried(tunnel, data, peer))
  {
    hide HasHead, HeadLength, SentAll, ReadHead, Answered;
  }

  /** Every attempt but one that took the request saw only the handshake. */
  predicate OnlyServedSeesMore(tunnel: bool, data: string, attempts: seq<Attempt>)
    requires HasHead(data)
  {
    forall k :: 0 <= k < |attempts| && (k < |attempts| - 1 || !Delivered(attempts)) ==> OnlyHandshake(tunnel, data, attempts[k])
  }

  /** Of all upstreams tried, only the last can have seen business bytes or answered the client. */
  lemma {:induction false} BusinessGoesToOneUpstream(tunnel: bool, data: string, peers: seq<Peer>)
    requires HasHead(data)
    ensures OnlyServedSeesMore(tunnel, data, Attempts(tunnel, data, peers))
    decreases |peers|
  {
    hide HasHead, Tried, OnlyHandshake;
    if peers != [] {
      var a := Tried(tunnel, data, peers[0]);
      PassedOverIsHandshake(tunnel, data, peers[0]);
      if a.verdict != Served {
        BusinessGoesToOneUpstream(tunnel, data, peers[1..]);
        PassingOverKeeps(tunnel, data, a, Attempts(tunnel, data, peers[1..]));
      }
    }
  }

  lemma PassingOverKeeps(tunnel: bool, data: string, a: Attempt, later: seq<Attempt>)
    requires HasHead(data) && a.verdict != Served
    requires OnlyHandshake(tunnel, data, a) && OnlyServedSeesMore(tunnel, data, later)
    ensures OnlyServedSeesMore(tunnel, data, [a] + later)
  {
    hide HasHead, OnlyHandshake;
    var all := [a] + later;
    forall k | 0 <= k < |all| && (k < |all| - 1 || !Delivered(all))
      ensures OnlyHandshake(tunnel, data, all[k])
    {
      if k > 0 {
        assert all[k] == later[k - 1];
      }
    }
  }

  lemma RelayedPrefix(rounds: seq<Round>, i: nat)
    requires i < 2
    ensures Run(rounds).flows[i].delivered <= Run(rounds).flows[i].received
    ensures Run(rounds).ending == Ending.Finished ==> Run(rounds).flows[i].delivered == Run(rounds).flows[i].received
  {
    hide Run;
    NothingIsLost(rounds);
  }

  /**
   What an upstream gets is, in order and without gaps, the request bytes already read followed by
   what the client sent during the relay; a relay that ended by itself delivered all of it.
   */
  lemma UpstreamGetsTheStream(tunnel: bool, data: string, peer: Peer)
    requires HasHead(data)
    ensures var a := Tried(tunnel, data, peer);
            && UpstreamGot(a) <= data + a.session.flows[0].received
            && (a.relayed ==> data <= UpstreamGot(a))
            && (a.relayed && a.session.ending == Ending.Finished ==> UpstreamGot(a) == data + a.session.flows[0].received)
  {
    hide HasHead, SentAll, ReadHead, Answered, Run;
    RelayedPrefix(peer.rounds, 0);
    assert data == data[..HeadLength(data)] + data[HeadLength(data)..];
  }

  /** The client likewise gets the tunnel's answer and then what the upstream sends, without gaps. */
  lemma ClientGetsTheStream(tunnel: bool, data: string, peer: Peer)
    requires HasHead(data)
    ensures var a := Tried(tunnel, data, peer);
            var answer := if tunnel then ReadHead("", peer.receives).data else "";
            && ClientGot(a) <= answer + a.session.flows[1].received
            && (a.relayed ==> answer <= ClientGot(a))
            && (a.relayed && a.session.ending == Ending.Finished ==> ClientGot(a) == answer + a.session.flows[1].received)
  {
    hide HasHead, SentAll, ReadHead, Answered, Run;
    RelayedPrefix(peer.rounds, 1);
  }

  lemma {:induction false} AttemptsAreTries(tunnel: bool, data: string, peers: seq<Peer>, k: nat)
    requires HasHead(data) && k < |Attempts(tunnel, data, peers)|
    ensures k < |peers| && Attempts(tunnel, data, peers)[k] == Tried(tunnel, data, peers[k])
    decreases k
  {
    hide HasHead, Tried;
    if k > 0 {
      AttemptsAreTries(tunnel, data, peers[1..], k - 1);
    }
  }

  /**
   For every client and every behaviour of the upstreams: only the last upstream tried can have seen
   anything but the CONNECT head, each got a gapless piece from the start of the client's stream, and
   the proxy answers for itself exactly when no upstream took the request.
   */
  lemma EveryConnectionIsSafe(request: seq<Receive>, peers: seq<Peer>, k: nat)
    requires k < |Handled(request, peers).attempts|
    ensures var o := Handled(request, peers);
            && HasHead(o.data) && |o.data| <= HEAD_LIMIT
            && (Classify(o.data) == Tunnel || Classify(o.data) == Plain)
            && (k < |o.attempts| - 1 || o.reply != NoReply ==> OnlyHandshake(Classify(o.data) == Tunnel, o.data, o.attempts[k]))
            && UpstreamGot(o.attempts[k]) <= o.data + o.attempts[k].session.flows[0].received
            && (o.reply == NoReply <==> Delivered(o.attempts))
  {
    hide HasHead, Tried, OnlyHandshake, Classify, ReadHead;
    var data := ReadHead("", request).data;
    var tunnel := Classify(data) == Tunnel;
    assert Handled(request, peers).attempts == Attempts(tunnel, data, peers);
    BusinessGoesToOneUpstream(tunnel, data, peers);
    AttemptsAreTries(tunnel, data, peers, k);
    UpstreamGetsTheStream(tunnel, data, peers[k]);
  }

  // ---------------------------------------------------------------- what text means

  predicate IsWord(s: string) {
    s != "" && forall i :: 0 <= i < |s| ==> !IsSpace(s[i])
  }

  predicate IsNumeral(s: string) {
    s != "" && forall i :: 0 <= i < |s| ==> '0' <= s[i] <= '9'
  }

  /** The value of a numeral, its last digit counting one. */
  function Value(s: string): nat
    requires forall i :: 0 <= i < |s| ==> '0' <= s[i] <= '9'
  {
    if s == "" then 0 else Value(s[..|s| - 1]) * 10 + (s[|s| - 1] as int - '0' as int)
  }

  lemma {:induction false} WordEnds(word: string, rest: string)
    requires forall i :: 0 <= i < |word| ==> !IsSpace(word[i])
    requires rest == "" || IsSpace(rest[0])
    ensures WordLength(word + rest) == |word|
  {
    if word == "" {
      assert word + rest == rest;
    } else {
      assert (word + rest)[1..] == word[1..] + rest;
      WordEnds(word[1..], rest);
    }
  }

  /** A word in front of a blank, or of nothing, is read as it stands. */
  lemma WordIsRead(word: string, rest: string)
    requires IsWord(word) && (rest == "" || IsSpace(rest[0]))
    ensures Word(word + rest) == (word, rest)
  {
    WordEnds(word, rest);
    assert SkipSpaces(word + rest) == word + rest;
    assert (word + rest)[..|word|] == word && (word + rest)[|word|..] == rest;
  }

  lemma BlankIsSkipped(s: string)
    ensures SkipSpaces(" " + s) == SkipSpaces(s) && Word(" " + s) == Word(s)
  {
    assert (" " + s)[1..] == s;
  }

  lemma {:induction false} DigitsAreRead(done: string, s: string, rest: string)
    requires forall i :: 0 <= i < |done| ==> '0' <= done[i] <= '9'
    requires forall i :: 0 <= i < |s| ==> '0' <= s[i] <= '9'
    requires rest == "" || !('0' <= rest[0] <= '9')
    ensures forall i :: 0 <= i < |done + s| ==> '0' <= (done + s)[i] <= '9'
    ensures Digits(s + rest, Value(done)) == Value(done + s)
    decreases |s|
  {
    if s == "" {
      assert s + rest == rest && done + s == done;
    } else {
      var more := done + [s[0]];
      assert more[..|more| - 1] == done;
      assert (s + rest)[1..] == s[1..] + rest && more + s[1..] == done + s;
      DigitsAreRead(more, s[1..], rest);
    }
  }

  lemma NumberIsRead(code: string, rest: string)
    requires IsNumeral(code) && (rest == "" || !('0' <= rest[0] <= '9'))
    ensures Number(" " + (code + rest)) == Value(code)
  {
    hide Digits;
    BlankIsSkipped(code + rest);
    assert !IsSpace((code + rest)[0]) && SkipSpaces(code + rest) == code + rest;
    DigitsAreRead("", code, rest);
    assert "" + code == code;
  }

  /** A status line gives its code, and opens the tunnel exactly when it is an HTTP/1 line with code 200. */
  lemma StatusLineMeans(protocol: string, code: string, rest: string)
    requires IsWord(protocol) && IsNumeral(code) && (rest == "" || !('0' <= rest[0] <= '9'))
    ensures Answered(protocol + " " + code + rest) == (Value(code), "HTTP/1." <= protocol && Value(code) == 200)
  {
    hide Word, Number, IsWord, Value;
    assert protocol + " " + code + rest == protocol + (" " + (code + rest));
    WordIsRead(protocol, " " + (code + rest));
    NumberIsRead(code, rest);
  }

  lemma FindsFirst(line: string, rest: string)
    requires forall i :: 0 <= i < |line| ==> line[i] != '\r'
    ensures Find(line + LINE_END + rest, LINE_END) == |line|
  {
    var s := line + LINE_END + rest;
    assert s[|line|..|line| + 2] == LINE_END;
    assert OccursAt(s, LINE_END, |line|);
    forall j | 0 <= j < |line| ensures !OccursAt(s, LINE_END, j) {
      assert s[j] == line[j] != LINE_END[0];
      assert s[j..j + 2][0] == s[j];
    }
  }

  predicate SpeaksHttp1(version: string) {
    "HTTP/1." <= version
  }

  /** What a request line asks for, whatever follows it. */
  lemma RequestLineMeans(verb: string, target: string, version: string, rest: string)
    requires IsWord(verb) && IsWord(target) && IsWord(version)
    ensures var kind := Classify(verb + " " + target + " " + version + LINE_END + rest);
            && (kind == StatusPage <==> verb == "GET" && target == "/__jetson_proxy_status")
            && (kind == Tunnel <==> verb == "CONNECT" && SpeaksHttp1(version))
            && (kind == Plain <==> verb != "CONNECT" && "http://" <= target && SpeaksHttp1(version))
  {
    hide Word, Find;
    var tail := " " + (target + (" " + version));
    var line := verb + tail;
    assert verb + " " + target + " " + version + LINE_END + rest == line + LINE_END + rest;
    assert IsSpace(' ') && IsSpace('\r');
    forall i | 0 <= i < |line| ensures line[i] != '\r' {}
    FindsFirst(line, rest);
    assert (line + LINE_END + rest)[..|line|] == line;
    WordIsRead(verb, tail);
    BlankIsSkipped(target + (" " + version));
    WordIsRead(target, " " + version);
    BlankIsSkipped(version);
    WordIsRead(version, "");
    assert version + "" == version;
    if target == "/__jetson_proxy_status" {
      assert target[0] != "http://"[0];
    }
  }

  /** The head ends with its blank line, and is the shortest beginning of the data that does. */
  lemma HeadEndsAtBlankLine(data: string)
    requires HasHead(data)
    ensures var end := HeadLength(data);
            && |HEAD_END| <= end <= |data| && data[end - |HEAD_END|..end] == HEAD_END
            && HasHead(data[..end]) && !HasHead(data[..end - 1])
  {
    var end := HeadLength(data);
    assert OccursAt(data[..end], HEAD_END, end - |HEAD_END|) by {
      assert data[..end][end - |HEAD_END|..end] == data[end - |HEAD_END|..end];
    }
    var shorter := data[..end - 1];
    var at := Find(shorter, HEAD_END);
    if at != -1 {
      assert shorter[at..at + |HEAD_END|] == data[at..at + |HEAD_END|];
      assert OccursAt(data, HEAD_END, at);
    }
  }

  // ---------------------------------------------------------------- exactly how far sending and reading get

  /** How many bytes a list of send answers has room for. */
  function Room(answers: seq<Send>): nat {
    if answers == [] then 0
    else match answers[0]
      case Took(count) => if count == 0 then 0 else count + Room(answers[1..])
      case NotNow => Room(answers[1..])
      case SendError => 0
  }

  lemma {:induction false} SentIsWhatFits(data: string, answers: seq<Send>)
    ensures SentAll(data, answers).sent == data[..Min(|data|, Room(answers))]
    ensures SentAll(data, answers).ok <==> |data| <= Room(answers)
    decreases |answers|
  {
    if data != "" && answers != [] {
      match answers[0] {
        case Took(count) =>
          if count > 0 {
            var k := Min(count, |data|);
            SentIsWhatFits(data[k..], answers[1..]);
            assert data == data[..k] + data[k..];
          }
        case NotNow => SentIsWhatFits(data, answers[1..]);
        case SendError =>
      }
    }
  }

  /** The bytes that arrive, up to the end of the stream, an error or the deadline. */
  function Incoming(answers: seq<Receive>): string {
    if answers == [] then ""
    else match answers[0]
      case Bytes(bytes) => if bytes == "" then "" else bytes[..Min(|bytes|, HEAD_CHUNK)] + Incoming(answers[1..])
      case NothingYet => Incoming(answers[1..])
      case ReceiveError => ""
  }

  /** The bytes a head must be complete within. */
  function Cut(s: string): string {
    s[..Min(|s|, HEAD_LIMIT)]
  }

  lemma LongerHasHead(s: string, longer: string)
    requires s <= longer && HasHead(s)
    ensures HasHead(longer)
  {
    var at := Find(s, HEAD_END);
    assert longer[at..at + |HEAD_END|] == s[at..at + |HEAD_END|];
    assert OccursAt(longer, HEAD_END, at);
  }

  /** A head is read exactly when it is complete within the limit, and nothing is read but what arrives. */
  lemma {:induction false} HeadIsReadExactly(data: string, answers: seq<Receive>)
    requires |data| <= HEAD_LIMIT
    ensures ReadHead(data, answers).ok <==> HasHead(Cut(data + Incoming(answers)))
    ensures ReadHead(data, answers).data <= data + Incoming(answers)
    decreases |answers|
  {
    hide HasHead;
    var all := data + Incoming(answers);
    assert data <= Cut(all);
    if HasHead(data) {
      LongerHasHead(data, Cut(all));
    } else if |data| >= HEAD_LIMIT || answers == [] {
      assert Cut(all) == data;
    } else {
      match answers[0] {
        case Bytes(bytes) =>
          if bytes == "" {
            assert Cut(all) == data;
          } else {
            ChunkIsRead(data, bytes, answers);
          }
        case NothingYet => HeadIsReadExactly(data, answers[1..]);
        case ReceiveError => assert Cut(all) == data;
      }
    }
  }

  lemma {:induction false} ChunkIsRead(data: string, bytes: string, answers: seq<Receive>)
    requires |data| < HEAD_LIMIT && !HasHead(data) && answers != [] && answers[0] == Bytes(bytes) && bytes != ""
    ensures ReadHead(data, answers).ok <==> HasHead(Cut(data + Incoming(answers)))
    ensures ReadHead(data, answers).data <= data + Incoming(answers)
    decreases |answers|, 0
  {
    hide HasHead;
    var all := data + Incoming(answers);
    var chunk := bytes[..Min(|bytes|, HEAD_CHUNK)];
    var taken := bytes[..Min(|bytes|, Min(HEAD_CHUNK, HEAD_LIMIT - |data|))];
    assert all == data + chunk + Incoming(answers[1..]);
    HeadIsReadExactly(data + taken, answers[1..]);
    if taken == chunk {
      assert data + taken + Incoming(answers[1..]) == all;
    } else {
      assert Cut(all) == data + taken && Cut(data + taken + Incoming(answers[1..])) == data + taken;
      FullIsFinal(data + taken, answers[1..]);
    }
  }

  lemma FullIsFinal(data: string, answers: seq<Receive>)
    requires |data| >= HEAD_LIMIT
    ensures ReadHead(data, answers).data == data
  {}

  // ---------------------------------------------------------------- who is served, who is reported, what is replied

  /** The upstream answers a CONNECT head with this code, all of head and answer getting through. */
  predicate AnswersConnect(data: string, peer: Peer)
    requires HasHead(data)
  {
    peer.connects && HeadLength(data) <= Room(peer.sends) && HasHead(Cut(Incoming(peer.receives)))
  }

  function AnswerTo(peer: Peer): (int, bool) {
    Answered(ReadHead("", peer.receives).data)
  }

  /** The upstream takes the request: a connection for a plain one, an opened tunnel for CONNECT. */
  predicate Takes(tunnel: bool, data: string, peer: Peer)
    requires HasHead(data)
  {
    if tunnel then AnswersConnect(data, peer) && AnswerTo(peer).1 else peer.connects
  }

  predicate Troubled(code: int) {
    code == 407 || 500 <= code || code == 0
  }

  /**
   One attempt, exactly: who is served, who is put into cooldown - a refusal that is the client's own
   fault is not - and when the relay starts.
   */
  lemma AttemptMeans(tunnel: bool, data: string, peer: Peer)
    requires HasHead(data)
    ensures var a := Tried(tunnel, data, peer);
            && (a.verdict == Served <==> Takes(tunnel, data, peer))
            && (a.verdict == TryNext(true) <==>
                  || !peer.connects
                  || (tunnel && (AnswersConnect(data, peer) ==> !AnswerTo(peer).1 && Troubled(AnswerTo(peer).0))))
            && (a.relayed <==> (
                  && Takes(tunnel, data, peer)
                  && (tunnel ==> |ReadHead("", peer.receives).data| <= Room(peer.clientSends))
                  && (tunnel ==> |data| - HeadLength(data) <= Room(peer.restSends))
                  && (!tunnel ==> |data| <= Room(peer.sends))))
            && (a.relayed ==> a.session == Run(peer.rounds))
  {
    hide HasHead, HeadLength, SentAll, ReadHead, Answered, Run, Room, Incoming;
    var end := HeadLength(data);
    SentIsWhatFits(data, peer.sends);
    SentIsWhatFits(data[..end], peer.sends);
    assert "" + Incoming(peer.receives) == Incoming(peer.receives);
    HeadIsReadExactly("", peer.receives);
    SentIsWhatFits(ReadHead("", peer.receives).data, peer.clientSends);
    SentIsWhatFits(data[end..], peer.restSends);
  }

  /** Upstreams are tried in order, each after all before it failed to take the request, until one takes it. */
  lemma {:induction false} FirstTakerIsServed(tunnel: bool, data: string, peers: seq<Peer>)
    requires HasHead(data)
    ensures var n := |Attempts(tunnel, data, peers)|;
            && (forall j :: 0 <= j < n - 1 ==> !Takes(tunnel, data, peers[j]))
            && (Delivered(Attempts(tunnel, data, peers)) <==> n > 0 && Takes(tunnel, data, peers[n - 1]))
            && (!Delivered(Attempts(tunnel, data, peers)) ==> n == |peers|)
    decreases |peers|
  {
    hide HasHead, Tried, Takes;
    if peers != [] {
      AttemptMeans(tunnel, data, peers[0]);
      FirstTakerIsServed(tunnel, data, peers[1..]);
      forall j | 0 < j < |peers| ensures Takes(tunnel, data, peers[j]) == Takes(tunnel, data, peers[1..][j - 1]) {}
    }
  }

  predicate Business(data: string) {
    Classify(data) == Tunnel || Classify(data) == Plain
  }

  predicate SomeTakes(data: string, peers: seq<Peer>)
    requires HasHead(data)
  {
    exists k :: 0 <= k < |peers| && Takes(Classify(data) == Tunnel, data, peers[k])
  }

  /** The proxy answers for itself with exactly these codes. */
  lemma RepliesMean(request: seq<Receive>, peers: seq<Peer>)
    ensures var o := Handled(request, peers);
            var read := HasHead(Cut(Incoming(request)));
            && (read ==> HasHead(o.data)) && o.data <= Incoming(request)
            && (o.reply == Reply(400) <==> read ==> Classify(o.data) == BadRequest)
            && (o.reply == Reply(200) <==> read && Classify(o.data) == StatusPage)
            && (o.reply == Reply(503) <==> read && Business(o.data) && peers == [])
            && (o.reply == Reply(502) <==> read && Business(o.data) && peers != [] && !SomeTakes(o.data, peers))
            && (o.reply == NoReply <==> read && Business(o.data) && SomeTakes(o.data, peers))
  {
    hide HasHead, Tried, Takes, Classify, ReadHead, Incoming;
    assert "" + Incoming(request) == Incoming(request);
    HeadIsReadExactly("", request);
    var data := ReadHead("", request).data;
    if ReadHead("", request).ok {
      FirstTakerIsServed(Classify(data) == Tunnel, data, peers);
    }
  }

  // ---------------------------------------------------------------- the handler

  /** The upstreams reported to the pool as failed. */
  function FailedOnes(ready: seq<ProxyPool.Upstream>, attempts: seq<Attempt>): seq<ProxyPool.Upstream>
    requires |attempts| <= |ready|
  {
    if attempts == [] then []
    else if attempts[0].verdict == TryNext(true) then [ready[0]] + FailedOnes(ready[1..], attempts[1..])
    else FailedOnes(ready[1..], attempts[1..])
  }

  /** One try of one upstream. */
  method Try(tunnel: bool, data: string, peer: Peer) returns (a: Attempt)
    requires HasHead(data)
    ensures a == Tried(tunnel, data, peer)
  {
    hide HasHead, SentAll, ReadHead, Answered, Run;
    if !peer.connects {
      return Attempt(TryNext(true), "", "", false, FRESH);
    }
    if !tunnel {
      var ok, sent := SendAll(data, peer.sends);
      if !ok {
        return Attempt(Served, sent, "", false, FRESH);
      }
      var relay, ending := RelayAll(peer.rounds);
      return Attempt(Served, sent, "", true, Run(peer.rounds));
    }
    var end := HeadLength(data);
    var ok, sent := SendAll(data[..end], peer.sends);
    if !ok {
      return Attempt(TryNext(true), sent, "", false, FRESH);
    }
    var answered, response := ReadHeaders(peer.receives);
    if !answered {
      return Attempt(TryNext(true), sent, "", false, FRESH);
    }
    var (code, tunnelOpen) := Answered(response);
    if !tunnelOpen {
      return Attempt(TryNext(code == 407 || code >= 500 || code == 0), sent, "", false, FRESH);
    }
    var passed, toClient := SendAll(response, peer.clientSends);
    if !passed {
      return Attempt(Served, sent, toClient, false, FRESH);
    }
    if |data| > end {
      var restOk, rest := SendAll(data[end..], peer.restSends);
      sent := sent + rest;
      if !restOk {
        return Attempt(Served, sent, toClient, false, FRESH);
      }
    } else {
      assert data[end..] == "" && sent + "" == sent;
      assert SentAll(data[end..], peer.restSends).sent <= data[end..];
    }
    var relay, ending := RelayAll(peer.rounds);
    return Attempt(Served, sent, toClient, true, Run(peer.rounds));
  }

  method TryEach(tunnel: bool, data: string, ready: seq<ProxyPool.Upstream>, peers: seq<Peer>)
      returns (attempts: seq<Attempt>, failed: seq<ProxyPool.Upstream>)
    requires |peers| == |ready| && HasHead(data)
    ensures attempts == Attempts(tunnel, data, peers) && failed == FailedOnes(ready, attempts)
  {
    hide HasHead, Tried;
    attempts, failed := [], [];
    var n := 0;
    while n < |ready|
      invariant n <= |ready| && |attempts| == n
      invariant Attempts(tunnel, data, peers) == attempts + Attempts(tunnel, data, peers[n..])
      invariant failed == FailedOnes(ready, attempts)
    {
      var a := Try(tunnel, data, peers[n]);
      assert peers[n..][1..] == peers[n + 1..];
      ghost var later := Attempts(tunnel, data, peers[n + 1..]);
      assert attempts + ([a] + later) == (attempts + [a]) + later;
      FailedGrow(ready, attempts, a);
      attempts := attempts + [a];
      if a.verdict == Served {
        return;
      }
      if a.verdict.failed {
        failed := failed + [ready[n]];
      }
      n := n + 1;
    }
    assert attempts + [] == attempts;
  }

  /** Serves one client, trying the ready upstreams in order; returns the ones to put into cooldown. */
  method Handle(request: seq<Receive>, ready: seq<ProxyPool.Upstream>, peers: seq<Peer>)
      returns (outcome: Outcome, failed: seq<ProxyPool.Upstream>)
    requires |peers| == |ready|
    ensures outcome == Handled(request, peers) && failed == FailedOnes(ready, outcome.attempts)
  {
    hide HasHead, Attempts, Classify, ReadHead;
    var ok, data := ReadHeaders(request);
    if !ok {
      return Outcome(data, [], Reply(400)), [];
    }
    var kind := Classify(data);
    if kind == StatusPage {
      return Outcome(data, [], Reply(200)), [];
    }
    if kind == BadRequest {
      return Outcome(data, [], Reply(400)), [];
    }
    if ready == [] {
      return Outcome(data, [], Reply(503)), [];
    }
    var attempts: seq<Attempt>;
    attempts, failed := TryEach(kind == Tunnel, data, ready, peers);
    if Delivered(attempts) {
      return Outcome(data, attempts, NoReply), failed;
    }
    return Outcome(data, attempts, Reply(502)), failed;
  }

  lemma {:induction false} FailedGrow(ready: seq<ProxyPool.Upstream>, attempts: seq<Attempt>, a: Attempt)
    requires |attempts| < |ready|
    ensures FailedOnes(ready, attempts + [a]) ==
            if a.verdict == TryNext(true) then FailedOnes(ready, attempts) + [ready[|attempts|]] else FailedOnes(ready, attempts)
    decreases |attempts|
  {
    if attempts == [] {
      assert [] + [a] == [a] && [a][1..] == [];
    } else {
      assert (attempts + [a])[1..] == attempts[1..] + [a];
      FailedGrow(ready[1..], attempts[1..], a);
    }
  }

  /** The pool hears of exactly the upstreams whose attempt failed. */
  lemma {:induction false} FailedAreReported(ready: seq<ProxyPool.Upstream>, attempts: seq<Attempt>, u: ProxyPool.Upstream)
    requires |attempts| <= |ready|
    ensures u in FailedOnes(ready, attempts) <==>
            exists k :: 0 <= k < |attempts| && ready[k] == u && attempts[k].verdict == TryNext(true)
    decreases |attempts|
  {
    if attempts != [] {
      FailedAreReported(ready[1..], attempts[1..], u);
      forall k | 1 <= k < |attempts|
        ensures ready[k] == ready[1..][k - 1] && attempts[k] == attempts[1..][k - 1]
      {}
    }
  }
}
