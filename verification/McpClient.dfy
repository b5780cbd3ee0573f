/**
 One connection of the MCP stdio client: requests go out with increasing ids and
 are settled by received lines, write errors or a 30 second timer, in any order.
 In section 5 of JSON-RPC 2.0 the id ties a reply to its request. A server may also
 send requests of its own, with ids of its own, and the client looks at the id only:
 it takes any message with the id of an open call for the reply.

 The reference is a log of facts (sent, received, write failed, timer fired). A
 call's outcome is what the first fact about its id after its sending says.
 */
module McpClient {
  import opened Common
  import opened StdioLines

  /** A message id: an integer, or anything else (a string, null, a fraction), which no call has. */
  datatype RpcId = NumberId(n: int) | OtherId

  /** `isReply` tells replies from the server's own requests; the client does not look at it. */
  datatype Message = Message(id: RpcId, isReply: bool, error: Option<string>, result: string)

  /** Reading a line as JSON is not part of the model; `None` is a line that cannot be read. */
  type Parser = string -> Option<Message>

  datatype Outcome = Resolved(result: string) | ErrorReply(message: string) | WriteFailed | TimedOut

  datatype Call = Call(id: nat, outcome: Option<Outcome>, timerFired: bool)

  datatype Fact = Sent(id: nat) | Received(message: Message) | WriteError(id: nat) | TimerFired(id: nat)

  /** `pending` maps an id to the position of the call whose promise it settles. */
  datatype Conn = Conn(
    connected: bool, buffer: string, requestId: nat, pending: map<nat, nat>, calls: seq<Call>,
    handled: seq<string>, log: seq<Fact>)

  const NEW_CONNECTION := Conn(true, "", 0, map[], [], [], [])

  // ---------------------------------------------------------------------------
  // Handlers
  // ---------------------------------------------------------------------------

  /** A promise keeps the first outcome it is given. */
  function Settle(calls: seq<Call>, k: nat, o: Outcome): seq<Call>
    requires k < |calls|
  {
    if calls[k].outcome.Some? then calls else calls[k := calls[k].(outcome := Some(o))]
  }

  function ReplyOutcome(r: Message): Outcome {
    if r.error.Some? then ErrorReply(r.error.value) else Resolved(r.result)
  }

  function Request(c: Conn): Conn {
    if !c.connected then c
    else
      var id := c.requestId + 1;
      c.(requestId := id, pending := c.pending[id := |c.calls|], calls := c.calls + [Call(id, None, false)],
         log := c.log + [Sent(id)])
  }

  function FailWrite(c: Conn, k: nat): Conn
    requires k < |c.calls|
  {
    var id := c.calls[k].id;
    c.(pending := c.pending - {id}, calls := Settle(c.calls, k, WriteFailed), log := c.log + [WriteError(id)])
  }

  function FireTimer(c: Conn, k: nat): Conn
    requires k < |c.calls|
  {
    var id := c.calls[k].id;
    var calls := if id in c.pending then Settle(c.calls, k, TimedOut) else c.calls;
    c.(pending := c.pending - {id}, calls := calls[k := calls[k].(timerFired := true)], log := c.log + [TimerFired(id)])
  }

  function Respond(c: Conn, r: Message): Conn {
    var logged := c.(log := c.log + [Received(r)]);
    if r.id.NumberId? && r.id.n in c.pending && c.pending[r.id.n] < |c.calls| then
      logged.(pending := c.pending - {r.id.n}, calls := Settle(c.calls, c.pending[r.id.n], ReplyOutcome(r)))
    else logged
  }

  function TakeLine(c: Conn, line: string, parse: Parser): Conn {
    if Blank(line) then c
    else
      var noted := c.(handled := c.handled + [line]);
      match parse(line)
      case Some(r) => Respond(noted, r)
      case None => noted
  }

  function TakeLines(c: Conn, lines: seq<string>, parse: Parser): Conn {
    if lines == [] then c else TakeLine(TakeLines(c, Init(lines), parse), Last(lines), parse)
  }

  function Receive(c: Conn, data: string, parse: Parser): Conn {
    if !c.connected then c
    else TakeLines(c.(buffer := Tail(c.buffer + data)), Lines(c.buffer + data), parse)
  }

  // ---------------------------------------------------------------------------
  // Runs
  // ---------------------------------------------------------------------------

  datatype Event = SendRequest | Stdout(data: string) | WriteFails(k: nat) | TimerFires(k: nat) | Disconnect

  /** A call's own events come after it; its timer fires once. */
  ghost predicate Enabled(c: Conn, e: Event) {
    match e
    case WriteFails(k) => k < |c.calls|
    case TimerFires(k) => k < |c.calls| && !c.calls[k].timerFired
    case _ => true
  }

  ghost function Step(c: Conn, e: Event, parse: Parser): Conn
    requires Enabled(c, e)
  {
    match e
    case SendRequest => Request(c)
    case Stdout(data) => Receive(c, data, parse)
    case WriteFails(k) => FailWrite(c, k)
    case TimerFires(k) => FireTimer(c, k)
    case Disconnect => c.(connected := false)
  }

  ghost predicate IsRun(events: seq<Event>, parse: Parser)
    decreases |events|, 0
  {
    events == [] || (IsRun(Init(events), parse) && Enabled(Run(Init(events), parse), Last(events)))
  }

  ghost function Run(events: seq<Event>, parse: Parser): Conn
    requires IsRun(events, parse)
    decreases |events|, 1
  {
    if events == [] then NEW_CONNECTION else Step(Run(Init(events), parse), Last(events), parse)
  }

  /** The characters the server wrote while it was connected. */
  ghost function Stream(events: seq<Event>): string {
    if events == [] then ""
    else Stream(Init(events)) + (if Last(events).Stdout? && Connected(Init(events)) then Last(events).data else "")
  }

  ghost predicate Connected(events: seq<Event>) {
    Disconnect !in events
  }

  // ---------------------------------------------------------------------------
  // The reference: facts decide
  // ---------------------------------------------------------------------------

  ghost function Effect(f: Fact, id: nat): Option<Outcome> {
    match f
    case Sent(_) => None
    case Received(r) => if r.id == NumberId(id) then Some(ReplyOutcome(r)) else None
    case WriteError(i) => if i == id then Some(WriteFailed) else None
    case TimerFired(i) => if i == id then Some(TimedOut) else None
  }

  ghost function Verdict(log: seq<Fact>, id: nat): Option<Outcome> {
    if log == [] then None
    else if Verdict(Init(log), id).Some? then Verdict(Init(log), id)
    else if Sent(id) in Init(log) then Effect(Last(log), id)
    else None
  }

  /** Fact `k` is the first one about `id` after the sending at `i`. */
  ghost predicate DecidedAt(log: seq<Fact>, id: nat, i: nat, k: nat) {
    && i < k < |log|
    && log[i] == Sent(id)
    && Effect(log[k], id).Some?
    && forall j :: i < j < k ==> Effect(log[j], id).None?
  }

  ghost predicate DecidedAs(log: seq<Fact>, id: nat, o: Outcome) {
    exists i: nat, k: nat :: DecidedAt(log, id, i, k) && Effect(log[k], id) == Some(o)
  }

  lemma {:induction false} VerdictNone(log: seq<Fact>, id: nat, i: nat)
    requires i < |log| && log[i] == Sent(id) && Verdict(log, id).None?
    ensures forall j :: i < j < |log| ==> Effect(log[j], id).None?
  {
    var n := |log| - 1;
    if i < n {
      VerdictNone(Init(log), id, i);
      assert Init(log)[i] == Sent(id);
    }
  }

  ghost predicate SentOnce(log: seq<Fact>, id: nat) {
    forall i, j :: 0 <= i < j < |log| && log[i] == Sent(id) ==> log[j] != Sent(id)
  }

  lemma DecisionUnique(log: seq<Fact>, id: nat, i: nat, k: nat, i': nat, k': nat)
    requires SentOnce(log, id) && DecidedAt(log, id, i, k) && DecidedAt(log, id, i', k')
    ensures i == i' && k == k'
  {
    assert i == i';
  }

  /** Where the verdict comes from. */
  lemma {:induction false} VerdictDecided(log: seq<Fact>, id: nat) returns (i: nat, k: nat)
    requires Verdict(log, id).Some?
    ensures DecidedAt(log, id, i, k) && Effect(log[k], id) == Verdict(log, id)
  {
    var before, n := Init(log), |log| - 1;
    if Verdict(before, id).Some? {
      i, k := VerdictDecided(before, id);
    } else {
      i :| i < n && before[i] == Sent(id);
      k := n;
      VerdictNone(before, id, i);
    }
  }

  lemma {:induction false} DecidedHasVerdict(log: seq<Fact>, id: nat, i: nat, k: nat)
    requires DecidedAt(log, id, i, k)
    ensures Verdict(log, id).Some?
  {
    if k < |log| - 1 {
      assert DecidedAt(Init(log), id, i, k);
      DecidedHasVerdict(Init(log), id, i, k);
    } else {
      assert Init(log)[i] == Sent(id);
    }
  }

  /** A call has outcome `o` exactly when the first fact about it after its sending says `o`. */
  lemma VerdictMeaning(log: seq<Fact>, id: nat, o: Outcome)
    requires SentOnce(log, id)
    ensures Verdict(log, id) == Some(o) <==> DecidedAs(log, id, o)
  {
    if Verdict(log, id).Some? {
      var i, k := VerdictDecided(log, id);
      if DecidedAs(log, id, o) {
        var i': nat, k': nat :| DecidedAt(log, id, i', k') && Effect(log[k'], id) == Some(o);
        DecisionUnique(log, id, i, k, i', k');
      }
    } else if DecidedAs(log, id, o) {
      var i': nat, k': nat :| DecidedAt(log, id, i', k') && Effect(log[k'], id) == Some(o);
      DecidedHasVerdict(log, id, i', k');
    }
  }

  // ---------------------------------------------------------------------------
  // What every run keeps
  // ---------------------------------------------------------------------------

  /** Ids count the calls, and exactly the open calls are pending, each under its own id. */
  ghost predicate Correlated(c: Conn) {
    && c.requestId == |c.calls|
    && (forall k :: 0 <= k < |c.calls| ==> c.calls[k].id == k + 1)
    && (forall id :: id in c.pending ==>
          c.pending[id] < |c.calls| && c.calls[c.pending[id]].id == id && c.calls[c.pending[id]].outcome.None?)
    && (forall k :: 0 <= k < |c.calls| && c.calls[k].outcome.None? ==>
          c.calls[k].id in c.pending && c.pending[c.calls[k].id] == k)
  }

  ghost predicate TimersSettle(calls: seq<Call>) {
    forall k :: 0 <= k < |calls| && calls[k].timerFired ==> calls[k].outcome.Some?
  }

  ghost predicate Decided(call: Call, log: seq<Fact>) {
    Sent(call.id) in log && call.outcome == Verdict(log, call.id)
  }

  ghost predicate FactsDecide(calls: seq<Call>, log: seq<Fact>) {
    forall k :: 0 <= k < |calls| ==> Decided(calls[k], log)
  }

  ghost predicate SentInOrder(log: seq<Fact>, latest: nat) {
    && (forall i, j :: 0 <= i < j < |log| && log[i].Sent? && log[j].Sent? ==> log[i].id < log[j].id)
    && (forall i :: 0 <= i < |log| && log[i].Sent? ==> 1 <= log[i].id <= latest)
  }

  ghost predicate Inv(c: Conn) {
    && Correlated(c)
    && TimersSettle(c.calls)
    && FactsDecide(c.calls, c.log)
    && SentInOrder(c.log, c.requestId)
  }

  lemma VerdictGrows(log: seq<Fact>, f: Fact, id: nat)
    ensures Verdict(log + [f], id) ==
              if Verdict(log, id).Some? then Verdict(log, id)
              else if Sent(id) in log then Effect(f, id) else None
  {
    assert Init(log + [f]) == log;
  }

  lemma {:induction false} UnsentHasNoVerdict(log: seq<Fact>, id: nat)
    requires Sent(id) !in log
    ensures Verdict(log, id).None?
  {
    if log != [] {
      UnsentHasNoVerdict(Init(log), id);
    }
  }

  lemma RequestDecides(calls: seq<Call>, log: seq<Fact>, id: nat)
    requires FactsDecide(calls, log) && Sent(id) !in log
    ensures FactsDecide(calls + [Call(id, None, false)], log + [Sent(id)])
  {
    var more, log' := calls + [Call(id, None, false)], log + [Sent(id)];
    assert log'[|log|] == Sent(id);
    UnsentHasNoVerdict(log, id);
    forall k | 0 <= k < |more|
      ensures Decided(more[k], log')
    {
      VerdictGrows(log, Sent(id), more[k].id);
      if k < |calls| {
        assert Decided(calls[k], log);
      }
    }
  }

  lemma RequestCorrelates(c: Conn)
    requires Correlated(c) && c.connected
    ensures Correlated(Request(c))
  {
    var d := Request(c);
    forall id | id in d.pending
      ensures d.pending[id] < |d.calls| && d.calls[d.pending[id]].id == id && d.calls[d.pending[id]].outcome.None?
    {
      assert id == c.requestId + 1 || id in c.pending;
    }
    forall k | 0 <= k < |d.calls| && d.calls[k].outcome.None?
      ensures d.calls[k].id in d.pending && d.pending[d.calls[k].id] == k
    {
      assert k < |c.calls| ==> d.calls[k] == c.calls[k];
    }
  }

  lemma SentExtends(log: seq<Fact>, latest: nat)
    requires SentInOrder(log, latest)
    ensures Sent(latest + 1) !in log && SentInOrder(log + [Sent(latest + 1)], latest + 1)
  {
  }

  lemma RequestKeeps(c: Conn)
    requires Inv(c)
    ensures Inv(Request(c))
  {
    if c.connected {
      RequestCorrelates(c);
      SentExtends(c.log, c.requestId);
      RequestDecides(c.calls, c.log, c.requestId + 1);
    }
  }

  /** The fact settles exactly the open calls it is about. */
  ghost predicate SettledBy(calls: seq<Call>, calls': seq<Call>, f: Fact) {
    && |calls'| == |calls|
    && forall k :: 0 <= k < |calls| ==>
         && calls'[k].id == calls[k].id
         && calls'[k].outcome == if calls[k].outcome.Some? then calls[k].outcome else Effect(f, calls[k].id)
  }

  lemma FactDecides(calls: seq<Call>, calls': seq<Call>, log: seq<Fact>, f: Fact)
    requires FactsDecide(calls, log) && SettledBy(calls, calls', f)
    ensures FactsDecide(calls', log + [f])
  {
    forall k | 0 <= k < |calls'|
      ensures Decided(calls'[k], log + [f])
    {
      assert Decided(calls[k], log);
      VerdictGrows(log, f, calls[k].id);
    }
  }

  lemma LogExtends(log: seq<Fact>, f: Fact, latest: nat)
    requires SentInOrder(log, latest) && !f.Sent?
    ensures SentInOrder(log + [f], latest)
  {
  }

  /** Closing one call and dropping its id keeps the pending map exact. */
  lemma CloseKeeps(c: Conn, d: Conn, k: nat)
    requires Correlated(c) && k < |c.calls|
    requires d.requestId == c.requestId && |d.calls| == |c.calls|
    requires d.calls[k].id == c.calls[k].id && d.calls[k].outcome.Some?
    requires forall j :: 0 <= j < |c.calls| && j != k ==> d.calls[j] == c.calls[j]
    requires d.pending == c.pending - {c.calls[k].id}
    ensures Correlated(d)
  {
    forall id | id in d.pending
      ensures d.pending[id] < |d.calls| && d.calls[d.pending[id]].id == id && d.calls[d.pending[id]].outcome.None?
    {
      assert id in c.pending && c.pending[id] != k;
    }
    forall j | 0 <= j < |d.calls| && d.calls[j].outcome.None?
      ensures d.calls[j].id in d.pending && d.pending[d.calls[j].id] == j
    {
      assert j != k && c.calls[j].id != c.calls[k].id;
    }
  }

  lemma FailWriteCloses(c: Conn, k: nat)
    requires Correlated(c) && k < |c.calls|
    ensures Correlated(FailWrite(c, k)) && SettledBy(c.calls, FailWrite(c, k).calls, WriteError(c.calls[k].id))
  {
    CloseKeeps(c, FailWrite(c, k), k);
  }

  lemma FireTimerCloses(c: Conn, k: nat)
    requires Correlated(c) && k < |c.calls|
    ensures Correlated(FireTimer(c, k)) && SettledBy(c.calls, FireTimer(c, k).calls, TimerFired(c.calls[k].id))
    ensures FireTimer(c, k).calls[k].outcome.Some?
  {
    CloseKeeps(c, FireTimer(c, k), k);
  }

  lemma RespondCloses(c: Conn, r: Message)
    requires Correlated(c)
    ensures Correlated(Respond(c, r)) && SettledBy(c.calls, Respond(c, r).calls, Received(r))
  {
    if r.id.NumberId? && r.id.n in c.pending {
      CloseKeeps(c, Respond(c, r), c.pending[r.id.n]);
    }
  }

  lemma FailWriteKeeps(c: Conn, k: nat)
    requires Inv(c) && k < |c.calls|
    ensures Inv(FailWrite(c, k))
  {
    FailWriteCloses(c, k);
    FactDecides(c.calls, FailWrite(c, k).calls, c.log, WriteError(c.calls[k].id));
    LogExtends(c.log, WriteError(c.calls[k].id), c.requestId);
  }

  lemma FireTimerKeeps(c: Conn, k: nat)
    requires Inv(c) && k < |c.calls|
    ensures Inv(FireTimer(c, k))
  {
    FireTimerCloses(c, k);
    FactDecides(c.calls, FireTimer(c, k).calls, c.log, TimerFired(c.calls[k].id));
    LogExtends(c.log, TimerFired(c.calls[k].id), c.requestId);
  }

  lemma RespondKeeps(c: Conn, r: Message)
    requires Inv(c)
    ensures Inv(Respond(c, r))
  {
    RespondCloses(c, r);
    FactDecides(c.calls, Respond(c, r).calls, c.log, Received(r));
    LogExtends(c.log, Received(r), c.requestId);
  }

  lemma {:induction false} TakeLinesKeeps(c: Conn, lines: seq<string>, parse: Parser)
    requires Inv(c)
    ensures Inv(TakeLines(c, lines, parse))
  {
    if lines != [] {
      TakeLinesKeeps(c, Init(lines), parse);
      var d := TakeLines(c, Init(lines), parse);
      var noted := d.(handled := d.handled + [Last(lines)]);
      if !Blank(Last(lines)) && parse(Last(lines)).Some? {
        RespondKeeps(noted, parse(Last(lines)).value);
      }
    }
  }

  lemma NextLine(c: Conn, lines: seq<string>, i: nat, parse: Parser)
    requires Inv(c) && i < |lines|
    ensures TakeLines(c, lines[..i + 1], parse) == TakeLine(TakeLines(c, lines[..i], parse), lines[i], parse)
    ensures Inv(TakeLines(c, lines[..i + 1], parse))
  {
    assert Init(lines[..i + 1]) == lines[..i] && Last(lines[..i + 1]) == lines[i];
    TakeLinesKeeps(c, lines[..i + 1], parse);
  }

  lemma StepKeeps(c: Conn, e: Event, parse: Parser)
    requires Inv(c) && Enabled(c, e)
    ensures Inv(Step(c, e, parse))
  {
    match e
    case SendRequest => RequestKeeps(c);
    case Stdout(data) =>
      TakeLinesKeeps(c.(buffer := Tail(c.buffer + data)), Lines(c.buffer + data), parse);
    case WriteFails(k) => FailWriteKeeps(c, k);
    case TimerFires(k) => FireTimerKeeps(c, k);
    case Disconnect =>
  }

  lemma {:induction false} RunKeeps(events: seq<Event>, parse: Parser)
    requires IsRun(events, parse)
    ensures Inv(Run(events, parse))
  {
    if events != [] {
      RunKeeps(Init(events), parse);
      StepKeeps(Run(Init(events), parse), Last(events), parse);
    }
  }

  /** Correlation in every run: own id only, open exactly while pending, settled once the timer has fired. */
  lemma CallsSettleByOwnId(events: seq<Event>, parse: Parser, k: nat)
    requires IsRun(events, parse) && k < |Run(events, parse).calls|
    ensures
      var c := Run(events, parse);
      var call := c.calls[k];
      && call.id == k + 1
      && (call.outcome.None? <==> call.id in c.pending)
      && (call.timerFired ==> call.outcome.Some?)
      && forall o :: call.outcome == Some(o) <==> DecidedAs(c.log, call.id, o)
  {
    RunKeeps(events, parse);
    var c := Run(events, parse);
    var call := c.calls[k];
    assert Decided(call, c.log);
    forall o
      ensures call.outcome == Some(o) <==> DecidedAs(c.log, call.id, o)
    {
      VerdictMeaning(c.log, call.id, o);
    }
  }

  /** The fact concerns the call with this id, after its sending. */
  ghost predicate About(f: Fact, id: nat) {
    match f
    case Sent(_) => false
    case Received(m) => m.id == NumberId(id)
    case WriteError(i) => i == id
    case TimerFired(i) => i == id
  }

  ghost predicate FirstAbout(log: seq<Fact>, id: nat, i: nat, k: nat) {
    && i < k < |log| && log[i] == Sent(id) && About(log[k], id)
    && forall j :: i < j < k ==> !About(log[j], id)
  }

  /** What a caller sees, read off the fields of the fact. */
  ghost predicate ReadsAs(f: Fact, o: Outcome) {
    match o
    case ErrorReply(text) => f.Received? && f.message.error == Some(text)
    case Resolved(x) => f.Received? && f.message.error == None && f.message.result == x
    case WriteFailed => f.WriteError?
    case TimedOut => f.TimerFired?
  }

  ghost predicate FirstReadsAs(log: seq<Fact>, id: nat, o: Outcome) {
    exists i: nat, k: nat :: FirstAbout(log, id, i, k) && ReadsAs(log[k], o)
  }

  lemma AboutIsEffect(f: Fact, id: nat)
    ensures About(f, id) <==> Effect(f, id).Some?
    ensures forall o :: Effect(f, id) == Some(o) <==> About(f, id) && ReadsAs(f, o)
  {
  }

  lemma FirstReadsDecides(log: seq<Fact>, id: nat, o: Outcome)
    ensures FirstReadsAs(log, id, o) <==> DecidedAs(log, id, o)
  {
    forall f: Fact
      ensures About(f, id) <==> Effect(f, id).Some?
      ensures Effect(f, id) == Some(o) <==> About(f, id) && ReadsAs(f, o)
    {
      AboutIsEffect(f, id);
    }
    forall i: nat, k: nat
      ensures FirstAbout(log, id, i, k) <==> DecidedAt(log, id, i, k)
    {
    }
  }

  /**
   In every run a call is rejected with a text exactly when the first thing about it
   after its sending is a message with that error, and resolved with a result exactly
   when it is a message without an error and with that result.
   */
  lemma OutcomeIsRead(events: seq<Event>, parse: Parser, k: nat, o: Outcome)
    requires IsRun(events, parse) && k < |Run(events, parse).calls|
    ensures Run(events, parse).calls[k].outcome == Some(o) <==> FirstReadsAs(Run(events, parse).log, k + 1, o)
  {
    CallsSettleByOwnId(events, parse, k);
    FirstReadsDecides(Run(events, parse).log, k + 1, o);
  }

  ghost function AsReceived(messages: seq<Message>): seq<Fact> {
    seq(|messages|, i requires 0 <= i < |messages| => Received(messages[i]))
  }

  lemma TakeLineLogs(c: Conn, line: string, parse: Parser)
    ensures
      TakeLine(c, line, parse).log ==
      c.log + if Blank(line) || parse(line).None? then [] else [Received(parse(line).value)]
  {
  }

  lemma {:induction false} TakeLinesLog(c: Conn, lines: seq<string>, parse: Parser)
    ensures TakeLines(c, lines, parse).log == c.log + AsReceived(Readable(NonBlank(lines), parse))
  {
    if lines != [] {
      var d, line := TakeLines(c, Init(lines), parse), Last(lines);
      TakeLinesLog(c, Init(lines), parse);
      TakeLineLogs(d, line, parse);
      ReceivedGrows(Init(lines), line, parse);
      InitLast(lines);
      Regroup(c.log, AsReceived(Readable(NonBlank(Init(lines)), parse)),
              if Blank(line) || parse(line).None? then [] else [Received(parse(line).value)]);
    }
  }

  lemma Regroup(a: seq<Fact>, b: seq<Fact>, d: seq<Fact>)
    ensures a + b + d == a + (b + d)
  {
  }

  lemma ReceivedGrows(lines: seq<string>, line: string, parse: Parser)
    ensures
      AsReceived(Readable(NonBlank(lines + [line]), parse)) ==
      AsReceived(Readable(NonBlank(lines), parse)) +
      if Blank(line) || parse(line).None? then [] else [Received(parse(line).value)]
  {
    assert Init(lines + [line]) == lines && Last(lines + [line]) == line;
    var before := NonBlank(lines);
    if Blank(line) {
      assert NonBlank(lines + [line]) == before + [] == before;
    } else {
      assert NonBlank(lines + [line]) == before + [line];
      ReadableGrows(before, line, parse);
    }
  }

  /** What each event adds to the facts. */
  lemma StepLogs(c: Conn, e: Event, parse: Parser)
    requires Inv(c) && Enabled(c, e)
    ensures
      Step(c, e, parse).log == c.log +
      match e
      case SendRequest => if c.connected then [Sent(|c.calls| + 1)] else []
      case Stdout(data) =>
        if c.connected then AsReceived(Readable(NonBlank(Lines(c.buffer + data)), parse)) else []
      case WriteFails(k) => [WriteError(k + 1)]
      case TimerFires(k) => [TimerFired(k + 1)]
      case Disconnect => []
  {
    if e.Stdout? && c.connected {
      TakeLinesLog(c.(buffer := Tail(c.buffer + e.data)), Lines(c.buffer + e.data), parse);
    }
  }

  /** Once settled, a call keeps its outcome whatever comes next. */
  lemma {:induction false} OutcomeStands(events: seq<Event>, more: seq<Event>, parse: Parser, k: nat)
    requires IsRun(events, parse) && IsRun(events + more, parse)
    requires k < |Run(events, parse).calls| && Run(events, parse).calls[k].outcome.Some?
    ensures k < |Run(events + more, parse).calls|
    ensures Run(events + more, parse).calls[k].outcome == Run(events, parse).calls[k].outcome
  {
    if more == [] {
      assert events + more == events;
    } else {
      assert Init(events + more) == events + Init(more);
      OutcomeStands(events, Init(more), parse, k);
      StepKeepsOutcome(Run(events + Init(more), parse), Last(more), parse, k);
    }
  }

  lemma StepKeepsOutcome(c: Conn, e: Event, parse: Parser, k: nat)
    requires Enabled(c, e) && k < |c.calls| && c.calls[k].outcome.Some?
    ensures k < |Step(c, e, parse).calls| && Step(c, e, parse).calls[k].outcome == c.calls[k].outcome
  {
    if e.Stdout? {
      LinesKeepOutcome(c.(buffer := Tail(c.buffer + e.data)), Lines(c.buffer + e.data), parse, k);
    }
  }

  lemma {:induction false} LinesKeepOutcome(c: Conn, lines: seq<string>, parse: Parser, k: nat)
    requires k < |c.calls| && c.calls[k].outcome.Some?
    ensures |TakeLines(c, lines, parse).calls| == |c.calls|
    ensures TakeLines(c, lines, parse).calls[k].outcome == c.calls[k].outcome
  {
    if lines != [] {
      LinesKeepOutcome(c, Init(lines), parse, k);
    }
  }

  // ---------------------------------------------------------------------------
  // Are the replies replies?
  // ---------------------------------------------------------------------------

  /** Whatever message decided the call with this id was a reply. */
  ghost predicate Genuine(log: seq<Fact>, id: nat) {
    forall i: nat, k: nat :: DecidedAt(log, id, i, k) && log[k].Received? ==> log[k].message.isReply
  }

  ghost predicate AllGenuine(log: seq<Fact>) {
    forall id: nat :: Genuine(log, id)
  }

  /** A message that is no reply carries the id of an open call. */
  ghost predicate Stray(c: Conn, m: Message) {
    !m.isReply && m.id.NumberId? && m.id.n in c.pending
  }

  lemma {:induction false} UndecidedHasNoVerdict(log: seq<Fact>, id: nat, i: nat)
    requires i < |log| && log[i] == Sent(id) && SentOnce(log, id)
    requires forall j :: i < j < |log| ==> Effect(log[j], id).None?
    ensures Verdict(log, id).None?
  {
    if Verdict(log, id).Some? {
      var i', k := VerdictDecided(log, id);
      assert i' == i;
    }
  }

  /** The new fact decides the call exactly if the call was open and the fact is about it. */
  lemma DecidedByLast(log: seq<Fact>, f: Fact, id: nat, i: nat)
    requires SentOnce(log, id)
    ensures DecidedAt(log + [f], id, i, |log|) <==>
              i < |log| && log[i] == Sent(id) && Verdict(log, id).None? && Effect(f, id).Some?
  {
    var grown := log + [f];
    if i < |log| && log[i] == Sent(id) {
      if Verdict(log, id).None? {
        VerdictNone(log, id, i);
        assert forall j :: i < j < |log| ==> grown[j] == log[j];
      } else if DecidedAt(grown, id, i, |log|) {
        forall j | i < j < |log|
          ensures Effect(log[j], id).None?
        {
          assert grown[j] == log[j];
        }
        UndecidedHasNoVerdict(log, id, i);
      }
    }
  }

  lemma DecidedBefore(log: seq<Fact>, f: Fact, id: nat, i: nat, k: nat)
    requires k < |log|
    ensures DecidedAt(log + [f], id, i, k) <==> DecidedAt(log, id, i, k)
  {
    var grown := log + [f];
    assert forall j :: 0 <= j < |log| ==> grown[j] == log[j];
  }

  /** The fact is a message that is no reply and decides the open call `id`. */
  ghost predicate Misleads(log: seq<Fact>, f: Fact, id: nat) {
    && f.Received? && !f.message.isReply && Effect(f, id).Some?
    && Sent(id) in log && Verdict(log, id).None?
  }

  lemma GenuineGrows(log: seq<Fact>, f: Fact, id: nat)
    requires SentOnce(log, id)
    ensures Genuine(log + [f], id) <==> Genuine(log, id) && !Misleads(log, f, id)
  {
    var grown, n := log + [f], |log|;
    forall i: nat, k: nat | k < n
      ensures DecidedAt(grown, id, i, k) <==> DecidedAt(log, id, i, k)
    {
      DecidedBefore(log, f, id, i, k);
    }
    forall i: nat
      ensures DecidedAt(grown, id, i, n) <==>
                i < n && log[i] == Sent(id) && Verdict(log, id).None? && Effect(f, id).Some?
    {
      DecidedByLast(log, f, id, i);
    }
    if Misleads(log, f, id) {
      var i: nat :| i < n && log[i] == Sent(id);
      assert DecidedAt(grown, id, i, n) && grown[n] == f;
    } else if Genuine(log, id) {
      forall i: nat, k: nat | DecidedAt(grown, id, i, k) && grown[k].Received?
        ensures grown[k].message.isReply
      {
        assert k < n ==> grown[k] == log[k] && DecidedAt(log, id, i, k);
      }
    }
    if Genuine(grown, id) {
      forall i: nat, k: nat | DecidedAt(log, id, i, k) && log[k].Received?
        ensures log[k].message.isReply
      {
        assert grown[k] == log[k] && DecidedAt(grown, id, i, k);
      }
    }
  }

  lemma SentAtMostOnce(c: Conn, id: nat)
    requires Inv(c)
    ensures SentOnce(c.log, id)
  {
  }

  /** Open calls are those sent and not decided. */
  lemma OpenMeans(c: Conn, id: nat)
    requires Inv(c)
    ensures id in c.pending <==> Sent(id) in c.log && Verdict(c.log, id).None?
  {
    if id in c.pending {
      assert Decided(c.calls[c.pending[id]], c.log);
    } else if Sent(id) in c.log {
      var i :| 0 <= i < |c.log| && c.log[i] == Sent(id);
      assert 1 <= id <= |c.calls| && c.calls[id - 1].id == id;
      assert Decided(c.calls[id - 1], c.log);
    }
  }

  lemma RespondGenuine(c: Conn, m: Message)
    requires Inv(c)
    ensures AllGenuine(Respond(c, m).log) <==> AllGenuine(c.log) && !Stray(c, m)
  {
    forall id: nat
      ensures Genuine(Respond(c, m).log, id) <==> Genuine(c.log, id) && !(Stray(c, m) && m.id.n == id)
    {
      SentAtMostOnce(c, id);
      GenuineGrows(c.log, Received(m), id);
      OpenMeans(c, id);
    }
    if Stray(c, m) {
      var id: nat := m.id.n;
      assert !Genuine(Respond(c, m).log, id);
    }
  }

  /** Other facts are no messages. */
  lemma OtherFactGenuine(c: Conn, f: Fact)
    requires Inv(c) && !f.Received?
    ensures AllGenuine(c.log + [f]) <==> AllGenuine(c.log)
  {
    forall id: nat
      ensures Genuine(c.log + [f], id) <==> Genuine(c.log, id)
    {
      SentAtMostOnce(c, id);
      GenuineGrows(c.log, f, id);
    }
  }

  ghost predicate StrayLine(c: Conn, line: string, parse: Parser) {
    !Blank(line) && parse(line).Some? && Stray(c, parse(line).value)
  }

  /** One of the lines is stray when its turn comes. */
  ghost predicate StrayLines(c: Conn, lines: seq<string>, parse: Parser) {
    lines != [] &&
    (StrayLines(c, Init(lines), parse) || StrayLine(TakeLines(c, Init(lines), parse), Last(lines), parse))
  }

  /** The run has received a stray message. */
  ghost predicate StrayRun(events: seq<Event>, parse: Parser)
    requires IsRun(events, parse)
  {
    events != [] &&
    (StrayRun(Init(events), parse) || StrayEvent(Run(Init(events), parse), Last(events), parse))
  }

  ghost predicate StrayEvent(c: Conn, e: Event, parse: Parser) {
    e.Stdout? && c.connected && StrayLines(c.(buffer := Tail(c.buffer + e.data)), Lines(c.buffer + e.data), parse)
  }

  lemma TakeLineGenuine(c: Conn, line: string, parse: Parser)
    requires Inv(c)
    ensures AllGenuine(TakeLine(c, line, parse).log) <==> AllGenuine(c.log) && !StrayLine(c, line, parse)
  {
    if !Blank(line) && parse(line).Some? {
      RespondGenuine(c.(handled := c.handled + [line]), parse(line).value);
    }
  }

  lemma {:induction false} TakeLinesGenuine(c: Conn, lines: seq<string>, parse: Parser)
    requires Inv(c)
    ensures AllGenuine(TakeLines(c, lines, parse).log) <==> AllGenuine(c.log) && !StrayLines(c, lines, parse)
  {
    if lines != [] {
      TakeLinesGenuine(c, Init(lines), parse);
      TakeLinesKeeps(c, Init(lines), parse);
      TakeLineGenuine(TakeLines(c, Init(lines), parse), Last(lines), parse);
    }
  }

  lemma StepGenuine(c: Conn, e: Event, parse: Parser)
    requires Inv(c) && Enabled(c, e)
    ensures AllGenuine(Step(c, e, parse).log) <==> AllGenuine(c.log) && !StrayEvent(c, e, parse)
  {
    match e
    case SendRequest => OtherFactGenuine(c, Sent(c.requestId + 1));
    case Stdout(data) =>
      TakeLinesGenuine(c.(buffer := Tail(c.buffer + data)), Lines(c.buffer + data), parse);
    case WriteFails(k) => OtherFactGenuine(c, WriteError(c.calls[k].id));
    case TimerFires(k) => OtherFactGenuine(c, TimerFired(c.calls[k].id));
    case Disconnect =>
  }

  /** Calls are settled by genuine replies only if and only if no other message carried the id of an open call. */
  lemma {:induction false} GenuineIffNoStray(events: seq<Event>, parse: Parser)
    requires IsRun(events, parse)
    ensures AllGenuine(Run(events, parse).log) <==> !StrayRun(events, parse)
  {
    if events != [] {
      GenuineIffNoStray(Init(events), parse);
      RunKeeps(Init(events), parse);
      StepGenuine(Run(Init(events), parse), Last(events), parse);
    }
  }

  /** A server that pings while call 1 is open, with an id that happens to be 1 too. */
  function PingParser(line: string): Option<Message> {
    if line == "ping" then Some(Message(NumberId(1), false, None, "undefined")) else None
  }

  /** The connection with call 1 open. */
  const CALLING := Conn(true, "", 1, map[1 := 0], [Call(1, None, false)], [], [Sent(1)])

  lemma PingLines()
    ensures Lines("ping\n") == ["ping"] && Tail("ping\n") == "" && !Blank("ping")
  {
    SplitJoin(["ping", ""]);
    assert Init(["ping", ""]) == ["ping"] && Join(["ping"]) == "ping";
    assert Join(["ping", ""]) == "ping\n";
    assert !IsSpace("ping"[0]);
  }

  lemma PingReceived()
    ensures Receive(CALLING, "ping\n", PingParser).calls == [Call(1, Some(Resolved("undefined")), false)]
    ensures StrayEvent(CALLING, Stdout("ping\n"), PingParser)
  {
    PingLines();
    assert CALLING.buffer + "ping\n" == "ping\n" && CALLING.(buffer := "") == CALLING;
    OneLine(CALLING, "ping", PingParser);
    PingTaken();
  }

  lemma PingTaken()
    requires !Blank("ping")
    ensures TakeLine(CALLING, "ping", PingParser).calls == [Call(1, Some(Resolved("undefined")), false)]
    ensures StrayLine(CALLING, "ping", PingParser)
  {
    var noted := CALLING.(handled := CALLING.handled + ["ping"]);
    assert PingParser("ping") == Some(Message(NumberId(1), false, None, "undefined"));
    assert Respond(noted, PingParser("ping").value).calls == [Call(1, Some(Resolved("undefined")), false)];
  }

  lemma OneLine(c: Conn, line: string, parse: Parser)
    ensures TakeLines(c, [line], parse) == TakeLine(c, line, parse)
    ensures StrayLines(c, [line], parse) <==> StrayLine(c, line, parse)
  {
    assert Init([line]) == [] && TakeLines(c, [], parse) == c && !StrayLines(c, [], parse);
  }

  /** Its ping settles the call with no result. */
  lemma PingSettlesCall()
    ensures
      var events := [SendRequest, Stdout("ping\n")];
      && IsRun(events, PingParser) && !AllGenuine(Run(events, PingParser).log)
      && Run(events, PingParser).calls == [Call(1, Some(Resolved("undefined")), false)]
  {
    var e1, e2 := [SendRequest], [SendRequest, Stdout("ping\n")];
    assert Init(e2) == e1 && Last(e2) == Stdout("ping\n") && Init(e1) == [];
    assert IsRun([], PingParser) && IsRun(e1, PingParser) && Run(e1, PingParser) == CALLING;
    PingReceived();
    GenuineIffNoStray(e2, PingParser);
  }

  // ---------------------------------------------------------------------------
  // Chunking does not matter
  // ---------------------------------------------------------------------------

  lemma {:induction false} TakeLinesConcat(c: Conn, a: seq<string>, b: seq<string>, parse: Parser)
    ensures TakeLines(c, a + b, parse) == TakeLines(TakeLines(c, a, parse), b, parse)
  {
    if b == [] {
      assert a + b == a;
    } else {
      assert Init(a + b) == a + Init(b) && Last(a + b) == Last(b);
      TakeLinesConcat(c, a, Init(b), parse);
    }
  }

  lemma {:induction false} TakeLinesIgnoresBuffer(c: Conn, lines: seq<string>, buffer: string, parse: Parser)
    ensures TakeLines(c.(buffer := buffer), lines, parse) == TakeLines(c, lines, parse).(buffer := buffer)
  {
    if lines != [] {
      TakeLinesIgnoresBuffer(c, Init(lines), buffer, parse);
    }
  }

  lemma {:induction false} TakeLinesFrame(c: Conn, lines: seq<string>, parse: Parser)
    ensures TakeLines(c, lines, parse).buffer == c.buffer
    ensures TakeLines(c, lines, parse).connected == c.connected
    ensures TakeLines(c, lines, parse).handled == c.handled + NonBlank(lines)
  {
    if lines != [] {
      TakeLinesFrame(c, Init(lines), parse);
    }
  }

  lemma LinesConcat(s: string, b: string)
    ensures Lines(s + b) == Lines(s) + Lines(Tail(s) + b) && Tail(s + b) == Tail(Tail(s) + b)
  {
    SplitAppend(s, b);
  }

  /** Two chunks in a row are one longer chunk. */
  lemma ReceiveTwice(c: Conn, a: string, b: string, parse: Parser)
    ensures Receive(Receive(c, a, parse), b, parse) == Receive(c, a + b, parse)
  {
    if c.connected {
      var s, d := c.buffer + a, Receive(c, a, parse);
      var t := Tail(s) + b;
      TakeLinesFrame(c.(buffer := Tail(s)), Lines(s), parse);
      assert d.buffer == Tail(s) && d.connected;
      LinesConcat(s, b);
      assert c.buffer + (a + b) == s + b;
      var rest := d.(buffer := Tail(t));
      TakeLinesIgnoresBuffer(c.(buffer := Tail(s)), Lines(s), Tail(t), parse);
      assert c.(buffer := Tail(s)).(buffer := Tail(t)) == c.(buffer := Tail(t));
      assert rest == TakeLines(c.(buffer := Tail(t)), Lines(s), parse);
      TakeLinesConcat(c.(buffer := Tail(t)), Lines(s), Lines(t), parse);
    }
  }

  ghost function Concat(chunks: seq<string>): string {
    if chunks == [] then "" else Concat(Init(chunks)) + Last(chunks)
  }

  ghost function ReceiveAll(c: Conn, chunks: seq<string>, parse: Parser): Conn {
    if chunks == [] then c else Receive(ReceiveAll(c, Init(chunks), parse), Last(chunks), parse)
  }

  /** However the stream is cut, the connection ends up where one single chunk would take it. */
  lemma {:induction false} ChunkingIrrelevant(c: Conn, chunks: seq<string>, parse: Parser)
    requires NoNewline(c.buffer)
    ensures ReceiveAll(c, chunks, parse) == Receive(c, Concat(chunks), parse)
  {
    if chunks == [] {
      SplitPlain(c.buffer);
      assert c.buffer + "" == c.buffer;
      assert Lines(c.buffer) == [];
    } else {
      ChunkingIrrelevant(c, Init(chunks), parse);
      ReceiveTwice(c, Concat(Init(chunks)), Last(chunks), parse);
    }
  }

  /** The replies among the facts are the readable ones of the handled lines, in order. */
  ghost function Replies(log: seq<Fact>): seq<Message> {
    if log == [] then [] else Replies(Init(log)) + (if Last(log).Received? then [Last(log).message] else [])
  }

  ghost function Readable(lines: seq<string>, parse: Parser): seq<Message> {
    if lines == [] then []
    else
      Readable(Init(lines), parse) +
      match parse(Last(lines)) { case Some(r) => [r] case None => [] }
  }

  lemma RepliesGrow(log: seq<Fact>, m: Message)
    ensures Replies(log + [Received(m)]) == Replies(log) + [m]
  {
    assert Init(log + [Received(m)]) == log;
  }

  lemma ReadableGrows(lines: seq<string>, line: string, parse: Parser)
    ensures
      Readable(lines + [line], parse) ==
      Readable(lines, parse) + if parse(line).Some? then [parse(line).value] else []
  {
    assert Init(lines + [line]) == lines;
  }

  lemma TakeLineReplies(c: Conn, line: string, parse: Parser)
    requires Replies(c.log) == Readable(c.handled, parse)
    ensures Replies(TakeLine(c, line, parse).log) == Readable(TakeLine(c, line, parse).handled, parse)
  {
    TakeLineLogs(c, line, parse);
    TakeLineHandles(c, line, parse);
    if Blank(line) {
      assert c.log + [] == c.log && c.handled + [] == c.handled;
    } else {
      LineReplies(c.log, c.handled, line, parse);
    }
  }

  lemma TakeLineHandles(c: Conn, line: string, parse: Parser)
    ensures TakeLine(c, line, parse).handled == c.handled + if Blank(line) then [] else [line]
  {
  }

  lemma LineReplies(log: seq<Fact>, handled: seq<string>, line: string, parse: Parser)
    requires Replies(log) == Readable(handled, parse)
    ensures
      Replies(log + if parse(line).None? then [] else [Received(parse(line).value)]) ==
      Readable(handled + [line], parse)
  {
    ReadableGrows(handled, line, parse);
    if parse(line).Some? {
      RepliesGrow(log, parse(line).value);
    } else {
      assert log + [] == log && Readable(handled, parse) + [] == Readable(handled, parse);
    }
  }

  lemma {:induction false} TakeLinesReplies(c: Conn, lines: seq<string>, parse: Parser)
    requires Replies(c.log) == Readable(c.handled, parse)
    ensures var d := TakeLines(c, lines, parse); Replies(d.log) == Readable(d.handled, parse)
  {
    if lines != [] {
      TakeLinesReplies(c, Init(lines), parse);
      TakeLineReplies(TakeLines(c, Init(lines), parse), Last(lines), parse);
    }
  }

  ghost predicate Framed(events: seq<Event>, c: Conn, parse: Parser) {
    && c.handled == NonBlank(Lines(Stream(events)))
    && c.buffer == Tail(Stream(events))
    && c.connected == Connected(events)
    && Replies(c.log) == Readable(c.handled, parse)
  }

  lemma ReceiveFramed(events: seq<Event>, c: Conn, data: string, parse: Parser)
    requires Framed(events, c, parse)
    ensures Framed(events + [Stdout(data)], Receive(c, data, parse), parse)
  {
    var s := Stream(events);
    StreamGrows(events, data);
    if c.connected {
      var t := c.buffer + data;
      LinesConcat(s, data);
      NonBlankConcat(Lines(s), Lines(t));
      TakeLinesFrame(c.(buffer := Tail(t)), Lines(t), parse);
      TakeLinesReplies(c.(buffer := Tail(t)), Lines(t), parse);
    } else {
      assert s + "" == s;
    }
  }

  lemma StreamGrows(events: seq<Event>, data: string)
    ensures Stream(events + [Stdout(data)]) == Stream(events) + if Connected(events) then data else ""
    ensures Connected(events + [Stdout(data)]) <==> Connected(events)
  {
    assert Init(events + [Stdout(data)]) == events;
  }

  lemma LogKeepsReplies(log: seq<Fact>, f: Fact)
    requires !f.Received?
    ensures Replies(log + [f]) == Replies(log)
  {
    assert Init(log + [f]) == log;
  }

  /**
   In every run, whatever else happens in between, the lines handled are the
   non-blank lines of the whole stream, and the buffer is its unfinished tail.
   */
  lemma {:induction false} RunFramed(events: seq<Event>, parse: Parser)
    requires IsRun(events, parse)
    ensures Framed(events, Run(events, parse), parse)
  {
    if events != [] {
      var before, e := Init(events), Last(events);
      RunFramed(before, parse);
      var c := Run(before, parse);
      InitLast(events);
      if e.Stdout? {
        ReceiveFramed(before, c, e.data, parse);
      } else {
        assert Stream(events) == Stream(before) + "" == Stream(before);
        match e
        case SendRequest => LogKeepsReplies(c.log, Sent(c.requestId + 1));
        case WriteFails(k) => LogKeepsReplies(c.log, WriteError(c.calls[k].id));
        case TimerFires(k) => LogKeepsReplies(c.log, TimerFired(c.calls[k].id));
        case Disconnect =>
      }
    }
  }

  // ---------------------------------------------------------------------------
  // The connection object
  // ---------------------------------------------------------------------------

  class McpConnection {
    const parse: Parser
    var connected: bool
    var buffer: string
    var requestId: nat
    var pendingRequests: map<nat, nat>
    var calls: seq<Call>
    ghost var handled: seq<string>
    ghost var log: seq<Fact>

    ghost function View(): Conn
      reads this
    {
      Conn(connected, buffer, requestId, pendingRequests, calls, handled, log)
    }

    constructor (parse: Parser)
      ensures View() == NEW_CONNECTION && this.parse == parse
    {
      this.parse := parse;
      connected, buffer, requestId := true, "", 0;
      pendingRequests, calls, handled, log := map[], [], [], [];
    }

    /** Returns the position of the new call, or nothing when there is no connection. */
    method SendRequest() returns (call: Option<nat>)
      modifies this
      ensures View() == Request(old(View()))
      ensures call == if old(connected) then Some(|old(calls)|) else None
    {
      if !connected {
        return None;
      }
      requestId := requestId + 1;
      var id := requestId;
      calls := calls + [Call(id, None, false)];
      pendingRequests := pendingRequests[id := |calls| - 1];
      log := log + [Sent(id)];
      call := Some(|calls| - 1);
    }

    method OnWriteError(k: nat)
      requires k < |calls|
      modifies this
      ensures View() == FailWrite(old(View()), k)
    {
      var id := calls[k].id;
      pendingRequests := pendingRequests - {id};
      calls := Settle(calls, k, WriteFailed);
      log := log + [WriteError(id)];
    }

    method OnTimeout(k: nat)
      requires k < |calls|
      modifies this
      ensures View() == FireTimer(old(View()), k)
    {
      var id := calls[k].id;
      if id in pendingRequests {
        pendingRequests := pendingRequests - {id};
        calls := Settle(calls, k, TimedOut);
      }
      calls := calls[k := calls[k].(timerFired := true)];
      log := log + [TimerFired(id)];
      assert id !in old(pendingRequests) ==> old(pendingRequests) - {id} == old(pendingRequests);
    }

    method HandleResponse(r: Message)
      requires Correlated(View())
      modifies this`pendingRequests, this`calls, this`log
      ensures View() == Respond(old(View()), r)
    {
      log := log + [Received(r)];
      if !r.id.NumberId? || r.id.n !in pendingRequests {
        return;
      }
      var k := pendingRequests[r.id.n];
      pendingRequests := pendingRequests - {r.id.n};
      calls := Settle(calls, k, ReplyOutcome(r));
    }

    method HandleLine(line: string)
      requires Correlated(View())
      modifies this`pendingRequests, this`calls, this`handled, this`log
      ensures View() == TakeLine(old(View()), line, parse)
    {
      if Blank(line) {
        return;
      }
      handled := handled + [line];
      var response := parse(line);
      if response.Some? {
        HandleResponse(response.value);
      }
    }

    method HandleStdout(data: string)
      requires Inv(View())
      modifies this
      ensures View() == Receive(old(View()), data, parse) && Inv(View())
    {
      if !connected {
        return;
      }
      buffer := buffer + data;
      var lines := Split(buffer);
      buffer := lines[|lines| - 1];
      lines := lines[..|lines| - 1];
      ghost var start := View();
      for i := 0 to |lines|
        invariant View() == TakeLines(start, lines[..i], parse)
        invariant Inv(View())
      {
        NextLine(start, lines, i, parse);
        HandleLine(lines[i]);
      }
      assert lines[..|lines|] == lines;
    }
  }
}
