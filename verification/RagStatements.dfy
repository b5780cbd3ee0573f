/**
 The RAG client's statement buffers. Every utterance is recorded per room, at most
 100 of them, and a flush after (re)connecting sends what is at most a minute old.
 Sending records again, so a flush rebuilds the buffer it has just emptied. A flush
 pauses between its sendings, and other things may be recorded or emptied meanwhile.
 */
module RagStatements {
  import opened Common

  const STATEMENT_BUFFER_MAX_SIZE := 100
  const STATEMENT_BUFFER_MAX_AGE := 60000

  type Room = string

  datatype Statement = Statement(text: string, speaker: string, timestamp: nat)

  /** What a statement says and who said it. */
  datatype Said = Said(text: string, speaker: string)

  type Buffers = map<Room, seq<Statement>>

  function BufferOf(buffers: Buffers, room: Room): seq<Statement> {
    if room in buffers then buffers[room] else []
  }

  // ---------------------------------------------------------------------------
  // Recording
  // ---------------------------------------------------------------------------

  function Pushed(buffer: seq<Statement>, stmt: Statement): seq<Statement> {
    (if |buffer| >= STATEMENT_BUFFER_MAX_SIZE then buffer[1..] else buffer) + [stmt]
  }

  function Record(buffers: Buffers, room: Room, stmt: Statement): Buffers {
    buffers[room := Pushed(BufferOf(buffers, room), stmt)]
  }

  datatype Event = Recorded(room: Room, stmt: Statement) | Emptied(room: Room)

  ghost function Run(events: seq<Event>): Buffers {
    if events == [] then map[]
    else
      match Last(events)
      case Recorded(room, stmt) => Record(Run(Init(events)), room, stmt)
      case Emptied(room) => Run(Init(events)) - {room}
  }

  /** Everything recorded in the room since its buffer was last emptied. */
  ghost function Since(events: seq<Event>, room: Room): seq<Statement> {
    if events == [] then []
    else
      match Last(events)
      case Recorded(r, stmt) => if r == room then Since(Init(events), room) + [stmt] else Since(Init(events), room)
      case Emptied(r) => if r == room then [] else Since(Init(events), room)
  }

  ghost function LastN<T>(s: seq<T>, n: nat): seq<T> {
    if |s| <= n then s else s[|s| - n..]
  }

  ghost predicate TimeOrdered(events: seq<Event>) {
    forall i, j :: 0 <= i < j < |events| && events[i].Recorded? && events[j].Recorded? ==>
      events[i].stmt.timestamp <= events[j].stmt.timestamp
  }

  ghost predicate Sorted(s: seq<Statement>) {
    forall i, j :: 0 <= i < j < |s| ==> s[i].timestamp <= s[j].timestamp
  }

  lemma {:induction false} BuffersNotEmpty(events: seq<Event>)
    ensures forall room :: room in Run(events) ==> Run(events)[room] != []
  {
    if events != [] {
      BuffersNotEmpty(Init(events));
    }
  }

  /** Once emptied, a room is as if nothing had been recorded before. */
  lemma {:induction false} EmptiedForgets(before: seq<Event>, more: seq<Event>, room: Room)
    ensures Since(before + [Emptied(room)] + more, room) == Since(more, room)
  {
    var events := before + [Emptied(room)] + more;
    if more == [] {
      assert Last(events) == Emptied(room);
    } else {
      assert Init(events) == before + [Emptied(room)] + Init(more) && Last(events) == Last(more);
      EmptiedForgets(before, Init(more), room);
    }
  }

  /** The buffer is always the last 100 statements recorded since it was emptied. */
  lemma {:induction false} BufferIsRecent(events: seq<Event>, room: Room)
    ensures BufferOf(Run(events), room) == LastN(Since(events, room), STATEMENT_BUFFER_MAX_SIZE)
  {
    if events != [] {
      BufferIsRecent(Init(events), room);
    }
  }

  lemma {:induction false} SinceComesFrom(events: seq<Event>, room: Room, stmt: Statement)
    requires stmt in Since(events, room)
    ensures exists i :: 0 <= i < |events| && events[i] == Recorded(room, stmt)
  {
    var before := Init(events);
    if stmt in Since(before, room) {
      SinceComesFrom(before, room, stmt);
      var i :| 0 <= i < |before| && before[i] == Recorded(room, stmt);
      assert events[i] == Recorded(room, stmt);
    } else {
      assert events[|events| - 1] == Recorded(room, stmt);
    }
  }

  /** With a clock that does not go back, the buffer is in time order. */
  lemma {:induction false} SinceSorted(events: seq<Event>, room: Room)
    requires TimeOrdered(events)
    ensures Sorted(Since(events, room))
  {
    if events != [] {
      SinceSorted(Init(events), room);
      if Last(events).Recorded? && Last(events).room == room {
        forall stmt | stmt in Since(Init(events), room)
          ensures stmt.timestamp <= Last(events).stmt.timestamp
        {
          SinceComesFrom(Init(events), room, stmt);
        }
      }
    }
  }

  ghost predicate Capped(buffers: Buffers) {
    forall room :: room in buffers ==> |buffers[room]| <= STATEMENT_BUFFER_MAX_SIZE && Sorted(buffers[room])
  }

  lemma RunCapped(events: seq<Event>)
    requires TimeOrdered(events)
    ensures Capped(Run(events))
  {
    forall room | room in Run(events)
      ensures |Run(events)[room]| <= STATEMENT_BUFFER_MAX_SIZE && Sorted(Run(events)[room])
    {
      BufferIsRecent(events, room);
      SinceSorted(events, room);
    }
  }

  // ---------------------------------------------------------------------------
  // Flushing
  // ---------------------------------------------------------------------------

  predicate Valid(stmt: Statement, now: nat) {
    now - stmt.timestamp <= STATEMENT_BUFFER_MAX_AGE
  }

  ghost function ValidOnes(buffer: seq<Statement>, now: nat): seq<Statement> {
    if buffer == [] then []
    else ValidOnes(Init(buffer), now) + if Valid(Last(buffer), now) then [Last(buffer)] else []
  }

  /** Position where the statements young enough begin. */
  ghost predicate CutAt(buffer: seq<Statement>, now: nat, k: nat) {
    && k <= |buffer|
    && (forall i :: 0 <= i < k ==> now > buffer[i].timestamp + 60000)
    && (forall i :: k <= i < |buffer| ==> now <= buffer[i].timestamp + 60000)
  }

  lemma {:induction false} CutExists(buffer: seq<Statement>, now: nat)
    requires Sorted(buffer)
    ensures exists k: nat :: CutAt(buffer, now, k)
  {
    var n := |buffer| - 1;
    if buffer == [] {
      assert CutAt(buffer, now, 0);
    } else if Valid(buffer[n], now) {
      CutExists(Init(buffer), now);
      var k: nat :| CutAt(Init(buffer), now, k);
      assert CutAt(buffer, now, k);
    } else {
      assert forall i :: 0 <= i < n ==> buffer[i].timestamp <= buffer[n].timestamp;
      assert CutAt(buffer, now, |buffer|);
    }
  }

  lemma {:induction false} NoneValid(buffer: seq<Statement>, now: nat)
    requires forall i :: 0 <= i < |buffer| ==> !Valid(buffer[i], now)
    ensures ValidOnes(buffer, now) == []
  {
    if buffer != [] {
      assert !Valid(buffer[|buffer| - 1], now);
      NoneValid(Init(buffer), now);
    }
  }

  lemma SuffixSnoc(buffer: seq<Statement>, k: nat)
    requires k < |buffer|
    ensures buffer[k..] == Init(buffer)[k..] + [Last(buffer)]
  {
  }

  /** In a sorted buffer the young statements are a suffix. */
  lemma {:induction false} ValidOnesAreSuffix(buffer: seq<Statement>, now: nat, k: nat)
    requires CutAt(buffer, now, k)
    ensures ValidOnes(buffer, now) == buffer[k..]
  {
    if k == |buffer| {
      NoneValid(buffer, now);
    } else {
      assert Valid(buffer[|buffer| - 1], now);
      ValidOnesAreSuffix(Init(buffer), now, k);
      SuffixSnoc(buffer, k);
    }
  }

  /** Where a buffer is cut, and what is young in it. */
  lemma CutOf(events: seq<Event>, room: Room, now: nat) returns (k: nat)
    requires TimeOrdered(events)
    ensures
      var buffer := BufferOf(Run(events), room);
      && CutAt(buffer, now, k) && ValidOnes(buffer, now) == buffer[k..]
      && |buffer| <= STATEMENT_BUFFER_MAX_SIZE
  {
    var buffer := BufferOf(Run(events), room);
    RunCapped(events);
    CutExists(buffer, now);
    k :| CutAt(buffer, now, k);
    ValidOnesAreSuffix(buffer, now, k);
  }

  function SaidOf(s: seq<Statement>): seq<Said> {
    seq(|s|, i requires 0 <= i < |s| => Said(s[i].text, s[i].speaker))
  }

  /** What of a list goes out, given when there was a connection. */
  ghost function Chosen(list: seq<Said>, connected: seq<bool>): seq<Said>
    requires |connected| >= |list|
  {
    if list == [] then []
    else Chosen(Init(list), connected) + if connected[|list| - 1] then [Last(list)] else []
  }

  /** The sending of a list: each statement is recorded again, and then something else may happen. */
  ghost function ResendEvents(room: Room, list: seq<Statement>, times: seq<nat>, between: seq<seq<Event>>): seq<Event>
    requires |times| >= |list| && |between| >= |list|
  {
    if list == [] then []
    else
      ResendEvents(room, Init(list), times, between) +
      [Recorded(room, Last(list).(timestamp := times[|list| - 1]))] + between[|list| - 1]
  }

  lemma ResendNext(room: Room, list: seq<Statement>, times: seq<nat>, between: seq<seq<Event>>, i: nat)
    requires i < |list| && |times| >= |list| && |between| >= |list|
    ensures
      ResendEvents(room, list[..i + 1], times, between) ==
      ResendEvents(room, list[..i], times, between) +
      [Recorded(room, list[i].(timestamp := times[i]))] + between[i]
  {
    assert Init(list[..i + 1]) == list[..i] && Last(list[..i + 1]) == list[i];
  }

  lemma ChosenNext(list: seq<Statement>, connected: seq<bool>, i: nat)
    requires i < |list| && |connected| >= |list|
    ensures SaidOf(list[..i + 1]) == SaidOf(list[..i]) + [Said(list[i].text, list[i].speaker)]
    ensures
      Chosen(SaidOf(list[..i + 1]), connected) ==
      Chosen(SaidOf(list[..i]), connected) + if connected[i] then [Said(list[i].text, list[i].speaker)] else []
  {
    SaidSnoc(list[..i], list[i]);
    assert list[..i + 1] == list[..i] + [list[i]];
    assert Init(SaidOf(list[..i + 1])) == SaidOf(list[..i]);
  }

  /** A flush turns `before` into `after` and hands on what the buffer says from `k` on, where its young part begins. */
  ghost predicate Flushed(before: seq<Event>, after: seq<Event>, room: Room, now: nat, times: seq<nat>,
                          between: seq<seq<Event>>, handed: seq<Said>, k: nat)
    requires |times| >= STATEMENT_BUFFER_MAX_SIZE && |between| >= STATEMENT_BUFFER_MAX_SIZE
  {
    var buffer := BufferOf(Run(before), room);
    && CutAt(buffer, now, k)
    && handed == SaidOf(buffer[k..])
    && |buffer| - k <= STATEMENT_BUFFER_MAX_SIZE
    && after == (if buffer == [] then before
                 else before + [Emptied(room)] + ResendEvents(room, buffer[k..], times, between))
  }

  ghost predicate Elsewhere(events: seq<Event>, room: Room) {
    forall i :: 0 <= i < |events| ==> events[i].room != room
  }

  ghost predicate AllElsewhere(between: seq<seq<Event>>, room: Room) {
    forall i :: 0 <= i < |between| ==> Elsewhere(between[i], room)
  }

  lemma {:induction false} ElsewhereAddsNothing(events: seq<Event>, more: seq<Event>, room: Room)
    requires Elsewhere(more, room)
    ensures Since(events + more, room) == Since(events, room)
  {
    if more == [] {
      assert events + more == events;
    } else {
      assert Init(events + more) == events + Init(more) && Last(events + more) == Last(more);
      assert more[|more| - 1].room != room;
      ElsewhereAddsNothing(events, Init(more), room);
    }
  }

  lemma SaidSnoc(list: seq<Statement>, stmt: Statement)
    ensures SaidOf(list + [stmt]) == SaidOf(list) + [Said(stmt.text, stmt.speaker)]
  {
  }

  lemma RecordedLast(events: seq<Event>, room: Room, stmt: Statement)
    ensures Since(events + [Recorded(room, stmt)], room) == Since(events, room) + [stmt]
  {
    assert Init(events + [Recorded(room, stmt)]) == events;
  }

  lemma {:induction false} ResendSays(room: Room, list: seq<Statement>, times: seq<nat>, between: seq<seq<Event>>)
    requires |times| >= |list| && |between| >= |list| && AllElsewhere(between, room)
    ensures SaidOf(Since(ResendEvents(room, list, times, between), room)) == SaidOf(list)
  {
    if list != [] {
      var n, stmt := |list| - 1, Last(list).(timestamp := times[|list| - 1]);
      var first := ResendEvents(room, Init(list), times, between);
      ResendSays(room, Init(list), times, between);
      RecordedLast(first, room, stmt);
      ElsewhereAddsNothing(first + [Recorded(room, stmt)], between[n], room);
      SaidSnoc(Since(first, room), stmt);
      SaidSnoc(Init(list), Last(list));
      InitLast(list);
    }
  }

  /** If nothing of the room interleaves, a flush leaves a buffer that says what was handed on. */
  lemma FlushRebuilds(before: seq<Event>, after: seq<Event>, room: Room, now: nat, times: seq<nat>,
                      between: seq<seq<Event>>, handed: seq<Said>, k: nat)
    requires |times| >= STATEMENT_BUFFER_MAX_SIZE && |between| >= STATEMENT_BUFFER_MAX_SIZE
    requires Flushed(before, after, room, now, times, between, handed, k) && AllElsewhere(between, room)
    ensures SaidOf(BufferOf(Run(after), room)) == handed
  {
    var buffer := BufferOf(Run(before), room);
    if buffer != [] {
      var resent := ResendEvents(room, buffer[k..], times, between);
      ResendSays(room, buffer[k..], times, between);
      EmptiedForgets(before, resent, room);
      BufferIsRecent(after, room);
      assert |SaidOf(Since(resent, room))| == |buffer| - k;
    }
  }

  // ---------------------------------------------------------------------------
  // The client object
  // ---------------------------------------------------------------------------

  class StatementBuffers {
    var statementBuffers: Buffers
    ghost var events: seq<Event>

    /** The buffers are what the events leave behind. */
    ghost predicate Valid()
      reads this
    {
      statementBuffers == Run(events)
    }

    constructor ()
      ensures Valid() && events == []
    {
      statementBuffers, events := map[], [];
    }

    ghost method Note(e: Event)
      modifies this`events
      ensures events == old(events) + [e] && Init(events) == old(events)
    {
      events := events + [e];
    }

    method AddToStatementBuffer(room: Room, text: string, speaker: string, now: nat)
      requires Valid()
      modifies this
      ensures Valid() && events == old(events) + [Recorded(room, Statement(text, speaker, now))]
    {
      var buffer: seq<Statement> := [];
      if room in statementBuffers {
        buffer := statementBuffers[room];
      }
      if |buffer| >= STATEMENT_BUFFER_MAX_SIZE {
        buffer := buffer[1..];
      }
      buffer := buffer + [Statement(text, speaker, now)];
      statementBuffers := statementBuffers[room := buffer];
      Note(Recorded(room, Statement(text, speaker, now)));
    }

    /** A first sending records; with a connection it also sends. `sent` is what went out on the socket. */
    method SendStatement(room: Room, text: string, speaker: string, connected: bool, now: nat) returns (sent: seq<Said>)
      requires Valid()
      modifies this
      ensures Valid() && events == old(events) + [Recorded(room, Statement(text, speaker, now))]
      ensures sent == if connected then [Said(text, speaker)] else []
    {
      AddToStatementBuffer(room, text, speaker, now);
      if !connected {
        return [];
      }
      sent := [Said(text, speaker)];
    }

    /** What disconnecting does to the buffer: the room starts afresh, and no other room notices. */
    method ClearBuffer(room: Room)
      requires Valid()
      modifies this
      ensures Valid() && events == old(events) + [Emptied(room)]
      ensures BufferOf(statementBuffers, room) == [] == Since(events, room)
      ensures forall other :: other != room ==>
                BufferOf(statementBuffers, other) == BufferOf(old(statementBuffers), other)
    {
      BuffersNotEmpty(events);
      if room in statementBuffers && |statementBuffers[room]| > 0 {
        statementBuffers := statementBuffers - {room};
      }
      Note(Emptied(room));
      assert statementBuffers == old(statementBuffers) - {room};
    }

    /** What happens while a flush pauses. */
    method Interleave(list: seq<Event>)
      requires Valid()
      modifies this
      ensures Valid() && events == old(events) + list
    {
      for i := 0 to |list|
        invariant Valid() && events == old(events) + list[..i]
      {
        assert list[..i + 1] == list[..i] + [list[i]];
        match list[i]
        case Recorded(room, stmt) => AddToStatementBuffer(room, stmt.text, stmt.speaker, stmt.timestamp);
        case Emptied(room) => ClearBuffer(room);
      }
      assert list[..|list|] == list;
    }

    /** The filter loop of a flush. */
    method YoungStatements(room: Room, now: nat) returns (validStatements: seq<Statement>)
      ensures validStatements == ValidOnes(BufferOf(statementBuffers, room), now)
    {
      validStatements := [];
      var buffer := BufferOf(statementBuffers, room);
      for i := 0 to |buffer|
        invariant validStatements == ValidOnes(buffer[..i], now)
      {
        assert Init(buffer[..i + 1]) == buffer[..i] && Last(buffer[..i + 1]) == buffer[i];
        if now - buffer[i].timestamp <= STATEMENT_BUFFER_MAX_AGE {
          validStatements := validStatements + [buffer[i]];
        }
      }
      assert buffer[..|buffer|] == buffer;
    }

    /**
     The send loop of a flush. Sending `i` happens at `times[i]`, with or without a
     connection, and `between[i]` happens in the pause after it.
     */
    method Resend(room: Room, list: seq<Statement>, connected: seq<bool>, times: seq<nat>, between: seq<seq<Event>>)
      returns (handed: seq<Said>, sent: seq<Said>)
      requires Valid() && |connected| >= |list| && |times| >= |list| && |between| >= |list|
      modifies this
      ensures Valid() && events == old(events) + ResendEvents(room, list, times, between)
      ensures handed == SaidOf(list) && sent == Chosen(handed, connected)
    {
      handed, sent := [], [];
      ghost var done: seq<Event> := [];
      for i := 0 to |list|
        invariant Valid() && events == old(events) + done && done == ResendEvents(room, list[..i], times, between)
        invariant handed == SaidOf(list[..i]) && sent == Chosen(handed, connected)
      {
        ResendNext(room, list, times, between, i);
        ChosenNext(list, connected, i);
        var out := ResendOne(room, list[i], connected[i], times[i], between[i]);
        handed, sent := handed + [Said(list[i].text, list[i].speaker)], sent + out;
        done := done + [Recorded(room, list[i].(timestamp := times[i]))] + between[i];
      }
      assert list[..|list|] == list;
    }

    /** One turn of the send loop and the pause after it. */
    method ResendOne(room: Room, stmt: Statement, connected: bool, time: nat, pause: seq<Event>)
      returns (sent: seq<Said>)
      requires Valid()
      modifies this
      ensures Valid() && events == old(events) + [Recorded(room, stmt.(timestamp := time))] + pause
      ensures sent == if connected then [Said(stmt.text, stmt.speaker)] else []
    {
      sent := SendStatement(room, stmt.text, stmt.speaker, connected, time);
      Interleave(pause);
    }

    /**
     A flush hands on exactly the part of the buffer no older than a minute, in
     order, whatever is recorded, emptied or disconnected in its pauses.
     */
    method FlushStatementBuffer(room: Room, now: nat, connected: seq<bool>, times: seq<nat>, between: seq<seq<Event>>)
      returns (handed: seq<Said>, sent: seq<Said>)
      requires Valid() && TimeOrdered(events)
      requires |connected| >= STATEMENT_BUFFER_MAX_SIZE && |times| >= STATEMENT_BUFFER_MAX_SIZE
      requires |between| >= STATEMENT_BUFFER_MAX_SIZE
      modifies this
      ensures Valid()
      ensures exists k: nat :: Flushed(old(events), events, room, now, times, between, handed, k)
      ensures |handed| <= |connected| && sent == Chosen(handed, connected)
    {
      ghost var before := events;
      ghost var k := CutOf(events, room, now);
      handed, sent := [], [];
      if room !in statementBuffers || |statementBuffers[room]| == 0 {
        assert Flushed(before, events, room, now, times, between, handed, k);
        return;
      }
      var validStatements := YoungStatements(room, now);
      statementBuffers := statementBuffers - {room};
      Note(Emptied(room));
      if |validStatements| == 0 {
        assert before + [Emptied(room)] + [] == events;
        assert Flushed(before, events, room, now, times, between, handed, k);
        return;
      }
      handed, sent := Resend(room, validStatements, connected, times, between);
      assert Flushed(before, events, room, now, times, between, handed, k);
    }
  }
}
