/**
 Questions of the RAG client. A question is sent over the room's socket and waits
 in one of two tables of the connection, keyed by its text, with a 30 second timer
 of its own. Repeated texts overwrite each other's entries, timers delete by text,
 and reconnecting replaces the connection while old timers still hold the old one.

 A question is meant to be open exactly while its timer is armed. One kind of
 answer breaks this: its timer is cleared and its entry deleted before its list of
 sources is read, and if the list cannot be read the question is never settled.
 The tables are meant to hold open questions only. One kind of answer breaks that:
 an answer that carries no text is matched against a question whose text is
 "unknown" and leaves its entry behind. Both conditions are proved to be exact.
 */
module RagQuestions {
  import opened Common

  const REQUEST_TIMEOUT := 30000

  type Room = string

  datatype Outcome = Answered | TimedOut | Disconnected

  /** `context` and `withSources` say which table the question was entered in. */
  datatype Question = Question(
    context: nat, text: string, withSources: bool, askedAt: nat, armed: bool, settled: seq<Outcome>)

  datatype Context = Context(pending: map<string, nat>, pendingWithSources: map<string, nat>, open: bool)

  /** `current` is the connection each room uses now; older contexts live on in timer closures. */
  datatype Client = Client(contexts: seq<Context>, current: map<Room, nat>, questions: seq<Question>)

  const NEW_CLIENT := Client([], map[], [])

  datatype Event =
    | Opened(room: Room)
    | SocketLost(context: nat)
    | Forgotten(room: Room)
    | Ask(room: Room, text: string, withSources: bool, now: nat)
    | AnswerReceived(room: Room, reply: Option<string>, sourcesReadable: bool)
    | TimerFired(question: nat)
    | DisconnectCalled(room: Room)

  // ---------------------------------------------------------------------------
  // Handlers
  // ---------------------------------------------------------------------------

  function Open(c: Client, room: Room): Client {
    c.(contexts := c.contexts + [Context(map[], map[], true)], current := c.current[room := |c.contexts|])
  }

  predicate IsConnected(c: Client, room: Room) {
    room in c.current && c.current[room] < |c.contexts| && c.contexts[c.current[room]].open
  }

  function Entered(x: Context, text: string, withSources: bool, q: nat): Context {
    if withSources then x.(pendingWithSources := x.pendingWithSources[text := q])
    else x.(pending := x.pending[text := q])
  }

  function Removed(x: Context, text: string, withSources: bool): Context {
    if withSources then x.(pendingWithSources := x.pendingWithSources - {text}) else x.(pending := x.pending - {text})
  }

  function SendQuestion(c: Client, room: Room, text: string, withSources: bool, now: nat): Client {
    if !IsConnected(c, room) then c
    else
      var k := c.current[room];
      c.(questions := c.questions + [Question(k, text, withSources, now, true, [])],
         contexts := c.contexts[k := Entered(c.contexts[k], text, withSources, |c.questions|)])
  }

  /** Clears the timer and calls resolve or reject; `settled` lists the calls, of which the first takes effect. */
  function Settle(qs: seq<Question>, q: nat, o: Outcome): seq<Question> {
    if q < |qs| then qs[q := qs[q].(armed := false, settled := qs[q].settled + [o])] else qs
  }

  /** Clears the timer and no more. */
  function Disarm(qs: seq<Question>, q: nat): seq<Question> {
    if q < |qs| then qs[q := qs[q].(armed := false)] else qs
  }

  /** The text a plain lookup uses: a missing or empty text stands for "unknown". */
  function LookupText(text: Option<string>): string {
    if text.None? || text.value == "" then "unknown" else text.value
  }

  /** An answer whose sources cannot be read throws after clearing the timer and deleting the entry. */
  function ReceiveAnswer(c: Client, room: Room, text: Option<string>, sourcesReadable: bool): Client {
    if room !in c.current || c.current[room] >= |c.contexts| then c
    else
      var k := c.current[room];
      var x := c.contexts[k];
      if text.Some? && text.value in x.pendingWithSources then
        var q := x.pendingWithSources[text.value];
        c.(questions := if sourcesReadable then Settle(c.questions, q, Answered) else Disarm(c.questions, q),
           contexts := c.contexts[k := Removed(x, text.value, true)])
      else if LookupText(text) in x.pending then
        c.(questions := Settle(c.questions, x.pending[LookupText(text)], Answered),
           contexts := c.contexts[k := if text.Some? then Removed(x, text.value, false) else x])
      else c
  }

  function FireTimer(c: Client, q: nat): Client {
    if q >= |c.questions| || c.questions[q].context >= |c.contexts| then c
    else
      var it := c.questions[q];
      c.(contexts := c.contexts[it.context := Removed(c.contexts[it.context], it.text, it.withSources)],
         questions := Settle(c.questions, q, TimedOut))
  }

  /** Rejects every question of the plain table; the table with sources is left to its timers. */
  function SettleAll(qs: seq<Question>, doomed: set<nat>): seq<Question> {
    seq(|qs|, i requires 0 <= i < |qs| => if i in doomed then Settle(qs, i, Disconnected)[i] else qs[i])
  }

  function Drop(c: Client, room: Room): Client {
    if room !in c.current || c.current[room] >= |c.contexts| then c.(current := c.current - {room})
    else
      var k := c.current[room];
      var x := c.contexts[k];
      c.(questions := SettleAll(c.questions, x.pending.Values),
         contexts := c.contexts[k := x.(pending := map[], open := false)],
         current := c.current - {room})
  }

  // ---------------------------------------------------------------------------
  // Runs
  // ---------------------------------------------------------------------------

  /** Only armed timers fire. */
  ghost predicate Enabled(c: Client, e: Event) {
    match e
    case SocketLost(k) => k < |c.contexts|
    case TimerFired(q) => q < |c.questions| && c.questions[q].armed
    case _ => true
  }

  ghost function Step(c: Client, e: Event): Client
    requires Enabled(c, e)
  {
    match e
    case Opened(room) => Open(c, room)
    case SocketLost(k) => c.(contexts := c.contexts[k := c.contexts[k].(open := false)])
    case Forgotten(room) => c.(current := c.current - {room})
    case Ask(room, text, withSources, now) => SendQuestion(c, room, text, withSources, now)
    case AnswerReceived(room, text, sourcesReadable) => ReceiveAnswer(c, room, text, sourcesReadable)
    case TimerFired(q) => FireTimer(c, q)
    case DisconnectCalled(room) => Drop(c, room)
  }

  ghost predicate IsRun(events: seq<Event>)
    decreases |events|, 0
  {
    events == [] || (IsRun(Init(events)) && Enabled(Run(Init(events)), Last(events)))
  }

  ghost function Run(events: seq<Event>): Client
    requires IsRun(events)
    decreases |events|, 1
  {
    if events == [] then NEW_CLIENT else Step(Run(Init(events)), Last(events))
  }

  // ---------------------------------------------------------------------------
  // Questions and their timers
  // ---------------------------------------------------------------------------

  /** An armed timer belongs to an open question. */
  ghost predicate TimerGuards(it: Question, contexts: nat) {
    it.context < contexts && (it.armed ==> it.settled == [])
  }

  /** Neither settled nor about to be. */
  ghost predicate Lost(it: Question) {
    it.settled == [] && !it.armed
  }

  ghost predicate Guarded(c: Client) {
    forall q :: 0 <= q < |c.questions| ==> TimerGuards(c.questions[q], |c.contexts|)
  }

  /** Table entries name questions of the same table and text. */
  ghost predicate Names(qs: seq<Question>, k: nat, text: string, withSources: bool, q: nat) {
    q < |qs| && qs[q].context == k && qs[q].text == text && qs[q].withSources == withSources
  }

  ghost predicate Entries(c: Client, k: nat)
    requires k < |c.contexts|
  {
    && (forall text :: text in c.contexts[k].pending ==>
          Names(c.questions, k, text, false, c.contexts[k].pending[text]))
    && (forall text :: text in c.contexts[k].pendingWithSources ==>
          Names(c.questions, k, text, true, c.contexts[k].pendingWithSources[text]))
  }

  /** No entry names a lost question, and an entry with sources names an open one. */
  ghost predicate Live(c: Client, k: nat)
    requires k < |c.contexts|
  {
    && (forall text :: text in c.contexts[k].pending ==>
          c.contexts[k].pending[text] < |c.questions| && !Lost(c.questions[c.contexts[k].pending[text]]))
    && (forall text :: text in c.contexts[k].pendingWithSources ==>
          && c.contexts[k].pendingWithSources[text] < |c.questions|
          && c.questions[c.contexts[k].pendingWithSources[text]].armed)
  }

  /** No two rooms share a connection. */
  ghost predicate Separate(current: map<Room, nat>) {
    forall r, s :: r in current && s in current && r != s ==> current[r] != current[s]
  }

  ghost predicate Inv(c: Client) {
    && Guarded(c)
    && (forall room :: room in c.current ==> c.current[room] < |c.contexts|)
    && Separate(c.current)
    && (forall k :: 0 <= k < |c.contexts| ==> Entries(c, k))
    && (forall k :: 0 <= k < |c.contexts| ==> Live(c, k))
  }

  lemma OpenKeeps(c: Client, room: Room)
    requires Inv(c)
    ensures Inv(Open(c, room))
  {
    var d := Open(c, room);
    forall k | 0 <= k < |d.contexts|
      ensures Entries(d, k) && Live(d, k)
    {
      assert k < |c.contexts| ==> Entries(c, k) && Live(c, k);
    }
    forall q | 0 <= q < |d.questions|
      ensures TimerGuards(d.questions[q], |d.contexts|)
    {
      assert TimerGuards(c.questions[q], |c.contexts|);
    }
  }

  lemma AskKeeps(c: Client, room: Room, text: string, withSources: bool, now: nat)
    requires Inv(c)
    ensures Inv(SendQuestion(c, room, text, withSources, now))
  {
    var d := SendQuestion(c, room, text, withSources, now);
    forall k | 0 <= k < |d.contexts|
      ensures Entries(d, k) && Live(d, k)
    {
      assert Entries(c, k) && Live(c, k);
    }
  }

  /** `d` differs from `c` by settling, disarming and removing only. */
  ghost predicate ShrinksTo(c: Client, d: Client) {
    && |d.contexts| == |c.contexts| && |d.questions| == |c.questions|
    && (forall room :: room in d.current ==> room in c.current && d.current[room] == c.current[room])
    && (forall q :: 0 <= q < |c.questions| ==> SameQuestion(c.questions[q], d.questions[q]))
    && (forall k :: 0 <= k < |c.contexts| ==> Shrinks(c.contexts[k], d.contexts[k]))
  }

  ghost predicate SameQuestion(x: Question, y: Question) {
    && y.context == x.context && y.text == x.text && y.withSources == x.withSources
    && (y.armed ==> x.armed && y.settled == x.settled)
  }

  /** Settling and removing never breaks a table. */
  lemma ShrinkKeeps(c: Client, d: Client)
    requires Inv(c) && ShrinksTo(c, d) && forall k :: 0 <= k < |d.contexts| ==> Live(d, k)
    ensures Inv(d)
  {
    forall k | 0 <= k < |d.contexts|
      ensures Entries(d, k)
    {
      assert Entries(c, k) && Shrinks(c.contexts[k], d.contexts[k]);
    }
    forall q | 0 <= q < |d.questions|
      ensures TimerGuards(d.questions[q], |d.contexts|)
    {
      assert TimerGuards(c.questions[q], |c.contexts|) && SameQuestion(c.questions[q], d.questions[q]);
    }
  }

  lemma StepShrinks(c: Client, e: Event)
    requires Enabled(c, e) && !e.Opened? && !e.Ask?
    ensures ShrinksTo(c, Step(c, e))
  {
    match e
    case AnswerReceived(room, text, sourcesReadable) => AnswerShrinks(c, room, text, sourcesReadable);
    case TimerFired(_) =>
    case DisconnectCalled(room) => DropShrinks(c, room);
    case SocketLost(_) =>
    case Forgotten(_) =>
  }

  lemma AnswerShrinks(c: Client, room: Room, text: Option<string>, sourcesReadable: bool)
    ensures ShrinksTo(c, ReceiveAnswer(c, room, text, sourcesReadable))
  {
  }

  lemma DropShrinks(c: Client, room: Room)
    ensures ShrinksTo(c, Drop(c, room))
  {
  }

  ghost predicate Shrinks(x: Context, y: Context) {
    && (forall text :: text in y.pending ==> text in x.pending && y.pending[text] == x.pending[text])
    && (forall text :: text in y.pendingWithSources ==>
          text in x.pendingWithSources && y.pendingWithSources[text] == x.pendingWithSources[text])
  }

  lemma AnswerLive(c: Client, room: Room, text: Option<string>, sourcesReadable: bool)
    requires Inv(c)
    ensures
      var d := ReceiveAnswer(c, room, text, sourcesReadable);
      |d.contexts| == |c.contexts| && forall k :: 0 <= k < |d.contexts| ==> Live(d, k)
  {
    var d := ReceiveAnswer(c, room, text, sourcesReadable);
    if room in c.current {
      forall k | 0 <= k < |d.contexts|
        ensures Live(d, k)
      {
        assert Entries(c, k) && Live(c, k) && Entries(c, c.current[room]) && Live(c, c.current[room]);
      }
    }
  }

  lemma StepLive(c: Client, e: Event)
    requires Inv(c) && Enabled(c, e) && !e.Opened? && !e.Ask?
    ensures
      var d := Step(c, e);
      |d.contexts| == |c.contexts| && forall k :: 0 <= k < |d.contexts| ==> Live(d, k)
  {
    var d := Step(c, e);
    if e.AnswerReceived? {
      AnswerLive(c, e.room, e.reply, e.sourcesReadable);
    } else {
      forall k | 0 <= k < |d.contexts|
        ensures Live(d, k)
      {
        assert Entries(c, k) && Live(c, k);
        if e.DisconnectCalled? && e.room in c.current {
          DoomedArePlain(c, c.current[e.room]);
        }
      }
    }
  }

  lemma StepKeeps(c: Client, e: Event)
    requires Inv(c) && Enabled(c, e)
    ensures Inv(Step(c, e))
  {
    match e
    case Opened(room) => OpenKeeps(c, room);
    case Ask(room, text, withSources, now) => AskKeeps(c, room, text, withSources, now);
    case _ =>
      StepShrinks(c, e);
      StepLive(c, e);
      ShrinkKeeps(c, Step(c, e));
  }

  lemma {:induction false} RunKeeps(events: seq<Event>)
    requires IsRun(events)
    ensures Inv(Run(events))
  {
    if events != [] {
      RunKeeps(Init(events));
      StepKeeps(Run(Init(events)), Last(events));
    }
  }

  /** Timers fire at most `delay` ms late: no armed timer is further past its deadline. */
  ghost predicate Punctual(c: Client, now: nat, delay: nat) {
    forall q :: 0 <= q < |c.questions| && c.questions[q].armed ==>
      now <= c.questions[q].askedAt + REQUEST_TIMEOUT + delay
  }

  // ---------------------------------------------------------------------------
  // Lost questions
  // ---------------------------------------------------------------------------

  /** An answer with unreadable sources reaches a question with sources. */
  ghost predicate LostHit(c: Client, e: Event) {
    && e.AnswerReceived? && !e.sourcesReadable && e.reply.Some?
    && e.room in c.current && c.current[e.room] < |c.contexts|
    && e.reply.value in c.contexts[c.current[e.room]].pendingWithSources
  }

  ghost function HitQuestion(c: Client, e: Event): nat
    requires LostHit(c, e)
  {
    c.contexts[c.current[e.room]].pendingWithSources[e.reply.value]
  }

  /** The step loses exactly the question hit; what is lost stays lost. */
  lemma StepLoses(c: Client, e: Event, q: nat)
    requires Inv(c) && Enabled(c, e) && q < |Step(c, e).questions|
    ensures Lost(Step(c, e).questions[q]) <==>
              (q < |c.questions| && Lost(c.questions[q])) || (LostHit(c, e) && HitQuestion(c, e) == q)
  {
    if (e.AnswerReceived? || e.DisconnectCalled?) && e.room in c.current {
      assert Live(c, c.current[e.room]);
      assert TimersGuardEntries(c, c.current[e.room]);
    }
  }

  /** Entries with sources name questions not yet settled. */
  ghost predicate TimersGuardEntries(c: Client, k: nat)
    requires k < |c.contexts|
  {
    forall text :: text in c.contexts[k].pendingWithSources ==>
      var q := c.contexts[k].pendingWithSources[text];
      q < |c.questions| && TimerGuards(c.questions[q], |c.contexts|) && c.questions[q].settled == []
  }

  /** Some answer of the run lost the question. */
  ghost predicate WasLost(events: seq<Event>, q: nat)
    requires IsRun(events)
  {
    events != [] &&
    (WasLost(Init(events), q) ||
     (LostHit(Run(Init(events)), Last(events)) && HitQuestion(Run(Init(events)), Last(events)) == q))
  }

  ghost predicate NoLostHits(events: seq<Event>)
    requires IsRun(events)
  {
    events != [] ==> NoLostHits(Init(events)) && !LostHit(Run(Init(events)), Last(events))
  }

  /** A question is lost exactly when such an answer hit it; otherwise it is open while its timer is armed. */
  lemma {:induction false} LostExactly(events: seq<Event>, q: nat)
    requires IsRun(events) && q < |Run(events).questions|
    ensures Lost(Run(events).questions[q]) <==> WasLost(events, q)
    ensures Run(events).questions[q].armed <==> Run(events).questions[q].settled == [] && !WasLost(events, q)
  {
    var before, e := Init(events), Last(events);
    RunKeeps(before);
    RunKeeps(events);
    var c := Run(before);
    if q < |c.questions| {
      LostExactly(before, q);
    } else {
      LaterQuestionsNotLost(before, q);
    }
    StepLoses(c, e, q);
    assert TimerGuards(Run(events).questions[q], |Run(events).contexts|);
  }

  lemma {:induction false} LaterQuestionsNotLost(events: seq<Event>, q: nat)
    requires IsRun(events) && q >= |Run(events).questions|
    ensures !WasLost(events, q)
  {
    if events != [] {
      var before, e := Init(events), Last(events);
      RunKeeps(before);
      LaterQuestionsNotLost(before, q);
      if LostHit(Run(before), e) {
        assert Live(Run(before), Run(before).current[e.room]);
      }
    }
  }

  ghost predicate OpenWhileArmed(c: Client) {
    forall q :: 0 <= q < |c.questions| ==> (c.questions[q].settled == [] <==> c.questions[q].armed)
  }

  lemma {:induction false} HitsAreLost(events: seq<Event>) returns (q: nat)
    requires IsRun(events) && !NoLostHits(events)
    ensures q < |Run(events).questions| && WasLost(events, q)
  {
    var before, e := Init(events), Last(events);
    RunKeeps(before);
    if LostHit(Run(before), e) {
      assert Live(Run(before), Run(before).current[e.room]);
      q := HitQuestion(Run(before), e);
    } else {
      q := HitsAreLost(before);
    }
  }

  lemma {:induction false} NoHitsNoneLost(events: seq<Event>, q: nat)
    requires IsRun(events) && NoLostHits(events)
    ensures !WasLost(events, q)
  {
    if events != [] {
      NoHitsNoneLost(Init(events), q);
    }
  }

  /** Every question is open exactly while its timer is armed if and only if the run has no such answer. */
  lemma OpenWhileArmedIff(events: seq<Event>)
    requires IsRun(events)
    ensures OpenWhileArmed(Run(events)) <==> NoLostHits(events)
  {
    if NoLostHits(events) {
      forall q | 0 <= q < |Run(events).questions|
        ensures Run(events).questions[q].settled == [] <==> Run(events).questions[q].armed
      {
        LostExactly(events, q);
        NoHitsNoneLost(events, q);
      }
    } else {
      var q := HitsAreLost(events);
      LostExactly(events, q);
    }
  }

  /** Once its time is up, a question is settled if and only if no such answer hit it. */
  lemma SettledInTime(events: seq<Event>, q: nat, now: nat, delay: nat)
    requires IsRun(events) && q < |Run(events).questions| && Punctual(Run(events), now, delay)
    requires now > Run(events).questions[q].askedAt + REQUEST_TIMEOUT + delay
    ensures Run(events).questions[q].settled != [] <==> !WasLost(events, q)
  {
    LostExactly(events, q);
  }

  /** A lost question is never settled, whatever follows. */
  lemma {:induction false} LostForever(events: seq<Event>, more: seq<Event>, q: nat)
    requires IsRun(events) && IsRun(events + more)
    requires q < |Run(events).questions| && Lost(Run(events).questions[q])
    ensures q < |Run(events + more).questions| && Lost(Run(events + more).questions[q])
  {
    if more == [] {
      assert events + more == events;
    } else {
      assert Init(events + more) == events + Init(more);
      LostForever(events, Init(more), q);
      RunKeeps(events + Init(more));
      StepExtendsOutcomes(Run(events + Init(more)), Last(more), q);
      StepLoses(Run(events + Init(more)), Last(more), q);
    }
  }

  /** The smallest run that loses a question. */
  lemma UnreadableSourcesLose()
    ensures
      var events := [Opened("r"), Ask("r", "q", true, 0), AnswerReceived("r", Some("q"), false)];
      IsRun(events) && Run(events).questions == [Question(0, "q", true, 0, false, [])]
  {
    var e1, e2, e3 := [Opened("r")], [Opened("r"), Ask("r", "q", true, 0)],
      [Opened("r"), Ask("r", "q", true, 0), AnswerReceived("r", Some("q"), false)];
    assert Init(e3) == e2 && Init(e2) == e1 && Init(e1) == [];
    assert IsRun(e1) && Run(e1) == Client([Context(map[], map[], true)], map["r" := 0], []);
    assert IsRun(e2) && Run(e2).questions == [Question(0, "q", true, 0, true, [])];
  }

  /** A settled question keeps its outcome: later calls come after the first. */
  lemma {:induction false} OutcomeStands(events: seq<Event>, more: seq<Event>, q: nat)
    requires IsRun(events) && IsRun(events + more)
    requires q < |Run(events).questions| && Run(events).questions[q].settled != []
    ensures q < |Run(events + more).questions|
    ensures Run(events).questions[q].settled <= Run(events + more).questions[q].settled
  {
    if more == [] {
      assert events + more == events;
    } else {
      assert Init(events + more) == events + Init(more);
      OutcomeStands(events, Init(more), q);
      StepExtendsOutcomes(Run(events + Init(more)), Last(more), q);
    }
  }

  lemma StepExtendsOutcomes(c: Client, e: Event, q: nat)
    requires Enabled(c, e) && q < |c.questions|
    ensures q < |Step(c, e).questions| && c.questions[q].settled <= Step(c, e).questions[q].settled
  {
  }

  // ---------------------------------------------------------------------------
  // Are the tables exact?
  // ---------------------------------------------------------------------------

  ghost predicate Exact(c: Client) {
    forall k :: 0 <= k < |c.contexts| ==> ExactContext(c, k)
  }

  /** Every entry of the context is an open question. */
  ghost predicate ExactContext(c: Client, k: nat)
    requires k < |c.contexts|
  {
    && (forall text :: text in c.contexts[k].pending ==> OpenQuestion(c.questions, c.contexts[k].pending[text]))
    && (forall text :: text in c.contexts[k].pendingWithSources ==>
          OpenQuestion(c.questions, c.contexts[k].pendingWithSources[text]))
  }

  ghost predicate OpenQuestion(qs: seq<Question>, q: nat) {
    q < |qs| && qs[q].settled == []
  }

  /** An answer without text reaches a pending question "unknown". */
  ghost predicate BlankHit(c: Client, e: Event) {
    && e.AnswerReceived? && LookupText(e.reply) == "unknown" && e.reply != Some("unknown")
    && e.room in c.current && c.current[e.room] < |c.contexts|
    && !(e.reply == Some("") && "" in c.contexts[c.current[e.room]].pendingWithSources)
    && "unknown" in c.contexts[c.current[e.room]].pending
  }

  lemma AskExact(c: Client, room: Room, text: string, withSources: bool, now: nat)
    requires Inv(c) && Exact(c)
    ensures Exact(SendQuestion(c, room, text, withSources, now))
  {
    var d := SendQuestion(c, room, text, withSources, now);
    forall k | 0 <= k < |d.contexts|
      ensures ExactContext(d, k)
    {
      assert ExactContext(c, k);
    }
  }

  lemma AnswerExact(c: Client, room: Room, text: Option<string>, sourcesReadable: bool)
    requires Inv(c) && Exact(c) && !BlankHit(c, AnswerReceived(room, text, sourcesReadable))
    ensures Exact(ReceiveAnswer(c, room, text, sourcesReadable))
  {
    var d := ReceiveAnswer(c, room, text, sourcesReadable);
    if room in c.current {
      var k0 := c.current[room];
      forall k | 0 <= k < |d.contexts|
        ensures ExactContext(d, k)
      {
        assert ExactContext(c, k) && Entries(c, k) && Entries(c, k0);
      }
    }
  }

  lemma TimerExact(c: Client, q: nat)
    requires Inv(c) && Exact(c) && q < |c.questions|
    ensures Exact(FireTimer(c, q))
  {
    var d := FireTimer(c, q);
    forall k | 0 <= k < |d.contexts|
      ensures ExactContext(d, k)
    {
      assert ExactContext(c, k) && Entries(c, k);
    }
  }

  lemma DisconnectExact(c: Client, room: Room)
    requires Inv(c) && Exact(c)
    ensures Exact(Drop(c, room))
  {
    var d := Drop(c, room);
    forall k | 0 <= k < |d.contexts|
      ensures ExactContext(d, k)
    {
      assert ExactContext(c, k) && Entries(c, k);
      if room in c.current {
        DoomedArePlain(c, c.current[room]);
      }
    }
  }

  lemma DoomedArePlain(c: Client, k: nat)
    requires k < |c.contexts| && Entries(c, k)
    ensures forall q :: q in c.contexts[k].pending.Values ==>
              q < |c.questions| && c.questions[q].context == k && !c.questions[q].withSources
  {
  }

  lemma BlankHitBreaks(c: Client, e: Event)
    requires Inv(c) && BlankHit(c, e)
    ensures !Exact(Step(c, e))
  {
    var k := c.current[e.room];
    assert Entries(c, k);
    var d := Step(c, e);
    var q := c.contexts[k].pending["unknown"];
    assert "unknown" in d.contexts[k].pending && d.contexts[k].pending["unknown"] == q;
    assert !OpenQuestion(d.questions, q);
    assert !ExactContext(d, k);
  }

  /** From exact tables, a step leaves them exact unless it is a blank hit. */
  lemma StepExactIff(c: Client, e: Event)
    requires Inv(c) && Exact(c) && Enabled(c, e)
    ensures Exact(Step(c, e)) <==> !BlankHit(c, e)
  {
    if BlankHit(c, e) {
      BlankHitBreaks(c, e);
    } else {
      match e
      case Opened(room) =>
        var d := Step(c, e);
        forall k | 0 <= k < |d.contexts| ensures ExactContext(d, k) {
          assert k < |c.contexts| ==> ExactContext(c, k);
        }
      case SocketLost(j) =>
        var d := Step(c, e);
        forall k | 0 <= k < |d.contexts| ensures ExactContext(d, k) { assert ExactContext(c, k); }
      case Forgotten(room) =>
        var d := Step(c, e);
        forall k | 0 <= k < |d.contexts| ensures ExactContext(d, k) { assert ExactContext(c, k); }
      case Ask(room, text, withSources, now) => AskExact(c, room, text, withSources, now);
      case AnswerReceived(room, text, sourcesReadable) => AnswerExact(c, room, text, sourcesReadable);
      case TimerFired(q) => TimerExact(c, q);
      case DisconnectCalled(room) => DisconnectExact(c, room);
    }
  }

  ghost predicate AlwaysExact(events: seq<Event>)
    requires IsRun(events)
  {
    Exact(Run(events)) && (events != [] ==> AlwaysExact(Init(events)))
  }

  ghost predicate NoBlankHits(events: seq<Event>)
    requires IsRun(events)
  {
    events != [] ==> NoBlankHits(Init(events)) && !BlankHit(Run(Init(events)), Last(events))
  }

  /** Every entry is an open question throughout a run exactly when the run has no blank hit. */
  lemma {:induction false} ExactIffNoBlankHit(events: seq<Event>)
    requires IsRun(events)
    ensures AlwaysExact(events) <==> NoBlankHits(events)
  {
    if events != [] {
      ExactIffNoBlankHit(Init(events));
      RunKeeps(Init(events));
      if AlwaysExact(Init(events)) {
        StepExactIff(Run(Init(events)), Last(events));
      }
    }
  }

  ghost predicate Once(c: Client) {
    forall q :: 0 <= q < |c.questions| ==> |c.questions[q].settled| <= 1
  }

  /** The plain entry an answer meets. */
  ghost predicate AnswerMeets(c: Client, e: Event, q: nat) {
    && e.AnswerReceived? && e.room in c.current && c.current[e.room] < |c.contexts|
    && var x := c.contexts[c.current[e.room]];
       && !(e.reply.Some? && e.reply.value in x.pendingWithSources)
       && LookupText(e.reply) in x.pending && x.pending[LookupText(e.reply)] == q
  }

  /** An entry that a disconnect meets. */
  ghost predicate DisconnectMeets(c: Client, e: Event, q: nat) {
    && e.DisconnectCalled? && e.room in c.current && c.current[e.room] < |c.contexts|
    && q in c.contexts[c.current[e.room]].pending.Values
  }

  /** An answer or a disconnect meets the entry of a question that is settled already. */
  ghost predicate SecondCall(c: Client, e: Event, q: nat) {
    q < |c.questions| && c.questions[q].settled != [] && (AnswerMeets(c, e, q) || DisconnectMeets(c, e, q))
  }

  /** A step settles a question at most once, and a settled one only in a second call. */
  lemma StepSettles(c: Client, e: Event, q: nat)
    requires Inv(c) && Enabled(c, e) && q < |c.questions|
    ensures q < |Step(c, e).questions|
    ensures |c.questions[q].settled| <= |Step(c, e).questions[q].settled| <= |c.questions[q].settled| + 1
    ensures c.questions[q].settled != [] ==>
              (|Step(c, e).questions[q].settled| > |c.questions[q].settled| <==> SecondCall(c, e, q))
  {
    assert TimerGuards(c.questions[q], |c.contexts|);
    if e.AnswerReceived? && e.room in c.current {
      assert Live(c, c.current[e.room]);
    }
  }

  ghost predicate NoSecondCalls(events: seq<Event>)
    requires IsRun(events)
  {
    events != [] ==> NoSecondCalls(Init(events)) && forall q :: !SecondCall(Run(Init(events)), Last(events), q)
  }

  lemma StepOnceIff(c: Client, e: Event)
    requires Inv(c) && Enabled(c, e)
    ensures Once(Step(c, e)) <==> Once(c) && forall q :: !SecondCall(c, e, q)
  {
    forall q: nat | q < |c.questions|
      ensures q < |Step(c, e).questions|
      ensures |Step(c, e).questions[q].settled| <= 1 <==> |c.questions[q].settled| <= 1 && !SecondCall(c, e, q)
    {
      StepSettles(c, e, q);
    }
  }

  /** No promise is resolved or rejected twice if and only if nothing meets the entry of a settled question. */
  lemma {:induction false} SettledOnceIff(events: seq<Event>)
    requires IsRun(events)
    ensures Once(Run(events)) <==> NoSecondCalls(events)
  {
    if events != [] {
      SettledOnceIff(Init(events));
      RunKeeps(Init(events));
      StepOnceIff(Run(Init(events)), Last(events));
    }
  }

  lemma ExactHasNoSecondCall(c: Client, e: Event, q: nat)
    requires Exact(c)
    ensures !SecondCall(c, e, q)
  {
    if AnswerMeets(c, e, q) || DisconnectMeets(c, e, q) {
      assert ExactContext(c, c.current[e.room]);
    }
  }

  /** In particular while the tables are exact. */
  lemma {:induction false} SettledOnce(events: seq<Event>)
    requires IsRun(events) && NoBlankHits(events)
    ensures Once(Run(events)) && NoSecondCalls(events)
  {
    if events != [] {
      SettledOnce(Init(events));
      ExactIffNoBlankHit(Init(events));
      forall q
        ensures !SecondCall(Run(Init(events)), Last(events), q)
      {
        ExactHasNoSecondCall(Run(Init(events)), Last(events), q);
      }
      SettledOnceIff(events);
    }
  }

  // ---------------------------------------------------------------------------
  // What settles a question
  // ---------------------------------------------------------------------------

  /** A readable answer comes to the entry of question `q`: with sources first, then plain; no text means "unknown". */
  ghost predicate AnswerComesTo(c: Client, e: Event, q: nat) {
    && e.AnswerReceived? && e.room in c.current && c.current[e.room] < |c.contexts|
    && var x := c.contexts[c.current[e.room]];
       if e.reply.Some? && e.reply.value in x.pendingWithSources
       then e.sourcesReadable && x.pendingWithSources[e.reply.value] == q
       else
         var text := if e.reply == None || e.reply == Some("") then "unknown" else e.reply.value;
         text in x.pending && x.pending[text] == q
  }

  lemma AnswerSettles(c: Client, e: Event, q: nat)
    requires Inv(c) && e.AnswerReceived? && q < |c.questions| && c.questions[q].settled == []
    ensures q < |Step(c, e).questions|
    ensures Step(c, e).questions[q].settled == if AnswerComesTo(c, e, q) then [Answered] else []
  {
    if e.room in c.current {
      var x := c.contexts[c.current[e.room]];
      assert Live(c, c.current[e.room]) && Entries(c, c.current[e.room]);
      assert LookupText(e.reply) == if e.reply == None || e.reply == Some("") then "unknown" else e.reply.value;
    }
  }

  /** From any good state, exactly what makes an open question settle, and as what. */
  lemma OpenSettles(c: Client, e: Event, q: nat)
    requires Inv(c) && Enabled(c, e) && q < |c.questions| && c.questions[q].settled == []
    ensures q < |Step(c, e).questions|
    ensures
      var settled := Step(c, e).questions[q].settled;
      && (settled == [Answered] <==> AnswerComesTo(c, e, q))
      && (settled == [TimedOut] <==> e == TimerFired(q))
      && (settled == [Disconnected] <==> DisconnectMeets(c, e, q))
      && (settled != [] ==> settled in {[Answered], [TimedOut], [Disconnected]})
  {
    var settled := Step(c, e).questions[q].settled;
    assert [Answered][0] == Answered && [TimedOut][0] == TimedOut && [Disconnected][0] == Disconnected;
    if e.AnswerReceived? {
      AnswerSettles(c, e, q);
    } else if e.TimerFired? {
      assert TimerGuards(c.questions[e.question], |c.contexts|);
      assert settled == if e.question == q then [TimedOut] else [];
    } else if e.DisconnectCalled? {
      assert settled == if DisconnectMeets(c, e, q) then [Disconnected] else [];
    } else {
      assert settled == [];
    }
  }

  lemma {:induction false} PrefixRuns(events: seq<Event>, k: nat)
    requires IsRun(events) && k <= |events|
    ensures IsRun(events[..k])
    ensures k < |events| ==> Enabled(Run(events[..k]), events[k]) && IsRun(events[..k + 1]) &&
                             Run(events[..k + 1]) == Step(Run(events[..k]), events[k])
    decreases |events|
  {
    if k == |events| {
      assert events[..k] == events;
    } else if k == |events| - 1 {
      assert events[..k] == Init(events) && events[..k + 1] == events;
    } else {
      PrefixRuns(Init(events), k);
      assert Init(events)[..k] == events[..k] && Init(events)[..k + 1] == events[..k + 1];
    }
  }

  /** Event `k` is the first to come to the question, in the way the outcome says. */
  ghost predicate SettledBy(events: seq<Event>, k: nat, q: nat, o: Outcome) {
    && k < |events| && IsRun(events[..k])
    && var c := Run(events[..k]);
       && q < |c.questions| && c.questions[q].settled == []
       && match o
          case Answered => AnswerComesTo(c, events[k], q)
          case TimedOut => events[k] == TimerFired(q)
          case Disconnected => DisconnectMeets(c, events[k], q)
  }

  lemma {:induction false} SettledBySomething(events: seq<Event>, q: nat) returns (k: nat)
    requires IsRun(events) && q < |Run(events).questions| && Run(events).questions[q].settled != []
    ensures SettledBy(events, k, q, Run(events).questions[q].settled[0])
  {
    var before := Init(events);
    var c := Run(before);
    if q < |c.questions| {
      if c.questions[q].settled == [] {
        SettledNow(events, q);
        k := |events| - 1;
      } else {
        k := SettledBySomething(before, q);
        assert events[..k] == before[..k];
        StepExtendsOutcomes(c, Last(events), q);
      }
    }
  }

  lemma SettledNow(events: seq<Event>, q: nat)
    requires events != [] && IsRun(events) && q < |Run(Init(events)).questions|
    requires Run(Init(events)).questions[q].settled == []
    requires q < |Run(events).questions| && Run(events).questions[q].settled != []
    ensures SettledBy(events, |events| - 1, q, Run(events).questions[q].settled[0])
  {
    assert events[..|events| - 1] == Init(events);
    RunKeeps(Init(events));
    OpenSettles(Run(Init(events)), Last(events), q);
  }

  lemma SettledByStands(events: seq<Event>, k: nat, q: nat, o: Outcome)
    requires IsRun(events) && SettledBy(events, k, q, o)
    ensures q < |Run(events).questions| && Run(events).questions[q].settled != []
    ensures Run(events).questions[q].settled[0] == o
  {
    PrefixRuns(events, k);
    RunKeeps(events[..k]);
    OpenSettles(Run(events[..k]), events[k], q);
    SettledStays(events, k + 1, q);
  }

  lemma SettledStays(events: seq<Event>, k: nat, q: nat)
    requires IsRun(events) && k <= |events| && IsRun(events[..k])
    requires q < |Run(events[..k]).questions| && Run(events[..k]).questions[q].settled != []
    ensures q < |Run(events).questions| && Run(events).questions[q].settled != []
    ensures Run(events).questions[q].settled[0] == Run(events[..k]).questions[q].settled[0]
  {
    assert events[..k] + events[k..] == events;
    OutcomeStands(events[..k], events[k..], q);
  }

  /** In every run the first outcome of a question is the kind of the event that first came to it. */
  lemma OutcomeIff(events: seq<Event>, q: nat, o: Outcome)
    requires IsRun(events) && q < |Run(events).questions|
    ensures (Run(events).questions[q].settled != [] && Run(events).questions[q].settled[0] == o) <==>
              exists k: nat :: SettledBy(events, k, q, o)
  {
    if Run(events).questions[q].settled != [] && Run(events).questions[q].settled[0] == o {
      var k := SettledBySomething(events, q);
    }
    if exists k: nat :: SettledBy(events, k, q, o) {
      var k: nat :| SettledBy(events, k, q, o);
      SettledByStands(events, k, q, o);
    }
  }

  // ---------------------------------------------------------------------------
  // Asking and being answered
  // ---------------------------------------------------------------------------

  /** The room's connection has the question filed under its text. */
  ghost predicate Filed(c: Client, room: Room, text: string, withSources: bool, q: nat) {
    && room in c.current && c.current[room] < |c.contexts|
    && var x := c.contexts[c.current[room]];
       if withSources then text in x.pendingWithSources && x.pendingWithSources[text] == q
       else text in x.pending && x.pending[text] == q
  }

  /** An accepted question is new, open, with its timer armed, and filed; a refused one leaves no trace. */
  lemma AskFiles(c: Client, room: Room, text: string, withSources: bool, now: nat)
    requires Inv(c)
    ensures
      var d, q := Step(c, Ask(room, text, withSources, now)), |c.questions|;
      if room in c.current && c.contexts[c.current[room]].open
      then
        && d.questions == c.questions + [Question(c.current[room], text, withSources, now, true, [])]
        && Filed(d, room, text, withSources, q)
      else d == c
  {
  }

  /** What may take the entry away: the room's connection changes, or something comes for the same text. */
  ghost predicate Disturbs(c: Client, e: Event, room: Room, text: string, withSources: bool)
    requires Enabled(c, e)
  {
    match e
    case Opened(r) => r == room
    case Forgotten(r) => r == room
    case DisconnectCalled(r) => r == room
    case Ask(r, t, _, _) => t == text
    case AnswerReceived(r, reply, _) => reply == Some(text) || (text == "unknown" && reply in {None, Some("")})
    case TimerFired(q) => c.questions[q].text == text
    case SocketLost(_) => false
  }

  lemma FiledStays(c: Client, e: Event, room: Room, text: string, withSources: bool, q: nat)
    requires Inv(c) && Enabled(c, e) && Filed(c, room, text, withSources, q)
    requires !Disturbs(c, e, room, text, withSources)
    ensures Filed(Step(c, e), room, text, withSources, q)
  {
    match e
    case Opened(_) =>
    case SocketLost(_) =>
    case Forgotten(_) =>
    case Ask(_, _, _, _) =>
    case AnswerReceived(_, _, _) => AnswerSpares(c, e, room, text, withSources, q);
    case TimerFired(_) =>
    case DisconnectCalled(_) =>
  }

  lemma AnswerSpares(c: Client, e: Event, room: Room, text: string, withSources: bool, q: nat)
    requires Inv(c) && e.AnswerReceived? && Filed(c, room, text, withSources, q) && e.reply != Some(text)
    ensures Filed(Step(c, e), room, text, withSources, q)
  {
  }

  /** An answer with its text answers the filed question; a plain one gives way to one with sources. */
  lemma FiledIsAnswered(c: Client, room: Room, text: string, withSources: bool, q: nat)
    requires Inv(c) && Filed(c, room, text, withSources, q) && q < |c.questions| && c.questions[q].settled == []
    requires withSources || (text != "" && text !in c.contexts[c.current[room]].pendingWithSources)
    ensures Step(c, AnswerReceived(room, Some(text), true)).questions[q].settled == [Answered]
    ensures !Filed(Step(c, AnswerReceived(room, Some(text), true)), room, text, withSources, q)
  {
    OpenSettles(c, AnswerReceived(room, Some(text), true), q);
  }

  /** The last event that made or ended the room's connection made it. */
  ghost predicate LastOpened(events: seq<Event>, room: Room) {
    events != [] &&
    match Last(events)
    case Opened(r) => r == room || LastOpened(Init(events), room)
    case Forgotten(r) => r != room && LastOpened(Init(events), room)
    case DisconnectCalled(r) => r != room && LastOpened(Init(events), room)
    case _ => LastOpened(Init(events), room)
  }

  /** The client knows a connection of the room exactly from an opening to the next disconnect or forgetting. */
  lemma {:induction false} ConnectionKnownIff(events: seq<Event>, room: Room)
    requires IsRun(events)
    ensures room in Run(events).current <==> LastOpened(events, room)
  {
    if events != [] {
      ConnectionKnownIff(Init(events), room);
    }
  }

  /** A connection takes questions until its socket is lost or its room disconnected. */
  lemma OpenUntilLost(c: Client, e: Event, k: nat)
    requires Inv(c) && Enabled(c, e) && k < |c.contexts|
    ensures k < |Step(c, e).contexts|
    ensures
      Step(c, e).contexts[k].open <==>
      && c.contexts[k].open && e != SocketLost(k)
      && !(e.DisconnectCalled? && e.room in c.current && c.current[e.room] == k)
  {
  }

  /** After a disconnect the plain questions of the connection have all been rejected, and questions are refused. */
  lemma DisconnectEndsAll(c: Client, room: Room)
    requires Inv(c) && room in c.current
    ensures
      var d, k := Step(c, DisconnectCalled(room)), c.current[room];
      && room !in d.current && !d.contexts[k].open && d.contexts[k].pending == map[]
      && d.contexts[k].pendingWithSources == c.contexts[k].pendingWithSources
  {
  }

  /** The smallest run that leaves a settled question in the table. */
  lemma BlankAnswerLeavesEntry()
    ensures
      var events := [Opened("r"), Ask("r", "unknown", false, 0), AnswerReceived("r", None, true)];
      IsRun(events) && !Exact(Run(events))
  {
    var e1, e2, e3 := [Opened("r")], [Opened("r"), Ask("r", "unknown", false, 0)],
      [Opened("r"), Ask("r", "unknown", false, 0), AnswerReceived("r", None, true)];
    assert Init(e3) == e2 && Init(e2) == e1 && Init(e1) == [];
    assert IsRun(e1) && Run(e1) == Client([Context(map[], map[], true)], map["r" := 0], []);
    assert IsRun(e2);
    assert BlankHit(Run(e2), AnswerReceived("r", None, true));
    RunKeeps(e2);
    BlankHitBreaks(Run(e2), AnswerReceived("r", None, true));
  }

  // ---------------------------------------------------------------------------
  // The client object
  // ---------------------------------------------------------------------------

  lemma SettleAllGrows(qs: seq<Question>, doomed: set<nat>, q: nat)
    requires q !in doomed
    ensures SettleAll(qs, doomed + {q}) == Settle(SettleAll(qs, doomed), q, Disconnected)
  {
  }

  class PendingQuestions {
    var contexts: seq<Context>
    var connections: map<Room, nat>
    var questions: seq<Question>

    ghost function View(): Client
      reads this
    {
      Client(contexts, connections, questions)
    }

    constructor ()
      ensures View() == NEW_CLIENT && Inv(View())
    {
      contexts, connections, questions := [], map[], [];
    }

    method OnOpen(room: Room)
      requires Inv(View())
      modifies this
      ensures View() == Open(old(View()), room) && Inv(View())
    {
      StepKeeps(View(), Opened(room));
      contexts := contexts + [Context(map[], map[], true)];
      connections := connections[room := |contexts| - 1];
    }

    /** Covers both kinds of question; returns nothing when the room is not connected. */
    method Ask(room: Room, text: string, withSources: bool, now: nat) returns (q: Option<nat>)
      requires Inv(View())
      modifies this
      ensures View() == SendQuestion(old(View()), room, text, withSources, now) && Inv(View())
      ensures q == if IsConnected(old(View()), room) then Some(|old(questions)|) else None
    {
      AskKeeps(View(), room, text, withSources, now);
      if room !in connections || !contexts[connections[room]].open {
        return None;
      }
      var k := connections[room];
      var x := contexts[k];
      var id := |questions|;
      questions := questions + [Question(k, text, withSources, now, true, [])];
      if withSources {
        contexts := contexts[k := x.(pendingWithSources := x.pendingWithSources[text := id])];
      } else {
        contexts := contexts[k := x.(pending := x.pending[text := id])];
      }
      q := Some(id);
    }

    method HandleAnswer(room: Room, text: Option<string>, sourcesReadable: bool)
      requires Inv(View())
      modifies this
      ensures View() == ReceiveAnswer(old(View()), room, text, sourcesReadable) && Inv(View())
    {
      StepKeeps(View(), AnswerReceived(room, text, sourcesReadable));
      if room !in connections {
        return;
      }
      var k := connections[room];
      var x := contexts[k];
      var requestKey := if text.None? || text.value == "" then "unknown" else text.value;
      if text.Some? && text.value in x.pendingWithSources {
        var q := x.pendingWithSources[text.value];
        contexts := contexts[k := x.(pendingWithSources := x.pendingWithSources - {text.value})];
        questions := if sourcesReadable then Settle(questions, q, Answered) else Disarm(questions, q);
      } else if requestKey in x.pending {
        questions := Settle(questions, x.pending[requestKey], Answered);
        if text.Some? {
          contexts := contexts[k := x.(pending := x.pending - {text.value})];
        }
      }
    }

    method OnTimeout(q: nat)
      requires Inv(View()) && q < |questions| && questions[q].armed
      modifies this
      ensures View() == FireTimer(old(View()), q) && Inv(View())
    {
      StepKeeps(View(), TimerFired(q));
      assert TimerGuards(questions[q], |contexts|);
      var it := questions[q];
      var x := contexts[it.context];
      if it.withSources {
        x := x.(pendingWithSources := x.pendingWithSources - {it.text});
      } else {
        x := x.(pending := x.pending - {it.text});
      }
      contexts := contexts[it.context := x];
      questions := Settle(questions, q, TimedOut);
    }

    /** The loop over the plain table. Entries have distinct questions, since each has the text it is filed under. */
    method RejectAll(pending: map<string, nat>)
      requires forall text :: text in pending ==> pending[text] < |questions| && questions[pending[text]].text == text
      modifies this`questions
      ensures questions == SettleAll(old(questions), pending.Values)
    {
      var todo := pending.Keys;
      ghost var done := {};
      assert SettleAll(questions, {}) == questions;
      while todo != {}
        invariant todo <= pending.Keys
        invariant done == set text | text in pending && text !in todo :: pending[text]
        invariant questions == SettleAll(old(questions), done)
        decreases |todo|
      {
        var text :| text in todo;
        assert forall other :: other in pending && other != text ==> pending[other] != pending[text];
        SettleAllGrows(old(questions), done, pending[text]);
        questions := Settle(questions, pending[text], Disconnected);
        todo, done := todo - {text}, done + {pending[text]};
      }
      assert done == pending.Values;
    }

    method Disconnect(room: Room)
      requires Inv(View())
      modifies this
      ensures View() == Drop(old(View()), room) && Inv(View())
    {
      StepKeeps(View(), DisconnectCalled(room));
      if room !in connections {
        assert connections - {room} == connections;
        return;
      }
      var k := connections[room];
      var x := contexts[k];
      assert Entries(View(), k);
      RejectAll(x.pending);
      contexts := contexts[k := x.(pending := map[], open := false)];
      connections := connections - {room};
    }
  }
}
