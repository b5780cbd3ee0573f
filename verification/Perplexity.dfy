/**
 Study sessions over the rule engine: rooms send observations, and each handled
 message may propagate at most one rule, no more often than every 500 ms per
 session. The engine's cooldowns are shared by all rooms.
 */
module Perplexity {
  import opened Common
  import opened WfcEngine

  const MIN_PROPAGATION_INTERVAL_MS := 500
  const MAX_TRANSCRIPTS := 50
  const TEXT_STATE_PROTECTION_MS := 5000

  type Room = string

  datatype Action = Action(constraint: Constraint, timestamp: nat)

  datatype Transcript = Transcript(participantId: string, text: string, timestamp: nat)

  /** Participants are in joining order, at most one cell per id. */
  datatype Session = Session(
    participants: seq<Cell>, sessionEntropy: real, entropyLevel: EntropyLevel, actionHistory: seq<Action>,
    lastPropagation: nat, recentTranscripts: seq<Transcript>)

  datatype Firing = Firing(constraint: Constraint, at: nat, room: Room)

  /** `fired` lists every firing of the shared engine, in order. */
  datatype World = World(sessions: map<Room, Session>, last: Triggered, fired: seq<Firing>)

  const NO_SESSIONS := World(map[], map[], [])

  const NEW_SESSION := Session([], 1.0, High, [], 0, [])

  datatype Update = Update(participantId: string, state: Option<CognitiveState>, confidence: Option<real>)

  datatype Message =
    | StartSession
    | EndSession
    | Join(participantId: string)
    | Leave(participantId: string)
    | StateUpdate(participantId: string, state: Option<CognitiveState>, confidence: real)
    | EntropyReport(updates: seq<Update>)
    | TranscriptLine(participantId: string, text: string, inferred: Option<CognitiveState>)

  datatype Event = Event(room: Room, message: Message, now: nat)

  // ---------------------------------------------------------------------------
  // Participants
  // ---------------------------------------------------------------------------

  function Find(cells: seq<Cell>, id: string): (i: nat)
    ensures i <= |cells|
    ensures i < |cells| ==> cells[i].participantId == id
  {
    if cells == [] || cells[0].participantId == id then 0 else 1 + Find(cells[1..], id)
  }

  function Joined(cells: seq<Cell>, id: string, now: nat): seq<Cell> {
    if Find(cells, id) < |cells| then cells else cells + [NewCell(id, now)]
  }

  function Left(cells: seq<Cell>, id: string): seq<Cell> {
    var i := Find(cells, id);
    if i < |cells| then cells[..i] + cells[i + 1..] else cells
  }

  predicate Protected(cell: Cell, now: nat) {
    cell.textInferredAt > 0 && now - cell.textInferredAt < TEXT_STATE_PROTECTION_MS
  }

  function Updated(cells: seq<Cell>, u: Update, now: nat): seq<Cell> {
    var i := Find(cells, u.participantId);
    if i < |cells| && u.state.Some? && !Protected(cells[i], now) then
      cells[i := Collapsed(cells[i], u.state.value, if u.confidence.Some? then u.confidence.value else 0.7, now)]
    else cells
  }

  ghost function UpdatedAll(cells: seq<Cell>, updates: seq<Update>, now: nat): seq<Cell> {
    if updates == [] then cells else Updated(UpdatedAll(cells, Init(updates), now), Last(updates), now)
  }

  function Inferred(cells: seq<Cell>, id: string, state: CognitiveState, now: nat): seq<Cell> {
    var i := Find(cells, id);
    if i < |cells| then cells[i := Collapsed(cells[i], state, 0.9, now).(textInferredAt := now)] else cells
  }

  function Noted(list: seq<Transcript>, t: Transcript): seq<Transcript> {
    var grown := list + [t];
    if |grown| > MAX_TRANSCRIPTS then grown[1..] else grown
  }

  // ---------------------------------------------------------------------------
  // Handling a message
  // ---------------------------------------------------------------------------

  ghost function Refreshed(s: Session): Session {
    var e := SessionEntropy(s.participants);
    s.(sessionEntropy := e, entropyLevel := LevelOf(e))
  }

  function SceneOf(s: Session): Scene {
    Scene(s.participants, s.sessionEntropy, s.entropyLevel)
  }

  predicate Due(s: Session, now: nat) {
    now - s.lastPropagation >= MIN_PROPAGATION_INTERVAL_MS
  }

  function Fires(s: Session, last: Triggered, now: nat): Option<Constraint> {
    if Due(s, now) then Choice(SceneOf(s), last, now) else None
  }

  /** The end of most handlers: `s` is the room's session with the message taken in. */
  function Propagated(w: World, room: Room, s: Session, now: nat): World {
    var sessions := w.sessions[room := Advanced(s, Fires(s, w.last, now), now)];
    match Fires(s, w.last, now)
    case Some(c) => World(sessions, w.last[c := now], w.fired + [Firing(c, now, room)])
    case None => w.(sessions := sessions)
  }

  /** What a propagation that fires `rule` leaves in the session. */
  function Advanced(s: Session, rule: Option<Constraint>, now: nat): Session {
    if !Due(s, now) then s
    else if rule.None? then s.(lastPropagation := now)
    else s.(lastPropagation := now, actionHistory := s.actionHistory + [Action(rule.value, now)])
  }

  /** A spoken line is kept and, if it suggests a state, read into the speaker's cell. */
  function Transcribed(s: Session, id: string, text: string, inferred: Option<CognitiveState>, now: nat): Session {
    var noted := s.(recentTranscripts := Noted(s.recentTranscripts, Transcript(id, text, now)));
    if inferred.None? then noted else noted.(participants := Inferred(s.participants, id, inferred.value, now))
  }

  /** The session with a message taken in, before any propagation. */
  ghost function Taken(s: Session, m: Message, now: nat): Session {
    match m
    case Join(id) => s.(participants := Joined(s.participants, id, now))
    case Leave(id) => s.(participants := Left(s.participants, id))
    case StateUpdate(id, state, confidence) =>
      var i := Find(s.participants, id);
      if i < |s.participants| && state.Some?
      then s.(participants := s.participants[i := Collapsed(s.participants[i], state.value, confidence, now)])
      else s
    case EntropyReport(updates) =>
      Refreshed(s.(participants := UpdatedAll(s.participants, updates, now)))
    case TranscriptLine(id, text, inferred) =>
      if inferred.None? then Transcribed(s, id, text, inferred, now)
      else Refreshed(Transcribed(s, id, text, inferred, now))
    case _ => s
  }

  predicate Propagates(s: Session, m: Message) {
    match m
    case StateUpdate(id, _, _) => Find(s.participants, id) < |s.participants|
    case EntropyReport(_) => true
    case TranscriptLine(_, _, inferred) => inferred.Some?
    case _ => false
  }

  ghost function Handle(w: World, e: Event): World {
    if e.message.StartSession? then w.(sessions := w.sessions[e.room := NEW_SESSION])
    else if e.room !in w.sessions then w
    else if e.message.EndSession? then w.(sessions := w.sessions - {e.room})
    else
      var s := w.sessions[e.room];
      var taken := Taken(s, e.message, e.now);
      if Propagates(s, e.message) then Propagated(w, e.room, taken, e.now)
      else w.(sessions := w.sessions[e.room := taken])
  }

  /** The clock reads at least one; it need not be monotone for what follows. */
  ghost predicate Clocked(events: seq<Event>) {
    forall i :: 0 <= i < |events| ==> events[i].now >= 1
  }

  ghost function Run(events: seq<Event>): World {
    if events == [] then NO_SESSIONS else Handle(Run(Init(events)), Last(events))
  }

  // ---------------------------------------------------------------------------
  // Cells stay well formed
  // ---------------------------------------------------------------------------

  ghost predicate SessionOk(s: Session) {
    && CellsOk(s.participants)
    && 0.0 <= s.sessionEntropy <= 1.0
    && |s.recentTranscripts| <= MAX_TRANSCRIPTS
  }

  ghost predicate SessionsOk(w: World) {
    forall room :: room in w.sessions ==> SessionOk(w.sessions[room])
  }

  lemma ReplaceKeepsCells(cells: seq<Cell>, i: nat, cell: Cell)
    requires CellsOk(cells) && i < |cells| && CellOk(cell)
    ensures CellsOk(cells[i := cell])
  {
  }

  lemma UpdatedKeepsCells(cells: seq<Cell>, u: Update, now: nat)
    requires CellsOk(cells)
    ensures CellsOk(Updated(cells, u, now))
  {
    var i := Find(cells, u.participantId);
    if i < |cells| && u.state.Some? {
      CollapseKeepsCell(cells[i], u.state.value, if u.confidence.Some? then u.confidence.value else 0.7, now);
    }
  }

  lemma {:induction false} UpdatedAllKeepsCells(cells: seq<Cell>, updates: seq<Update>, now: nat)
    requires CellsOk(cells)
    ensures CellsOk(UpdatedAll(cells, updates, now))
  {
    if updates != [] {
      UpdatedAllKeepsCells(cells, Init(updates), now);
      UpdatedKeepsCells(UpdatedAll(cells, Init(updates), now), Last(updates), now);
    }
  }

  lemma InferredKeepsCells(cells: seq<Cell>, id: string, state: CognitiveState, now: nat)
    requires CellsOk(cells)
    ensures CellsOk(Inferred(cells, id, state, now))
  {
    var i := Find(cells, id);
    if i < |cells| {
      CollapseKeepsCell(cells[i], state, 0.9, now);
    }
  }

  lemma JoinKeepsCells(cells: seq<Cell>, id: string, now: nat)
    requires CellsOk(cells)
    ensures CellsOk(Joined(cells, id, now))
  {
    NewCellOk(id, now);
  }

  lemma PropagatedKeeps(w: World, room: Room, s: Session, now: nat)
    requires SessionsOk(w) && SessionOk(s)
    ensures SessionsOk(Propagated(w, room, s, now))
  {
  }

  lemma TakenKeeps(s: Session, m: Message, now: nat)
    requires SessionOk(s)
    ensures SessionOk(Taken(s, m, now))
  {
    match m
    case Join(id) => JoinKeepsCells(s.participants, id, now);
    case StateUpdate(id, state, confidence) =>
      var i := Find(s.participants, id);
      if i < |s.participants| && state.Some? {
        CollapseKeepsCell(s.participants[i], state.value, confidence, now);
        ReplaceKeepsCells(s.participants, i, Collapsed(s.participants[i], state.value, confidence, now));
      }
    case EntropyReport(updates) =>
      UpdatedAllKeepsCells(s.participants, updates, now);
      SessionEntropyRange(UpdatedAll(s.participants, updates, now));
    case TranscriptLine(id, text, inferred) =>
      if inferred.Some? {
        InferredKeepsCells(s.participants, id, inferred.value, now);
        SessionEntropyRange(Inferred(s.participants, id, inferred.value, now));
      }
    case _ =>
  }

  lemma HandleKeepsSessions(w: World, e: Event)
    requires SessionsOk(w)
    ensures SessionsOk(Handle(w, e))
  {
    if e.room in w.sessions {
      var taken := Taken(w.sessions[e.room], e.message, e.now);
      TakenKeeps(w.sessions[e.room], e.message, e.now);
      PropagatedKeeps(w, e.room, taken, e.now);
    }
  }

  /** After any messages: candidates duplicate-free, entropies as counted, session entropy in [0, 1]. */
  lemma {:induction false} CellsAlwaysOk(events: seq<Event>)
    ensures SessionsOk(Run(events))
  {
    if events != [] {
      CellsAlwaysOk(Init(events));
      HandleKeepsSessions(Run(Init(events)), Last(events));
    }
  }

  // ---------------------------------------------------------------------------
  // Cooldowns across all rooms
  // ---------------------------------------------------------------------------

  /** The engine remembers each rule's last firing, and firings of a rule keep their distance. */
  ghost predicate Spaced(fired: seq<Firing>, last: Triggered) {
    && (forall i :: 0 <= i < |fired| ==> fired[i].constraint in last && 1 <= fired[i].at <= last[fired[i].constraint])
    && (forall i, j :: 0 <= i < j < |fired| && fired[i].constraint == fired[j].constraint ==>
          fired[j].at - fired[i].at >= CooldownMs(fired[i].constraint))
  }

  lemma SpacedGrows(fired: seq<Firing>, last: Triggered, c: Constraint, now: nat, room: Room)
    requires Spaced(fired, last) && now >= 1 && !Resting(c, last, now)
    ensures Spaced(fired + [Firing(c, now, room)], last[c := now])
  {
  }

  lemma PropagatedSpaced(w: World, room: Room, s: Session, now: nat)
    requires Spaced(w.fired, w.last) && now >= 1
    ensures Spaced(Propagated(w, room, s, now).fired, Propagated(w, room, s, now).last)
  {
    if Fires(s, w.last, now).Some? {
      ChoiceIsChoice(SceneOf(s), w.last, now);
      SpacedGrows(w.fired, w.last, Fires(s, w.last, now).value, now, room);
    }
  }

  lemma HandleSpaced(w: World, e: Event)
    requires Spaced(w.fired, w.last) && e.now >= 1
    ensures Spaced(Handle(w, e).fired, Handle(w, e).last)
  {
    if e.room in w.sessions {
      PropagatedSpaced(w, e.room, Taken(w.sessions[e.room], e.message, e.now), e.now);
    }
  }

  lemma {:induction false} FiringsSpaced(events: seq<Event>)
    requires Clocked(events)
    ensures Spaced(Run(events).fired, Run(events).last)
  {
    if events != [] {
      FiringsSpaced(Init(events));
      HandleSpaced(Run(Init(events)), Last(events));
    }
  }

  /** How often a rule fired between two moments, both included. */
  ghost function CountFired(fired: seq<Firing>, c: Constraint, from: nat, to: nat): nat {
    if fired == [] then 0
    else
      CountFired(Init(fired), c, from, to) +
      if Last(fired).constraint == c && from <= Last(fired).at <= to then 1 else 0
  }

  ghost predicate GapsOf(fired: seq<Firing>, c: Constraint) {
    forall i, j :: 0 <= i < j < |fired| && fired[i].constraint == c && fired[j].constraint == c ==>
      fired[j].at - fired[i].at >= CooldownMs(c)
  }

  lemma OneGapMore(n: nat, m: nat, x: nat, y: nat, from: nat)
    requires (n - 1) * m <= x - from && y - x >= m
    ensures n * m <= y - from
  {
    assert n * m == (n - 1) * m + m;
  }

  /** The last of n firings in the window is at least n-1 cooldowns after its beginning. */
  lemma {:induction false} WindowFills(fired: seq<Firing>, c: Constraint, from: nat, to: nat) returns (k: nat)
    requires GapsOf(fired, c) && CountFired(fired, c, from, to) > 0
    ensures k < |fired| && fired[k].constraint == c && from <= fired[k].at <= to
    ensures (CountFired(fired, c, from, to) - 1) * CooldownMs(c) <= fired[k].at - from
  {
    var before, n := Init(fired), |fired| - 1;
    var count := CountFired(before, c, from, to);
    if fired[n].constraint == c && from <= fired[n].at <= to {
      k := n;
      if count > 0 {
        var j := WindowFills(before, c, from, to);
        OneGapMore(count, CooldownMs(c), fired[j].at, fired[n].at, from);
      }
    } else {
      k := WindowFills(before, c, from, to);
    }
  }

  lemma CancelTimes(a: nat, b: nat, m: nat)
    requires a * m < b * m
    ensures a < b
  {
    if b <= a {
      TimesMonotone(b, a, m);
    }
  }

  lemma AtMostQuotient(n: nat, m: nat, width: nat)
    requires m > 0 && n * m <= width
    ensures n <= width / m
  {
    var q := width / m;
    assert (q + 1) * m == q * m + m;
    CancelTimes(n, q + 1, m);
  }

  lemma CountBound(n: nat, m: nat, elapsed: nat, width: nat)
    requires m > 0 && n > 0 && (n - 1) * m <= elapsed <= width
    ensures n <= width / m + 1
  {
    AtMostQuotient(n - 1, m, width);
  }

  lemma CountInWindow(fired: seq<Firing>, c: Constraint, from: nat, width: nat)
    requires GapsOf(fired, c)
    ensures CountFired(fired, c, from, from + width) <= width / CooldownMs(c) + 1
  {
    var n := CountFired(fired, c, from, from + width);
    if n > 0 {
      var k := WindowFills(fired, c, from, from + width);
      CountBound(n, CooldownMs(c), fired[k].at - from, width);
    }
  }

  /** Over all rooms together, a rule fires at most W/cooldown + 1 times in any W milliseconds. */
  lemma FiringRate(events: seq<Event>, c: Constraint, from: nat, width: nat)
    requires Clocked(events)
    ensures CountFired(Run(events).fired, c, from, from + width) <= width / CooldownMs(c) + 1
  {
    FiringsSpaced(events);
    CountInWindow(Run(events).fired, c, from, width);
  }

  /** So in any hour, over all rooms, each rule fires at most so many times. */
  lemma HourlyRate(events: seq<Event>, c: Constraint, from: nat)
    requires Clocked(events)
    ensures
      CountFired(Run(events).fired, c, from, from + 3600000) <=
      match c
      case ConfusionIntervention => 61
      case SingleConfusionAssist => 81
      case PeerTeachingOpportunity => 31
      case HighEntropySummary => 21
      case DisengagementBoost => 41
      case AllUnderstoodAdvance => 61
  {
    FiringRate(events, c, from, 3600000);
  }

  // ---------------------------------------------------------------------------
  // A session's actions
  // ---------------------------------------------------------------------------

  ghost predicate Paced(s: Session) {
    && (forall i :: 0 <= i < |s.actionHistory| ==> s.actionHistory[i].timestamp <= s.lastPropagation)
    && (forall i, j :: 0 <= i < j < |s.actionHistory| ==>
          s.actionHistory[j].timestamp - s.actionHistory[i].timestamp >= MIN_PROPAGATION_INTERVAL_MS)
  }

  ghost predicate AllPaced(w: World) {
    forall room :: room in w.sessions ==> Paced(w.sessions[room])
  }

  lemma AdvancedPaced(s: Session, rule: Option<Constraint>, now: nat)
    requires Paced(s)
    ensures Paced(Advanced(s, rule, now))
  {
  }

  lemma PropagatedPaced(w: World, room: Room, s: Session, now: nat)
    requires AllPaced(w) && Paced(s)
    ensures AllPaced(Propagated(w, room, s, now))
  {
    AdvancedPaced(s, Fires(s, w.last, now), now);
  }

  lemma HandlePaced(w: World, e: Event)
    requires AllPaced(w)
    ensures AllPaced(Handle(w, e))
  {
    if e.room in w.sessions {
      var taken := Taken(w.sessions[e.room], e.message, e.now);
      assert Paced(taken);
      PropagatedPaced(w, e.room, taken, e.now);
    }
  }

  /** The entries of a session's history are at least half a second apart. */
  lemma {:induction false} ActionsPaced(events: seq<Event>)
    ensures AllPaced(Run(events))
  {
    if events != [] {
      ActionsPaced(Init(events));
      HandlePaced(Run(Init(events)), Last(events));
    }
  }

  // ---------------------------------------------------------------------------
  // Text beats audio for five seconds
  // ---------------------------------------------------------------------------

  /** No report, however long, touches a cell whose state was read from speech in the last five seconds. */
  lemma {:induction false} ReportSparesProtected(cells: seq<Cell>, updates: seq<Update>, now: nat, i: nat)
    requires i < |cells| && Protected(cells[i], now)
    ensures |UpdatedAll(cells, updates, now)| == |cells| && UpdatedAll(cells, updates, now)[i] == cells[i]
  {
    if updates != [] {
      ReportSparesProtected(cells, Init(updates), now, i);
    }
  }

  /** The participant's cell shows the state its speech suggested at `at`. */
  ghost predicate ShowsSpoken(w: World, room: Room, id: string, state: CognitiveState, at: nat) {
    && room in w.sessions
    && var cells := w.sessions[room].participants;
       var i := Find(cells, id);
       i < |cells| && SpokenCell(cells[i], state, at)
  }

  ghost predicate SpokenCell(cell: Cell, state: CognitiveState, at: nat) {
    && cell.observedState == Some(state) && cell.possibleStates == [state] && cell.entropy == 0.0
    && cell.textInferredAt == at
  }

  /** The event is neither about the participant alone nor the start or end of the room's session. */
  ghost predicate Bystander(e: Event, room: Room, id: string) {
    e.room == room ==>
      match e.message
      case StartSession => false
      case EndSession => false
      case Leave(other) => other != id
      case StateUpdate(other, _, _) => other != id
      case TranscriptLine(other, _, _) => other != id
      case _ => true
  }

  lemma {:induction false} FindSplit(cells: seq<Cell>, i: nat, id: string)
    requires i < |cells| && cells[i].participantId == id && forall j :: 0 <= j < i ==> cells[j].participantId != id
    ensures Find(cells, id) == i
  {
    if i > 0 {
      FindSplit(cells[1..], i - 1, id);
    }
  }

  lemma {:induction false} FindFirst(cells: seq<Cell>, id: string)
    ensures forall j :: 0 <= j < Find(cells, id) ==> cells[j].participantId != id
  {
    if cells != [] && cells[0].participantId != id {
      FindFirst(cells[1..], id);
      forall j | 0 <= j < Find(cells, id)
        ensures cells[j].participantId != id
      {
        assert j > 0 ==> cells[j] == cells[1..][j - 1];
      }
    }
  }

  /** A cell keeps its place when another cell changes under its own id. */
  lemma FindAfterReplace(cells: seq<Cell>, k: nat, cell: Cell, id: string)
    requires k < |cells| && cell.participantId == cells[k].participantId && Find(cells, id) < |cells|
    ensures Find(cells[k := cell], id) == Find(cells, id)
  {
    FindFirst(cells, id);
    FindSplit(cells[k := cell], Find(cells, id), id);
  }

  lemma OtherReplaced(cells: seq<Cell>, k: nat, cell: Cell, id: string)
    requires k < |cells| && cell.participantId == cells[k].participantId != id && Find(cells, id) < |cells|
    ensures Find(cells[k := cell], id) == Find(cells, id) && cells[k := cell][Find(cells, id)] == cells[Find(cells, id)]
  {
    FindAfterReplace(cells, k, cell, id);
  }

  lemma FindAfterJoin(cells: seq<Cell>, other: string, now: nat, id: string)
    requires Find(cells, id) < |cells|
    ensures Find(Joined(cells, other, now), id) == Find(cells, id)
  {
    FindFirst(cells, id);
    FindSplit(Joined(cells, other, now), Find(cells, id), id);
  }

  lemma FindAfterLeave(cells: seq<Cell>, other: string, id: string)
    requires Find(cells, id) < |cells| && other != id
    ensures
      var left, i := Left(cells, other), Find(Left(cells, other), id);
      i < |left| && left[i] == cells[Find(cells, id)]
  {
    var i, k := Find(cells, id), Find(cells, other);
    FindFirst(cells, id);
    if k < |cells| {
      FindAfterRemoval(cells, k, i, id);
    }
  }

  lemma FindAfterRemoval(cells: seq<Cell>, k: nat, i: nat, id: string)
    requires k < |cells| && i < |cells| && k != i && cells[i].participantId == id
    requires forall j :: 0 <= j < i ==> cells[j].participantId != id
    ensures Find(cells[..k] + cells[k + 1..], id) == if k < i then i - 1 else i
  {
    var left, n := cells[..k] + cells[k + 1..], if k < i then i - 1 else i;
    forall j | 0 <= j < n
      ensures left[j].participantId != id
    {
      assert left[j] == if j < k then cells[j] else cells[j + 1];
    }
    FindSplit(left, n, id);
  }

  lemma {:induction false} FindAfterReport(cells: seq<Cell>, updates: seq<Update>, now: nat, id: string)
    requires Find(cells, id) < |cells|
    ensures |UpdatedAll(cells, updates, now)| == |cells| && Find(UpdatedAll(cells, updates, now), id) == Find(cells, id)
  {
    if updates != [] {
      FindAfterReport(cells, Init(updates), now, id);
      var before, u := UpdatedAll(cells, Init(updates), now), Last(updates);
      var k := Find(before, u.participantId);
      if k < |before| {
        FindAfterReplace(before, k, Updated(before, u, now)[k], id);
      }
    }
  }

  /** Taking in a bystander message leaves the spoken state standing. */
  lemma TakenSpares(s: Session, e: Event, id: string, state: CognitiveState, at: nat)
    requires Bystander(e, e.room, id) && 1 <= at && e.now < at + TEXT_STATE_PROTECTION_MS
    requires Find(s.participants, id) < |s.participants|
    requires SpokenCell(s.participants[Find(s.participants, id)], state, at)
    ensures
      var cells := Taken(s, e.message, e.now).participants;
      Find(cells, id) < |cells| && SpokenCell(cells[Find(cells, id)], state, at)
  {
    var cells, i := s.participants, Find(s.participants, id);
    match e.message
    case Join(other) => FindAfterJoin(cells, other, e.now, id);
    case Leave(other) => FindAfterLeave(cells, other, id);
    case EntropyReport(updates) =>
      FindAfterReport(cells, updates, e.now, id);
      ReportSparesProtected(cells, updates, e.now, i);
    case StateUpdate(other, observed, confidence) =>
      var k := Find(cells, other);
      if k < |cells| && observed.Some? {
        OtherReplaced(cells, k, Collapsed(cells[k], observed.value, confidence, e.now), id);
      }
    case TranscriptLine(other, _, inferred) =>
      var k := Find(cells, other);
      if k < |cells| && inferred.Some? {
        OtherReplaced(cells, k, Collapsed(cells[k], inferred.value, 0.9, e.now).(textInferredAt := e.now), id);
      }
    case _ =>
  }

  /** Propagation does not touch the cells. */
  lemma HandledCells(w: World, e: Event)
    requires e.room in w.sessions && !e.message.StartSession? && !e.message.EndSession?
    ensures e.room in Handle(w, e).sessions
    ensures Handle(w, e).sessions[e.room].participants == Taken(w.sessions[e.room], e.message, e.now).participants
  {
  }

  lemma HandleSpares(w: World, e: Event, room: Room, id: string, state: CognitiveState, at: nat)
    requires ShowsSpoken(w, room, id, state, at) && Bystander(e, room, id)
    requires 1 <= at && e.now < at + TEXT_STATE_PROTECTION_MS
    ensures ShowsSpoken(Handle(w, e), room, id, state, at)
  {
    if e.room == room {
      TakenSpares(w.sessions[room], e, id, state, at);
      HandledCells(w, e);
    }
  }

  ghost function HandleAll(w: World, events: seq<Event>): World {
    if events == [] then w else Handle(HandleAll(w, Init(events)), Last(events))
  }

  /** A spoken line that suggests a state makes the cell show it. */
  lemma SpeechShows(w: World, room: Room, id: string, text: string, state: CognitiveState, at: nat)
    requires room in w.sessions && Find(w.sessions[room].participants, id) < |w.sessions[room].participants|
    ensures ShowsSpoken(Handle(w, Event(room, TranscriptLine(id, text, Some(state)), at)), room, id, state, at)
  {
    var cells := w.sessions[room].participants;
    var i := Find(cells, id);
    FindAfterReplace(cells, i, Collapsed(cells[i], state, 0.9, at).(textInferredAt := at), id);
    HandledCells(w, Event(room, TranscriptLine(id, text, Some(state)), at));
  }

  /**
   For five seconds after a spoken line the cell shows the state it suggested,
   through all reports of all rooms, joinings, leavings and what others do or say.
   */
  lemma {:induction false} SpeechProtects(w: World, room: Room, id: string, text: string, state: CognitiveState,
                                          at: nat, events: seq<Event>)
    requires room in w.sessions && Find(w.sessions[room].participants, id) < |w.sessions[room].participants| && at >= 1
    requires forall k :: 0 <= k < |events| ==>
               Bystander(events[k], room, id) && events[k].now < at + TEXT_STATE_PROTECTION_MS
    ensures ShowsSpoken(HandleAll(Handle(w, Event(room, TranscriptLine(id, text, Some(state)), at)), events),
                        room, id, state, at)
  {
    var spoken := Handle(w, Event(room, TranscriptLine(id, text, Some(state)), at));
    if events == [] {
      SpeechShows(w, room, id, text, state, at);
    } else {
      SpeechProtects(w, room, id, text, state, at, Init(events));
      HandleSpares(HandleAll(spoken, Init(events)), events[|events| - 1], room, id, state, at);
    }
  }

  // ---------------------------------------------------------------------------
  // What messages do
  // ---------------------------------------------------------------------------

  /** The message asks for a propagation: an update for a known participant, a report, or a telling line. */
  ghost predicate Asks(s: Session, m: Message) {
    match m
    case StateUpdate(id, _, _) => exists i :: 0 <= i < |s.participants| && s.participants[i].participantId == id
    case EntropyReport(_) => true
    case TranscriptLine(_, _, inferred) => inferred != None
    case _ => false
  }

  /** From `w` to `d`: `choice` fires in the room's session, or nothing does. */
  ghost predicate FiresIn(w: World, d: World, room: Room, s: Session, choice: Option<Constraint>, now: nat) {
    && room in d.sessions
    && match choice
       case Some(c) =>
         && d.fired == w.fired + [Firing(c, now, room)] && d.last == w.last[c := now]
         && d.sessions[room].actionHistory == s.actionHistory + [Action(c, now)]
       case None => d.fired == w.fired && d.last == w.last && d.sessions[room].actionHistory == s.actionHistory
  }

  lemma AsksMeans(s: Session, m: Message)
    ensures Asks(s, m) <==> Propagates(s, m)
  {
    if m.StateUpdate? {
      FindFirst(s.participants, m.participantId);
    }
  }

  /**
   A message that asks for it, at least 500 ms after the session's last propagation,
   fires exactly the rule that is due for the session with the message taken in; one
   that comes earlier, or does not ask, fires nothing.
   */
  lemma PropagationExact(w: World, e: Event) returns (choice: Option<Constraint>)
    requires e.room in w.sessions && !e.message.StartSession? && !e.message.EndSession?
    ensures
      var s, d := w.sessions[e.room], Handle(w, e);
      var due := Asks(s, e.message) && e.now >= s.lastPropagation + 500;
      && (due ==> IsChoice(SceneOf(Taken(s, e.message, e.now)), w.last, e.now, choice))
      && (!due ==> choice == None)
      && FiresIn(w, d, e.room, s, choice, e.now)
      && d.sessions[e.room].lastPropagation == if due then e.now else s.lastPropagation
  {
    var s := w.sessions[e.room];
    var taken := Taken(s, e.message, e.now);
    AsksMeans(s, e.message);
    ChoiceIsChoice(SceneOf(taken), w.last, e.now);
    var due := Asks(s, e.message) && e.now >= s.lastPropagation + 500;
    choice := if due then Choice(SceneOf(taken), w.last, e.now) else None;
    assert taken.lastPropagation == s.lastPropagation && taken.actionHistory == s.actionHistory;
  }

  /** Other rooms and their sessions take no notice. */
  lemma OtherSessionsUntouched(w: World, e: Event, room: Room)
    requires room != e.room
    ensures room in Handle(w, e).sessions <==> room in w.sessions
    ensures room in w.sessions ==> Handle(w, e).sessions[room] == w.sessions[room]
  {
  }

  /** A state update reaches the participant's cell and no other, whatever the last spoken line was. */
  lemma UpdateReachesCell(w: World, room: Room, i: nat, state: CognitiveState, confidence: real, now: nat)
    requires room in w.sessions && i < |w.sessions[room].participants|
    requires Find(w.sessions[room].participants, w.sessions[room].participants[i].participantId) == i
    ensures
      var cells := w.sessions[room].participants;
      var e := Event(room, StateUpdate(cells[i].participantId, Some(state), confidence), now);
      && room in Handle(w, e).sessions
      && Handle(w, e).sessions[room].participants == cells[i := Collapsed(cells[i], state, confidence, now)]
  {
    var cells := w.sessions[room].participants;
    HandledCells(w, Event(room, StateUpdate(cells[i].participantId, Some(state), confidence), now));
  }

  /** The observations a report makes of one cell, in order. */
  ghost function ObservedIn(cell: Cell, updates: seq<Update>, now: nat): Cell {
    if updates == [] then cell
    else
      var before, u := ObservedIn(cell, Init(updates), now), Last(updates);
      if u.participantId != cell.participantId || u.state == None then before
      else Collapsed(before, u.state.value, if u.confidence == None then 0.7 else u.confidence.value, now)
  }

  lemma {:induction false} ObservedKeeps(cell: Cell, updates: seq<Update>, now: nat)
    ensures ObservedIn(cell, updates, now).participantId == cell.participantId
    ensures ObservedIn(cell, updates, now).textInferredAt == cell.textInferredAt
  {
    if updates != [] {
      ObservedKeeps(cell, Init(updates), now);
    }
  }

  /** At most one cell per participant. */
  ghost predicate OneCellEach(cells: seq<Cell>) {
    forall i, j :: 0 <= i < j < |cells| ==> cells[i].participantId != cells[j].participantId
  }

  lemma FindMine(cells: seq<Cell>, i: nat)
    requires OneCellEach(cells) && i < |cells|
    ensures Find(cells, cells[i].participantId) == i
  {
    FindSplit(cells, i, cells[i].participantId);
  }

  lemma UpdatedOne(cells: seq<Cell>, u: Update, now: nat, i: nat)
    requires OneCellEach(cells) && i < |cells|
    ensures |Updated(cells, u, now)| == |cells| && OneCellEach(Updated(cells, u, now))
    ensures
      Updated(cells, u, now)[i] ==
      if u.participantId != cells[i].participantId || u.state == None || Protected(cells[i], now) then cells[i]
      else Collapsed(cells[i], u.state.value, if u.confidence == None then 0.7 else u.confidence.value, now)
  {
    FindMine(cells, i);
  }

  /** A report makes all its observations of a cell, in order, unless speech protects it. */
  lemma {:induction false} ReportReachesCell(cells: seq<Cell>, updates: seq<Update>, now: nat, i: nat)
    requires OneCellEach(cells) && i < |cells|
    ensures |UpdatedAll(cells, updates, now)| == |cells| && OneCellEach(UpdatedAll(cells, updates, now))
    ensures
      UpdatedAll(cells, updates, now)[i] ==
      if cells[i].textInferredAt > 0 && now < cells[i].textInferredAt + 5000 then cells[i]
      else ObservedIn(cells[i], updates, now)
  {
    if updates != [] {
      ReportReachesCell(cells, Init(updates), now, i);
      ObservedKeeps(cells[i], Init(updates), now);
      UpdatedOne(UpdatedAll(cells, Init(updates), now), Last(updates), now, i);
    }
  }

  /** Reports and telling lines bring the session's entropy up to date; nothing else changes it. */
  lemma EntropyFresh(w: World, e: Event)
    requires e.room in w.sessions && !e.message.StartSession? && !e.message.EndSession?
    ensures
      var s, d := w.sessions[e.room], Handle(w, e).sessions[e.room];
      if e.message.EntropyReport? || (e.message.TranscriptLine? && e.message.inferred.Some?)
      then d.sessionEntropy == SessionEntropy(d.participants) && d.entropyLevel == LevelOf(d.sessionEntropy)
      else d.sessionEntropy == s.sessionEntropy && d.entropyLevel == s.entropyLevel
  {
    HandledCells(w, e);
  }

  // ---------------------------------------------------------------------------
  // Lines and participants of a session
  // ---------------------------------------------------------------------------

  ghost function LastFifty(lines: seq<Transcript>): seq<Transcript> {
    if |lines| <= 50 then lines else lines[|lines| - 50..]
  }

  /** The last session event of the room is a start. */
  ghost predicate SessionOpen(events: seq<Event>, room: Room) {
    events != [] &&
    if Last(events).room == room && Last(events).message.StartSession? then true
    else if Last(events).room == room && Last(events).message.EndSession? then false
    else SessionOpen(Init(events), room)
  }

  lemma {:induction false} OpenIsKnown(events: seq<Event>, room: Room)
    ensures room in Run(events).sessions <==> SessionOpen(events, room)
  {
    if events != [] {
      OpenIsKnown(Init(events), room);
    }
  }

  /** Every line spoken in the room's session so far. */
  ghost function LinesSoFar(events: seq<Event>, room: Room): seq<Transcript> {
    if events == [] then []
    else
      var before, e := Init(events), Last(events);
      if e.room != room then LinesSoFar(before, room)
      else
        match e.message
        case StartSession => []
        case TranscriptLine(id, text, _) => LinesSoFar(before, room) + [Transcript(id, text, e.now)]
        case _ => LinesSoFar(before, room)
  }

  lemma HandledLines(w: World, e: Event)
    requires e.room in w.sessions && !e.message.StartSession? && !e.message.EndSession?
    ensures e.room in Handle(w, e).sessions
    ensures
      Handle(w, e).sessions[e.room].recentTranscripts ==
      Taken(w.sessions[e.room], e.message, e.now).recentTranscripts
  {
  }

  lemma NotedKeepsFifty(lines: seq<Transcript>, t: Transcript)
    ensures Noted(LastFifty(lines), t) == LastFifty(lines + [t])
  {
  }

  /** A session remembers the last fifty lines spoken in it, in order. */
  lemma {:induction false} LinesAreRecent(events: seq<Event>, room: Room)
    requires SessionOpen(events, room)
    ensures room in Run(events).sessions
    ensures Run(events).sessions[room].recentTranscripts == LastFifty(LinesSoFar(events, room))
  {
    OpenIsKnown(events, room);
    var w, e := Run(Init(events)), Last(events);
    if e.room != room {
      LinesAreRecent(Init(events), room);
      OtherSessionsUntouched(w, e, room);
    } else if !e.message.StartSession? {
      LinesAreRecent(Init(events), room);
      HandledLines(w, e);
      if e.message.TranscriptLine? {
        NotedKeepsFifty(LinesSoFar(Init(events), room), Transcript(e.message.participantId, e.message.text, e.now));
      }
    }
  }

  /** In this session the participant has joined and not left since. */
  ghost predicate Present(events: seq<Event>, room: Room, id: string) {
    events != [] &&
    var before, e := Init(events), Last(events);
    if e.room != room then Present(before, room, id)
    else
      match e.message
      case StartSession => false
      case EndSession => false
      case Join(other) => if other == id then SessionOpen(before, room) else Present(before, room, id)
      case Leave(other) => other != id && Present(before, room, id)
      case _ => Present(before, room, id)
  }

  ghost predicate HasCell(cells: seq<Cell>, id: string) {
    exists i :: 0 <= i < |cells| && cells[i].participantId == id
  }

  /** Only joining and leaving change who has a cell. */
  ghost predicate SamePeople(a: seq<Cell>, b: seq<Cell>) {
    |a| == |b| && forall i :: 0 <= i < |a| ==> a[i].participantId == b[i].participantId
  }

  lemma {:induction false} ReportSamePeople(cells: seq<Cell>, updates: seq<Update>, now: nat)
    ensures SamePeople(cells, UpdatedAll(cells, updates, now))
  {
    if updates != [] {
      ReportSamePeople(cells, Init(updates), now);
    }
  }

  lemma TakenSamePeople(s: Session, m: Message, now: nat)
    requires !m.Join? && !m.Leave?
    ensures SamePeople(s.participants, Taken(s, m, now).participants)
  {
    if m.EntropyReport? {
      ReportSamePeople(s.participants, m.updates, now);
    }
  }

  lemma SameCells(a: seq<Cell>, b: seq<Cell>, id: string)
    requires SamePeople(a, b)
    ensures (HasCell(a, id) <==> HasCell(b, id)) && (OneCellEach(a) <==> OneCellEach(b))
  {
    if HasCell(a, id) {
      var i :| 0 <= i < |a| && a[i].participantId == id;
      assert b[i].participantId == id;
    }
  }

  lemma JoinAdds(cells: seq<Cell>, other: string, now: nat, id: string)
    requires OneCellEach(cells)
    ensures OneCellEach(Joined(cells, other, now))
    ensures HasCell(Joined(cells, other, now), id) <==> HasCell(cells, id) || id == other
  {
    var d := Joined(cells, other, now);
    FindFirst(cells, other);
    if HasCell(cells, id) {
      var i :| 0 <= i < |cells| && cells[i].participantId == id;
      assert d[i].participantId == id;
    }
    if id == other {
      var i := Find(cells, other);
      assert d[i].participantId == id;
    }
  }

  lemma LeaveRemoves(cells: seq<Cell>, other: string, id: string)
    requires OneCellEach(cells)
    ensures OneCellEach(Left(cells, other))
    ensures HasCell(Left(cells, other), id) <==> HasCell(cells, id) && id != other
  {
    var k, d := Find(cells, other), Left(cells, other);
    FindFirst(cells, other);
    if k < |cells| {
      assert forall j :: 0 <= j < |d| ==> d[j] == if j < k then cells[j] else cells[j + 1];
      if HasCell(cells, id) && id != other {
        var i :| 0 <= i < |cells| && cells[i].participantId == id;
        assert d[if i < k then i else i - 1].participantId == id;
      }
    }
  }

  /** Exactly the participants who have joined and not left since have a cell, one each. */
  lemma {:induction false} PresentIff(events: seq<Event>, room: Room, id: string)
    requires SessionOpen(events, room)
    ensures room in Run(events).sessions
    ensures OneCellEach(Run(events).sessions[room].participants)
    ensures HasCell(Run(events).sessions[room].participants, id) <==> Present(events, room, id)
  {
    OpenIsKnown(events, room);
    var w, e := Run(Init(events)), Last(events);
    if e.room != room {
      PresentIff(Init(events), room, id);
      OtherSessionsUntouched(w, e, room);
    } else if !e.message.StartSession? {
      PresentIff(Init(events), room, id);
      HandledCells(w, e);
      PeopleChange(w.sessions[room], e.message, e.now, id);
    }
  }

  lemma PeopleChange(s: Session, m: Message, now: nat, id: string)
    requires OneCellEach(s.participants)
    ensures OneCellEach(Taken(s, m, now).participants)
    ensures
      HasCell(Taken(s, m, now).participants, id) <==>
      if m == Join(id) then true else if m == Leave(id) then false else HasCell(s.participants, id)
  {
    match m
    case Join(other) => JoinAdds(s.participants, other, now, id);
    case Leave(other) => LeaveRemoves(s.participants, other, id);
    case _ =>
      TakenSamePeople(s, m, now);
      SameCells(s.participants, Taken(s, m, now).participants, id);
  }

  // ---------------------------------------------------------------------------
  // The service
  // ---------------------------------------------------------------------------

  class PerplexityService {
    const engine: Engine
    var sessions: map<Room, Session>
    ghost var fired: seq<Firing>

    ghost function View(): World
      reads this, engine
    {
      World(sessions, engine.lastTriggered, fired)
    }

    constructor ()
      ensures View() == NO_SESSIONS && fresh(engine)
    {
      engine := new Engine();
      sessions, fired := map[], [];
    }

    /** `s` is the room's session with a message taken in. Returns the rule that fired. */
    method TryPropagate(room: Room, s: Session, now: nat) returns (result: Option<Constraint>)
      modifies this, engine
      ensures View() == Propagated(old(View()), room, s, now)
      ensures result == Fires(s, old(engine.lastTriggered), now)
    {
      var session := s;
      if now - session.lastPropagation < MIN_PROPAGATION_INTERVAL_MS {
        sessions := sessions[room := session];
        return None;
      }
      session := session.(lastPropagation := now);
      assert SceneOf(session) == SceneOf(s);
      ChoiceIsChoice(SceneOf(s), engine.lastTriggered, now);
      ghost var last := engine.lastTriggered;
      result := engine.Propagate(SceneOf(session), now);
      ChoiceUnique(SceneOf(s), last, now, result, Choice(SceneOf(s), last, now));
      if result.Some? {
        session := session.(actionHistory := session.actionHistory + [Action(result.value, now)]);
        fired := fired + [Firing(result.value, now, room)];
      }
      sessions := sessions[room := session];
    }

    method HandleStateUpdate(room: Room, id: string, state: Option<CognitiveState>, confidence: real, now: nat)
      returns (result: Option<Constraint>)
      modifies this, engine
      ensures View() == Handle(old(View()), Event(room, StateUpdate(id, state, confidence), now))
    {
      if room !in sessions {
        return None;
      }
      var s := sessions[room];
      var i := Find(s.participants, id);
      if i == |s.participants| {
        assert sessions == sessions[room := s];
        return None;
      }
      if state.Some? {
        var updated := CollapseState(s.participants[i], state.value, confidence, now);
        s := s.(participants := s.participants[i := updated]);
      }
      result := TryPropagate(room, s, now);
    }

    /** The batch loop. */
    method ApplyReport(before: seq<Cell>, updates: seq<Update>, now: nat) returns (cells: seq<Cell>)
      ensures cells == UpdatedAll(before, updates, now)
    {
      cells := before;
      for k := 0 to |updates|
        invariant cells == UpdatedAll(before, updates[..k], now)
      {
        assert Init(updates[..k + 1]) == updates[..k];
        var u := updates[k];
        var i := Find(cells, u.participantId);
        if i < |cells| && u.state.Some? {
          if cells[i].textInferredAt > 0 && now - cells[i].textInferredAt < TEXT_STATE_PROTECTION_MS {
            continue;
          }
          var confidence := if u.confidence.Some? then u.confidence.value else 0.7;
          var updated := CollapseState(cells[i], u.state.value, confidence, now);
          cells := cells[i := updated];
        }
      }
      assert updates[..|updates|] == updates;
    }

    method HandleEntropyReport(room: Room, updates: seq<Update>, now: nat) returns (result: Option<Constraint>)
      modifies this, engine
      ensures View() == Handle(old(View()), Event(room, EntropyReport(updates), now))
    {
      if room !in sessions {
        return None;
      }
      var s := sessions[room];
      var cells := ApplyReport(s.participants, updates, now);
      s := UpdateSessionEntropy(s.(participants := cells));
      result := TryPropagate(room, s, now);
    }

    method UpdateSessionEntropy(s: Session) returns (refreshed: Session)
      ensures refreshed == Refreshed(s)
    {
      var entropy := CalculateSessionEntropy(s.participants);
      refreshed := s.(sessionEntropy := entropy, entropyLevel := LevelOf(entropy));
    }

    /** What state the text suggests is an input. */
    method AddTranscript(before: Session, id: string, text: string, inferred: Option<CognitiveState>, now: nat)
      returns (s: Session)
      ensures s == Transcribed(before, id, text, inferred, now)
    {
      var transcripts := before.recentTranscripts + [Transcript(id, text, now)];
      if |transcripts| > MAX_TRANSCRIPTS {
        transcripts := transcripts[1..];
      }
      s := before.(recentTranscripts := transcripts);
      if inferred.Some? {
        var i := Find(s.participants, id);
        if i < |s.participants| {
          var updated := CollapseState(s.participants[i], inferred.value, 0.9, now);
          updated := updated.(textInferredAt := now);
          s := s.(participants := s.participants[i := updated]);
        }
      }
    }

    /** A spoken line propagates only if it suggests a state. */
    method HandleTranscript(room: Room, id: string, text: string, inferred: Option<CognitiveState>, now: nat)
      returns (result: Option<Constraint>)
      modifies this, engine
      ensures View() == Handle(old(View()), Event(room, TranscriptLine(id, text, inferred), now))
    {
      if room !in sessions {
        return None;
      }
      var s := AddTranscript(sessions[room], id, text, inferred, now);
      if inferred.None? {
        sessions := sessions[room := s];
        return None;
      }
      s := UpdateSessionEntropy(s);
      result := TryPropagate(room, s, now);
    }
  }
}
