/**
 The meeting timers: one countdown per room in a store, one repeating interval per
 counting room, and five commands that start, pause, resume, extend and stop them.
 The runtime's own table of uncleared intervals is part of the state, so that a
 leaked interval would be visible.
 */
module MeetingTimer {
  import opened Common

  type Room = string

  type Handle = nat

  datatype TimerState = Running | Paused | Warning | Ended

  datatype Timer = Timer(targetMinutes: int, warningMinutes: int, remainingSeconds: int, timerState: TimerState)

  datatype Note = WarningNote(room: Room) | EndedNote(room: Room)

  /** `live` is the runtime's table: every interval not yet cleared and the room its closure counts. */
  datatype Timers = Timers(
    store: map<Room, Timer>, intervals: map<Room, Handle>, live: map<Handle, Room>, created: nat, notes: seq<Note>)

  const NO_TIMERS := Timers(map[], map[], map[], 0, [])

  predicate Counting(t: Timer) {
    t.timerState.Running? || t.timerState.Warning?
  }

  // ---------------------------------------------------------------------------
  // Commands
  // ---------------------------------------------------------------------------

  function ClearInterval(s: Timers, room: Room): Timers {
    if room in s.intervals
    then s.(live := s.live - {s.intervals[room]}, intervals := s.intervals - {room})
    else s
  }

  function SetInterval(s: Timers, room: Room): Timers {
    s.(live := s.live[s.created := room], intervals := s.intervals[room := s.created], created := s.created + 1)
  }

  function Put(s: Timers, room: Room, t: Timer): Timers {
    s.(store := s.store[room := t])
  }

  function Start(s: Timers, room: Room, target: int, warning: int): Timers {
    SetInterval(Put(ClearInterval(s, room), room, Timer(target, warning, target * 60, Running)), room)
  }

  function Pause(s: Timers, room: Room): Timers {
    if room !in s.store then s
    else Put(ClearInterval(s, room), room, s.store[room].(timerState := Paused))
  }

  function Resume(s: Timers, room: Room): Timers {
    if room !in s.store || !s.store[room].timerState.Paused? then s
    else SetInterval(Put(s, room, s.store[room].(timerState := Running)), room)
  }

  function Longer(t: Timer, minutes: int): Timer {
    t.(remainingSeconds := t.remainingSeconds + minutes * 60, targetMinutes := t.targetMinutes + minutes)
  }

  function Extend(s: Timers, room: Room, minutes: int): Timers {
    if room !in s.store then s
    else
      var t := s.store[room];
      var longer := Longer(t, minutes);
      if t.timerState.Ended? || t.timerState.Warning? then
        var restarted := Put(s, room, longer.(timerState := Running));
        if room in s.intervals then restarted else SetInterval(restarted, room)
      else Put(s, room, longer)
  }

  function Stop(s: Timers, room: Room): Timers {
    var cleared := ClearInterval(s, room);
    cleared.(store := cleared.store - {room})
  }

  // ---------------------------------------------------------------------------
  // The tick closure
  // ---------------------------------------------------------------------------

  predicate Warns(t: Timer) {
    t.remainingSeconds - 1 == t.warningMinutes * 60 && t.timerState.Running?
  }

  predicate Ends(t: Timer) {
    t.remainingSeconds - 1 <= 0
  }

  function Ticked(t: Timer): Timer {
    if Ends(t) then t.(remainingSeconds := 0, timerState := Ended)
    else t.(remainingSeconds := t.remainingSeconds - 1, timerState := if Warns(t) then Warning else t.timerState)
  }

  function TickNotes(t: Timer, room: Room): seq<Note> {
    (if Warns(t) then [WarningNote(room)] else []) + (if Ends(t) then [EndedNote(room)] else [])
  }

  function Tick(s: Timers, h: Handle): Timers
    requires h in s.live
  {
    var room := s.live[h];
    if room !in s.store || !Counting(s.store[room]) then ClearInterval(s, room)
    else
      var t := s.store[room];
      var kept := if Ends(t) then ClearInterval(s, room) else s;
      Put(kept, room, Ticked(t)).(notes := s.notes + TickNotes(t, room))
  }

  // ---------------------------------------------------------------------------
  // Runs
  // ---------------------------------------------------------------------------

  datatype Event =
    | StartEvent(room: Room, target: int, warning: int)
    | PauseEvent(room: Room)
    | ResumeEvent(room: Room)
    | ExtendEvent(room: Room, minutes: int)
    | StopEvent(room: Room)
    | TickEvent(h: Handle)

  ghost predicate Enabled(s: Timers, e: Event) {
    e.TickEvent? ==> e.h in s.live
  }

  ghost function Step(s: Timers, e: Event): Timers
    requires Enabled(s, e)
  {
    match e
    case StartEvent(room, target, warning) => Start(s, room, target, warning)
    case PauseEvent(room) => Pause(s, room)
    case ResumeEvent(room) => Resume(s, room)
    case ExtendEvent(room, minutes) => Extend(s, room, minutes)
    case StopEvent(room) => Stop(s, room)
    case TickEvent(h) => Tick(s, h)
  }

  ghost predicate IsRun(events: seq<Event>)
    decreases |events|, 0
  {
    events == [] || (IsRun(Init(events)) && Enabled(Run(Init(events)), Last(events)))
  }

  ghost function Run(events: seq<Event>): Timers
    requires IsRun(events)
    decreases |events|, 1
  {
    if events == [] then NO_TIMERS else Step(Run(Init(events)), Last(events))
  }

  // ---------------------------------------------------------------------------
  // No interval leaks
  // ---------------------------------------------------------------------------

  /** Every uncleared interval is the one recorded for its room, and the other way round. */
  ghost predicate Recorded(s: Timers) {
    && (forall h :: h in s.live ==> h < s.created && s.live[h] in s.intervals && s.intervals[s.live[h]] == h)
    && (forall room :: room in s.intervals ==> s.intervals[room] in s.live && s.live[s.intervals[room]] == room)
  }

  /** A room has an interval exactly while its timer is running or warning. */
  ghost predicate Driven(s: Timers) {
    forall room :: room in s.intervals <==> room in s.store && Counting(s.store[room])
  }

  ghost predicate Inv(s: Timers) {
    Recorded(s) && Driven(s)
  }

  lemma ClearKeeps(s: Timers, room: Room)
    requires Recorded(s)
    ensures Recorded(ClearInterval(s, room))
    ensures ClearInterval(s, room).intervals == s.intervals - {room}
  {
  }

  lemma SetKeeps(s: Timers, room: Room)
    requires Recorded(s) && room !in s.intervals
    ensures Recorded(SetInterval(s, room))
  {
  }

  lemma StepKeeps(s: Timers, e: Event)
    requires Inv(s) && Enabled(s, e)
    ensures Inv(Step(s, e))
  {
    match e
    case StartEvent(room, target, warning) => StartKeeps(s, room, target, warning);
    case PauseEvent(room) => ClearKeeps(s, room);
    case ResumeEvent(room) =>
      if room in s.store && s.store[room].timerState.Paused? {
        SetKeeps(Put(s, room, s.store[room].(timerState := Running)), room);
      }
    case ExtendEvent(room, minutes) => ExtendKeeps(s, room, minutes);
    case StopEvent(room) => ClearKeeps(s, room);
    case TickEvent(h) => TickKeeps(s, h);
  }

  lemma StartKeeps(s: Timers, room: Room, target: int, warning: int)
    requires Inv(s)
    ensures Inv(Start(s, room, target, warning))
  {
    ClearKeeps(s, room);
    SetKeeps(Put(ClearInterval(s, room), room, Timer(target, warning, target * 60, Running)), room);
  }

  lemma TickKeeps(s: Timers, h: Handle)
    requires Inv(s) && h in s.live
    ensures Inv(Tick(s, h))
  {
    ClearKeeps(s, s.live[h]);
  }

  lemma ExtendKeeps(s: Timers, room: Room, minutes: int)
    requires Inv(s)
    ensures Inv(Extend(s, room, minutes))
  {
    if room in s.store && s.store[room].timerState.Ended? {
      var t := s.store[room];
      var longer := Longer(t, minutes);
      SetKeeps(Put(s, room, longer.(timerState := Running)), room);
    }
  }

  lemma {:induction false} RunKeeps(events: seq<Event>)
    requires IsRun(events)
    ensures Inv(Run(events))
  {
    if events != [] {
      RunKeeps(Init(events));
      StepKeeps(Run(Init(events)), Last(events));
    }
  }

  // ---------------------------------------------------------------------------
  // Time is conserved
  // ---------------------------------------------------------------------------

  /** The tick takes a second off the room's timer. */
  ghost predicate Counts(s: Timers, e: Event, room: Room) {
    && e.TickEvent? && e.h in s.live && s.live[e.h] == room
    && room in s.store && Counting(s.store[room]) && s.store[room].remainingSeconds > 0
  }

  /** Seconds counted down in the room since its timer was last started. */
  ghost function Counted(events: seq<Event>, room: Room): nat
    requires IsRun(events)
  {
    if events == [] then 0
    else
      var e := Last(events);
      if e.StartEvent? && e.room == room then 0
      else Counted(Init(events), room) + if Counts(Run(Init(events)), e, room) then 1 else 0
  }

  ghost predicate NonNegativeEvent(e: Event) {
    && (e.StartEvent? ==> e.target >= 0)
    && (e.ExtendEvent? ==> e.minutes >= 0)
  }

  ghost predicate NonNegative(events: seq<Event>) {
    forall i :: 0 <= i < |events| ==> NonNegativeEvent(events[i])
  }

  ghost predicate Conserved(s: Timers, room: Room, counted: nat) {
    room in s.store ==>
      && s.store[room].remainingSeconds >= 0
      && s.store[room].targetMinutes * 60 == s.store[room].remainingSeconds + counted
  }

  lemma StepConserves(s: Timers, e: Event, room: Room, counted: nat)
    requires Enabled(s, e) && NonNegativeEvent(e) && Conserved(s, room, counted)
    requires !(e.StartEvent? && e.room == room)
    ensures Conserved(Step(s, e), room, counted + if Counts(s, e, room) then 1 else 0)
  {
  }

  /** What the timer was given is what remains plus what has been counted. */
  lemma {:induction false} TimeConserved(events: seq<Event>, room: Room)
    requires IsRun(events) && NonNegative(events)
    ensures Conserved(Run(events), room, Counted(events, room))
  {
    if events != [] {
      TimeConserved(Init(events), room);
      var e := Last(events);
      assert NonNegativeEvent(e);
      if !(e.StartEvent? && e.room == room) {
        StepConserves(Run(Init(events)), e, room, Counted(Init(events), room));
      }
    }
  }

  // ---------------------------------------------------------------------------
  // Warnings
  // ---------------------------------------------------------------------------

  /** Event `k` of the run emits a warning for the room. */
  ghost predicate WarnsAt(events: seq<Event>, k: nat, room: Room)
    requires IsRun(events)
  {
    && k < |events|
    && IsRun(events[..k]) && Enabled(Run(events[..k]), events[k])
    && events[k].TickEvent?
    && var s := Run(events[..k]);
       s.live[events[k].h] == room && room in s.store && Counting(s.store[room]) && Warns(s.store[room])
  }

  ghost predicate ReplacedAt(events: seq<Event>, k: nat, room: Room) {
    k < |events| && ((events[k].StartEvent? && events[k].room == room) || events[k] == StopEvent(room))
  }

  ghost predicate ExtendedAt(events: seq<Event>, k: nat, room: Room) {
    k < |events| && events[k].ExtendEvent? && events[k].room == room
  }

  /** The threshold has been passed and only an extension can bring it back. */
  ghost predicate Spent(s: Timers, room: Room) {
    room in s.store &&
    (s.store[room].remainingSeconds <= s.store[room].warningMinutes * 60 || s.store[room].remainingSeconds == 0)
  }

  lemma {:induction false} PrefixRuns(events: seq<Event>, k: nat)
    requires IsRun(events) && k <= |events|
    ensures IsRun(events[..k])
    ensures k < |events| ==> Enabled(Run(events[..k]), events[k]) && IsRun(events[..k + 1]) &&
                             Run(events[..k + 1]) == Step(Run(events[..k]), events[k])
    decreases |events|
  {
    if k == |events| {
      assert events[..k] == events;
    } else if k == |events| - 1 {
      assert events[..k] == Init(events) && events[..k + 1] == events;
    } else {
      PrefixRuns(Init(events), k);
      assert Init(events)[..k] == events[..k] && Init(events)[..k + 1] == events[..k + 1];
    }
  }

  lemma SpentKeeps(s: Timers, e: Event, room: Room)
    requires Spent(s, room) && Enabled(s, e)
    requires !(e.StartEvent? && e.room == room) && e != StopEvent(room) && !(e.ExtendEvent? && e.room == room)
    ensures Spent(Step(s, e), room)
  {
  }

  lemma WarningSpends(s: Timers, h: Handle, room: Room)
    requires h in s.live && s.live[h] == room && room in s.store && Counting(s.store[room]) && Warns(s.store[room])
    ensures Spent(Tick(s, h), room)
  {
  }

  lemma SpentBegins(events: seq<Event>, i: nat, room: Room)
    requires IsRun(events) && WarnsAt(events, i, room)
    ensures IsRun(events[..i + 1]) && Spent(Run(events[..i + 1]), room)
  {
    PrefixRuns(events, i);
    WarningSpends(Run(events[..i]), events[i].h, room);
  }

  lemma SpentGoesOn(events: seq<Event>, j: nat, room: Room)
    requires IsRun(events) && j < |events| && IsRun(events[..j]) && Spent(Run(events[..j]), room)
    requires !ReplacedAt(events, j, room) && !ExtendedAt(events, j, room)
    ensures IsRun(events[..j + 1]) && Spent(Run(events[..j + 1]), room)
  {
    PrefixRuns(events, j);
    SpentKeeps(Run(events[..j]), events[j], room);
  }

  /** The room's timer is neither replaced nor extended from event `a` up to `j`. */
  ghost predicate Untouched(events: seq<Event>, a: nat, j: nat, room: Room) {
    forall k: nat :: a <= k < j ==> !ReplacedAt(events, k, room) && !ExtendedAt(events, k, room)
  }

  lemma {:induction false} SpentLasts(events: seq<Event>, a: nat, j: nat, room: Room)
    requires IsRun(events) && a <= j <= |events| && IsRun(events[..a]) && Spent(Run(events[..a]), room)
    requires Untouched(events, a, j, room)
    ensures IsRun(events[..j]) && Spent(Run(events[..j]), room)
    decreases j
  {
    if a < j {
      SpentLasts(events, a, j - 1, room);
      SpentGoesOn(events, j - 1, room);
    }
  }

  lemma SpentDoesNotWarn(events: seq<Event>, j: nat, room: Room)
    requires IsRun(events) && WarnsAt(events, j, room)
    ensures IsRun(events[..j]) && !Spent(Run(events[..j]), room)
  {
  }

  lemma TouchedBetween(events: seq<Event>, i: nat, j: nat, room: Room)
    requires IsRun(events) && i < j && WarnsAt(events, i, room) && WarnsAt(events, j, room)
    ensures !Untouched(events, i + 1, j, room)
  {
    SpentDoesNotWarn(events, j, room);
    if Untouched(events, i + 1, j, room) {
      SpentBegins(events, i, room);
      SpentLasts(events, i + 1, j, room);
    }
  }

  /** Two warnings of one timer have an extension between them. */
  lemma WarnsOncePerExtension(events: seq<Event>, i: nat, j: nat, room: Room)
    requires IsRun(events) && i < j && WarnsAt(events, i, room) && WarnsAt(events, j, room)
    requires forall k :: i < k < j ==> !ReplacedAt(events, k, room)
    ensures exists k: nat :: i < k < j && ExtendedAt(events, k, room)
  {
    TouchedBetween(events, i, j, room);
  }

  // ---------------------------------------------------------------------------
  // A timer left alone
  // ---------------------------------------------------------------------------

  /** The timer and its notes after `n` ticks and nothing else. */
  ghost function AfterTicks(t: Timer, room: Room, n: nat): (Timer, seq<Note>) {
    if n == 0 then (t, [])
    else
      var (u, notes) := AfterTicks(t, room, n - 1);
      if Counting(u) then (Ticked(u), notes + TickNotes(u, room)) else (u, notes)
  }

  ghost function AloneNotes(room: Room, target: nat, warning: nat, n: nat): seq<Note> {
    (if warning < target && n >= (target - warning) * 60 then [WarningNote(room)] else []) +
    (if n >= target * 60 then [EndedNote(room)] else [])
  }

  ghost function AloneState(target: nat, warning: nat, n: nat): TimerState {
    if n >= target * 60 then Ended
    else if warning < target && n >= (target - warning) * 60 then Warning
    else Running
  }

  /**
   Left alone, a timer warns exactly once, at tick (target-warning)*60, if the
   warning is shorter than the target, and never otherwise; and it ends exactly
   once, at tick target*60.
   */
  lemma {:induction false} LeftAlone(room: Room, target: nat, warning: nat, n: nat)
    requires target > 0
    ensures
      var (t, notes) := AfterTicks(Timer(target, warning, target * 60, Running), room, n);
      && notes == AloneNotes(room, target, warning, n)
      && t == Timer(target, warning, if n >= target * 60 then 0 else target * 60 - n, AloneState(target, warning, n))
  {
    if n > 0 {
      LeftAlone(room, target, warning, n - 1);
    }
  }

  ghost function NotesFor(notes: seq<Note>, room: Room): seq<Note> {
    if notes == [] then []
    else NotesFor(Init(notes), room) + if Last(notes).room == room then [Last(notes)] else []
  }

  lemma {:induction false} NotesForConcat(a: seq<Note>, b: seq<Note>, room: Room)
    ensures NotesFor(a + b, room) == NotesFor(a, room) + NotesFor(b, room)
  {
    if b == [] {
      assert a + b == a;
    } else {
      assert Init(a + b) == a + Init(b) && Last(a + b) == Last(b);
      NotesForConcat(a, Init(b), room);
    }
  }

  lemma NotesForTick(t: Timer, r: Room, room: Room)
    ensures NotesFor(TickNotes(t, r), room) == if r == room then TickNotes(t, r) else []
  {
    var w, e := (if Warns(t) then [WarningNote(r)] else []), (if Ends(t) then [EndedNote(r)] else []);
    NotesForConcat(w, e, room);
    assert NotesFor(w, room) == if r == room then w else [];
    assert NotesFor(e, room) == if r == room then e else [];
  }

  ghost predicate Commands(e: Event, room: Room) {
    !e.TickEvent? && e.room == room
  }

  /** Ticks of the room's own interval after event `k`. */
  ghost function TicksSince(events: seq<Event>, k: nat, room: Room): nat
    requires IsRun(events)
  {
    if |events| <= k + 1 then 0
    else
      TicksSince(Init(events), k, room) +
      if Last(events).TickEvent? && Run(Init(events)).live[Last(events).h] == room then 1 else 0
  }

  /** From `s` to `s'` the room saw one tick of its own, or nothing. */
  ghost predicate PassedBy(s: Timers, s': Timers, room: Room, own: bool)
    requires room in s.store
  {
    && room in s'.store
    && s'.store[room] == (if own then Ticked(s.store[room]) else s.store[room])
    && (own ==> Counting(s.store[room]))
    && NotesFor(s'.notes, room) == NotesFor(s.notes, room) + if own then TickNotes(s.store[room], room) else []
  }

  lemma TickPassesBy(s: Timers, h: Handle, room: Room)
    requires Inv(s) && h in s.live && room in s.store
    ensures PassedBy(s, Tick(s, h), room, s.live[h] == room)
  {
    var r := s.live[h];
    assert r in s.intervals && Counting(s.store[r]);
    NotesForConcat(s.notes, TickNotes(s.store[r], r), room);
    NotesForTick(s.store[r], r, room);
    assert NotesFor(s.notes, room) + [] == NotesFor(s.notes, room);
  }

  lemma CommandPassesBy(s: Timers, e: Event, room: Room)
    requires Enabled(s, e) && !e.TickEvent? && e.room != room && room in s.store
    ensures Step(s, e).notes == s.notes && room in Step(s, e).store && Step(s, e).store[room] == s.store[room]
  {
    match e
    case StartEvent(_, _, _) =>
    case PauseEvent(_) =>
    case ResumeEvent(_) =>
    case ExtendEvent(_, _) =>
    case StopEvent(_) =>
  }

  lemma OtherEventsPassBy(s: Timers, e: Event, room: Room)
    requires Inv(s) && Enabled(s, e) && room in s.store && !Commands(e, room)
    ensures PassedBy(s, Step(s, e), room, e.TickEvent? && s.live[e.h] == room)
  {
    if e.TickEvent? {
      TickPassesBy(s, e.h, room);
    } else {
      CommandPassesBy(s, e, room);
      assert NotesFor(s.notes, room) + [] == NotesFor(s.notes, room);
    }
  }

  /** The room holds what `n` ticks alone make of `t`, and has said, after `before`, what they make it say. */
  ghost predicate OnItsOwn(s: Timers, room: Room, t: Timer, n: nat, before: seq<Note>) {
    && room in s.store
    && s.store[room] == AfterTicks(t, room, n).0
    && NotesFor(s.notes, room) == before + AfterTicks(t, room, n).1
  }

  lemma StartsOnItsOwn(s: Timers, room: Room, target: int, warning: int)
    ensures OnItsOwn(Start(s, room, target, warning), room, Timer(target, warning, target * 60, Running), 0,
                     NotesFor(s.notes, room))
  {
  }

  lemma StaysOnItsOwn(s: Timers, s': Timers, own: bool, room: Room, t: Timer, n: nat, before: seq<Note>)
    requires OnItsOwn(s, room, t, n, before) && PassedBy(s, s', room, own)
    ensures OnItsOwn(s', room, t, n + (if own then 1 else 0), before)
  {
    var u := s.store[room];
    if own {
      assert AfterTicks(t, room, n + 1).0 == Ticked(u);
      assert AfterTicks(t, room, n + 1).1 == AfterTicks(t, room, n).1 + TickNotes(u, room);
    } else {
      assert NotesFor(s.notes, room) + [] == NotesFor(s.notes, room);
    }
  }

  lemma TicksOnlyStep(events: seq<Event>, k: nat, room: Room, t: Timer, said: seq<Note>)
    requires IsRun(events) && k + 1 < |events| && !Commands(Last(events), room)
    requires OnItsOwn(Run(Init(events)), room, t, TicksSince(Init(events), k, room), said)
    ensures OnItsOwn(Run(events), room, t, TicksSince(events, k, room), said)
  {
    var s, e := Run(Init(events)), Last(events);
    RunKeeps(Init(events));
    OtherEventsPassBy(s, e, room);
    var own := e.TickEvent? && s.live[e.h] == room;
    StaysOnItsOwn(s, Run(events), own, room, t, TicksSince(Init(events), k, room), said);
  }

  lemma {:induction false} TicksOnly(events: seq<Event>, k: nat, room: Room)
    requires IsRun(events) && k < |events| && events[k].StartEvent? && events[k].room == room
    requires forall j :: k < j < |events| ==> !Commands(events[j], room)
    ensures IsRun(events[..k])
    ensures OnItsOwn(Run(events), room, Timer(events[k].target, events[k].warning, events[k].target * 60, Running),
                     TicksSince(events, k, room), NotesFor(Run(events[..k]).notes, room))
    decreases |events|
  {
    var before, e := Init(events), events[k];
    if k == |events| - 1 {
      assert events[..k] == before;
      StartsOnItsOwn(Run(before), room, e.target, e.warning);
    } else {
      assert before[..k] == events[..k];
      TicksOnly(before, k, room);
      assert Last(events) == events[|events| - 1];
      TicksOnlyStep(events, k, room, Timer(e.target, e.warning, e.target * 60, Running),
                    NotesFor(Run(events[..k]).notes, room));
    }
  }

  /**
   In any run, whatever happens to other rooms: a room started with a positive
   target and then given no command has, after n ticks of its own, warned and
   ended exactly as the closed form says.
   */
  lemma StartedAndLeftAlone(events: seq<Event>, k: nat, room: Room)
    requires IsRun(events) && k < |events| && events[k].StartEvent? && events[k].room == room
    requires events[k].target > 0 && events[k].warning >= 0
    requires forall j :: k < j < |events| ==> !Commands(events[j], room)
    ensures IsRun(events[..k])
    ensures
      var n := TicksSince(events, k, room);
      && room in Run(events).store
      && Run(events).store[room].timerState == AloneState(events[k].target, events[k].warning, n)
      && NotesFor(Run(events).notes, room) ==
           NotesFor(Run(events[..k]).notes, room) + AloneNotes(room, events[k].target, events[k].warning, n)
  {
    TicksOnly(events, k, room);
    LeftAlone(room, events[k].target, events[k].warning, TicksSince(events, k, room));
  }

  // ---------------------------------------------------------------------------
  // What the commands do
  // ---------------------------------------------------------------------------

  /** The room's timer, and whether a live interval counts it. */
  ghost predicate Shows(s: Timers, room: Room, t: Timer, counted: bool) {
    && room in s.store && s.store[room] == t
    && (counted <==> exists h :: h in s.live && s.live[h] == room)
  }

  lemma CountedMeans(s: Timers, room: Room)
    requires Inv(s)
    ensures (exists h :: h in s.live && s.live[h] == room) <==> room in s.store && Counting(s.store[room])
  {
    if room in s.intervals {
      assert s.live[s.intervals[room]] == room;
    }
  }

  /** A started timer runs, with all its time before it. */
  lemma StartShows(s: Timers, room: Room, target: int, warning: int)
    requires Inv(s)
    ensures Shows(Step(s, StartEvent(room, target, warning)), room, Timer(target, warning, target * 60, Running), true)
  {
    StepKeeps(s, StartEvent(room, target, warning));
    CountedMeans(Step(s, StartEvent(room, target, warning)), room);
  }

  /** A paused timer keeps its time, and nothing counts it. */
  lemma PauseShows(s: Timers, room: Room)
    requires Inv(s) && room in s.store
    ensures
      var t := s.store[room];
      Shows(Step(s, PauseEvent(room)), room,
            Timer(t.targetMinutes, t.warningMinutes, t.remainingSeconds, Paused), false)
  {
    StepKeeps(s, PauseEvent(room));
    CountedMeans(Step(s, PauseEvent(room)), room);
  }

  /** A paused timer that is resumed runs on with the time it had; any other is left as it is. */
  lemma ResumeShows(s: Timers, room: Room)
    requires Inv(s) && room in s.store
    ensures
      var t := s.store[room];
      if t.timerState == Paused
      then Shows(Step(s, ResumeEvent(room)), room,
                 Timer(t.targetMinutes, t.warningMinutes, t.remainingSeconds, Running), true)
      else Step(s, ResumeEvent(room)) == s
  {
    StepKeeps(s, ResumeEvent(room));
    CountedMeans(Step(s, ResumeEvent(room)), room);
  }

  /** An extended timer has the minutes more; one that warned or had ended runs again, a paused one stays paused. */
  lemma ExtendShows(s: Timers, room: Room, minutes: int)
    requires Inv(s) && room in s.store
    ensures
      var t := s.store[room];
      Shows(Step(s, ExtendEvent(room, minutes)), room,
            Timer(t.targetMinutes + minutes, t.warningMinutes, t.remainingSeconds + 60 * minutes,
                  if t.timerState == Paused then Paused else Running),
            t.timerState != Paused)
  {
    StepKeeps(s, ExtendEvent(room, minutes));
    CountedMeans(Step(s, ExtendEvent(room, minutes)), room);
  }

  /** A stopped timer is gone, and so is its interval. Without a timer, the other commands change nothing. */
  lemma StopShows(s: Timers, room: Room)
    requires Inv(s)
    ensures
      var d := Step(s, StopEvent(room));
      room !in d.store && forall h :: h in d.live ==> d.live[h] != room
    ensures room !in s.store ==>
              Step(s, PauseEvent(room)) == s && Step(s, ResumeEvent(room)) == s &&
              forall minutes :: Step(s, ExtendEvent(room, minutes)) == s
  {
    StepKeeps(s, StopEvent(room));
    CountedMeans(Step(s, StopEvent(room)), room);
  }

  /** The event is a command of the room other than a pause. */
  ghost predicate Wakes(e: Event, room: Room) {
    Commands(e, room) && !e.PauseEvent?
  }

  lemma PausedStep(s: Timers, e: Event, room: Room, t: Timer)
    requires Inv(s) && Enabled(s, e) && Shows(s, room, t, false) && t.timerState == Paused && !Wakes(e, room)
    ensures Shows(Step(s, e), room, t, false) && NotesFor(Step(s, e).notes, room) == NotesFor(s.notes, room)
  {
    StepKeeps(s, e);
    CountedMeans(Step(s, e), room);
    if !Commands(e, room) {
      OtherEventsPassBy(s, e, room);
      assert NotesFor(s.notes, room) + [] == NotesFor(s.notes, room);
    }
  }

  /**
   From a pause to the room's next resume, extension, start or stop its timer is
   paused with the time it had, and says nothing, whatever other rooms do.
   */
  lemma {:induction false} PausedStays(events: seq<Event>, k: nat, room: Room)
    requires IsRun(events) && k < |events| && events[k] == PauseEvent(room)
    requires IsRun(events[..k]) && room in Run(events[..k]).store
    requires forall j :: k < j < |events| ==> !Wakes(events[j], room)
    ensures
      var t := Run(events[..k]).store[room];
      Shows(Run(events), room, Timer(t.targetMinutes, t.warningMinutes, t.remainingSeconds, Paused), false)
    ensures NotesFor(Run(events).notes, room) == NotesFor(Run(events[..k]).notes, room)
    decreases |events|
  {
    var before := Init(events);
    RunKeeps(before);
    if k == |events| - 1 {
      assert events[..k] == before;
      PauseShows(Run(before), room);
    } else {
      assert before[..k] == events[..k];
      PausedStays(before, k, room);
      var t := Run(events[..k]).store[room];
      assert !Wakes(events[|events| - 1], room);
      PausedStep(Run(before), Last(events), room,
                 Timer(t.targetMinutes, t.warningMinutes, t.remainingSeconds, Paused));
    }
  }

  /** From any event on, a room given no command is changed by its own ticks only. */
  lemma {:induction false} LeftToTicks(events: seq<Event>, k: nat, room: Room)
    requires IsRun(events) && k < |events| && IsRun(events[..k + 1]) && room in Run(events[..k + 1]).store
    requires forall j :: k < j < |events| ==> !Commands(events[j], room)
    ensures OnItsOwn(Run(events), room, Run(events[..k + 1]).store[room], TicksSince(events, k, room),
                     NotesFor(Run(events[..k + 1]).notes, room))
    decreases |events|
  {
    var before := Init(events);
    if k == |events| - 1 {
      assert events[..k + 1] == events;
    } else {
      assert before[..k + 1] == events[..k + 1];
      LeftToTicks(before, k, room);
      assert !Commands(events[|events| - 1], room);
      TicksOnlyStep(events, k, room, Run(events[..k + 1]).store[room], NotesFor(Run(events[..k + 1]).notes, room));
    }
  }

  /** The warning comes when the threshold is reached from above, if it has not come before. */
  ghost predicate WarnsWithin(t: Timer, n: nat) {
    t.timerState == Running && t.warningMinutes * 60 < t.remainingSeconds &&
    n >= t.remainingSeconds - t.warningMinutes * 60
  }

  /** A counting timer after `n` seconds, from whatever time it has left. */
  lemma {:induction false} CountsDown(room: Room, t: Timer, n: nat)
    requires Counting(t) && t.remainingSeconds > 0 && t.warningMinutes >= 0
    ensures
      var (u, notes) := AfterTicks(t, room, n);
      var ended := n >= t.remainingSeconds;
      && u == Timer(t.targetMinutes, t.warningMinutes, if ended then 0 else t.remainingSeconds - n,
                    if ended then Ended else if WarnsWithin(t, n) then Warning else t.timerState)
      && notes == (if WarnsWithin(t, n) then [WarningNote(room)] else []) + (if ended then [EndedNote(room)] else [])
  {
    if n > 0 {
      CountsDown(room, t, n - 1);
    }
  }

  /** A timer resumed with time left counts on from there. */
  lemma ResumedCountsOn(events: seq<Event>, k: nat, room: Room)
    requires IsRun(events) && k < |events| && events[k] == ResumeEvent(room) && IsRun(events[..k])
    requires room in Run(events[..k]).store && Run(events[..k]).store[room].timerState == Paused
    requires Run(events[..k]).store[room].remainingSeconds > 0 && Run(events[..k]).store[room].warningMinutes >= 0
    requires forall j :: k < j < |events| ==> !Commands(events[j], room)
    ensures
      var left, n := Run(events[..k]).store[room].remainingSeconds, TicksSince(events, k, room);
      && room in Run(events).store
      && Run(events).store[room].remainingSeconds == (if n >= left then 0 else left - n)
      && (Run(events).store[room].timerState == Ended <==> n >= left)
  {
    PrefixRuns(events, k);
    RunKeeps(events[..k]);
    ResumeShows(Run(events[..k]), room);
    LeftToTicks(events, k, room);
    CountsDown(room, Run(events[..k + 1]).store[room], TicksSince(events, k, room));
  }

  /** The warning time the voice command chooses: 15% of the target, but at least a minute. */
  function VoiceWarning(target: nat): nat {
    var w := target * 15 / 100;
    if w < 1 then 1 else w
  }

  lemma VoiceWarningFits(target: nat)
    requires target >= 1
    ensures 0 < VoiceWarning(target)
    ensures VoiceWarning(target) < target <==> target >= 2
  {
  }

  // ---------------------------------------------------------------------------
  // The module's state
  // ---------------------------------------------------------------------------

  class TimerTool {
    var timerStore: map<Room, Timer>
    var timerIntervals: map<Room, Handle>
    var live: map<Handle, Room>
    var created: nat
    var notes: seq<Note>

    ghost function View(): Timers
      reads this
    {
      Timers(timerStore, timerIntervals, live, created, notes)
    }

    constructor ()
      ensures View() == NO_TIMERS && Inv(View())
    {
      timerStore, timerIntervals, live, created, notes := map[], map[], map[], 0, [];
    }

    method StopTimerInterval(room: Room)
      modifies this`timerIntervals, this`live
      ensures View() == ClearInterval(old(View()), room)
    {
      if room in timerIntervals {
        live := live - {timerIntervals[room]};
        timerIntervals := timerIntervals - {room};
      }
    }

    method StartInterval(room: Room)
      modifies this`timerIntervals, this`live, this`created
      ensures View() == SetInterval(old(View()), room)
    {
      var interval := created;
      live := live[interval := room];
      created := created + 1;
      timerIntervals := timerIntervals[room := interval];
    }

    method StartTimer(room: Room, target: int, warning: int) returns (timer: Timer)
      requires Inv(View())
      modifies this
      ensures View() == Start(old(View()), room, target, warning) && Inv(View())
      ensures room in timerStore && timer == timerStore[room]
    {
      StepKeeps(View(), StartEvent(room, target, warning));
      StopTimerInterval(room);
      timer := Timer(target, warning, target * 60, Running);
      timerStore := timerStore[room := timer];
      StartInterval(room);
    }

    method PauseTimer(room: Room) returns (timer: Option<Timer>)
      requires Inv(View())
      modifies this
      ensures View() == Pause(old(View()), room) && Inv(View())
      ensures timer == if room in timerStore then Some(timerStore[room]) else None
    {
      StepKeeps(View(), PauseEvent(room));
      if room !in timerStore {
        return None;
      }
      StopTimerInterval(room);
      timerStore := timerStore[room := timerStore[room].(timerState := Paused)];
      timer := Some(timerStore[room]);
    }

    method ResumeTimer(room: Room) returns (timer: Option<Timer>)
      requires Inv(View())
      modifies this
      ensures View() == Resume(old(View()), room) && Inv(View())
      ensures timer.Some? <==> room in old(timerStore) && old(timerStore)[room].timerState.Paused?
    {
      StepKeeps(View(), ResumeEvent(room));
      if room !in timerStore || timerStore[room].timerState != Paused {
        return None;
      }
      timerStore := timerStore[room := timerStore[room].(timerState := Running)];
      StartInterval(room);
      timer := Some(timerStore[room]);
    }

    method ExtendTimer(room: Room, minutes: int) returns (timer: Option<Timer>)
      requires Inv(View())
      modifies this
      ensures View() == Extend(old(View()), room, minutes) && Inv(View())
      ensures timer == if room in timerStore then Some(timerStore[room]) else None
    {
      ExtendKeeps(View(), room, minutes);
      if room !in timerStore {
        return None;
      }
      var t := timerStore[room];
      t := t.(remainingSeconds := t.remainingSeconds + minutes * 60, targetMinutes := t.targetMinutes + minutes);
      if t.timerState == Ended || t.timerState == Warning {
        t := t.(timerState := Running);
        if room !in timerIntervals {
          StartInterval(room);
        }
      }
      timerStore := timerStore[room := t];
      timer := Some(t);
    }

    method StopTimer(room: Room) returns (timer: Option<Timer>)
      requires Inv(View())
      modifies this
      ensures View() == Stop(old(View()), room) && Inv(View())
      ensures timer == if room in old(timerStore) then Some(old(timerStore)[room]) else None
    {
      StepKeeps(View(), StopEvent(room));
      timer := if room in timerStore then Some(timerStore[room]) else None;
      StopTimerInterval(room);
      timerStore := timerStore - {room};
    }

    /** The closure of an interval; the three copies in the program are one. */
    method OnTick(h: Handle)
      requires h in live
      modifies this
      ensures View() == Tick(old(View()), h)
      ensures old(Inv(View())) ==> Inv(View())
    {
      if Inv(View()) {
        StepKeeps(View(), TickEvent(h));
      }
      var room := live[h];
      if room !in timerStore || (timerStore[room].timerState != Running && timerStore[room].timerState != Warning) {
        StopTimerInterval(room);
        return;
      }
      var t := timerStore[room];
      var ended;
      t, ended := CountDown(room, t);
      if ended {
        StopTimerInterval(room);
      }
      timerStore := timerStore[room := t];
    }

    /** One second off: what becomes of the timer, and what is announced. */
    method CountDown(room: Room, timer: Timer) returns (t: Timer, ended: bool)
      modifies this`notes
      ensures t == Ticked(timer) && ended == Ends(timer) && notes == old(notes) + TickNotes(timer, room)
    {
      ended := false;
      t := timer.(remainingSeconds := timer.remainingSeconds - 1);
      var warningThreshold := t.warningMinutes * 60;
      if t.remainingSeconds == warningThreshold && t.timerState == Running {
        t := t.(timerState := Warning);
        notes := notes + [WarningNote(room)];
      }
      if t.remainingSeconds <= 0 {
        t := t.(remainingSeconds := 0, timerState := Ended);
        ended := true;
        notes := notes + [EndedNote(room)];
      }
    }
  }
}
