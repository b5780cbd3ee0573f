/**
 One room's response lock. A voice request takes the lock by setting
 `isPublishing` and stamping `currentRequestId` with the time, works across many
 awaits, and releases the lock on exit if the stamp is still its own. To speak, it
 has the text synthesised, checks the stamp, awaits a broadcast, and then starts
 audio. Two things weaken the lock. A watchdog on the audio path frees a lock held
 for more than 60 seconds without stopping its holder. And the phrase that fills a
 long silence is spoken by a detached task, which goes on if its request fails.
 */
module ResponseLock {
  import opened Common

  const PUBLISHING_TIMEOUT_MS := 60000

  /** `Checked` is the time between passing the check and starting audio. */
  datatype Phase = Preparing | Checked | Playing

  /** One call of the speaking routine. The request that made it waits for it unless it is `detached`. */
  datatype Speech = Speech(owner: nat, id: nat, detached: bool, phase: Phase)

  /**
   `inFlight` maps each running invocation of the handler to its request id, and
   `speeches` holds what is being said; `invocations` and `spoken` count them all.
   */
  datatype Room = Room(
    isPublishing: bool, publishingStartTime: nat, currentRequestId: nat, inFlight: map<nat, nat>, invocations: nat,
    speeches: map<nat, Speech>, spoken: nat, clock: nat)

  const IDLE := Room(false, 0, 0, map[], 0, map[], 0, 1)

  datatype Event =
    | Begin(now: nat, blocked: bool)
    | Watch(now: nat)
    | Speak(invocation: nat, detached: bool, now: nat)
    | Check(speech: nat, now: nat)
    | StartAudio(speech: nat, now: nat)
    | SpeechOver(speech: nat, now: nat)
    | End(invocation: nat, now: nat)

  // ---------------------------------------------------------------------------
  // Handlers
  // ---------------------------------------------------------------------------

  /** `blocked` stands for the other reasons to skip: vision mode and the response cooldown. */
  function BeginRequest(r: Room, now: nat, blocked: bool): Room {
    if r.isPublishing || blocked then r.(clock := now)
    else
      r.(isPublishing := true, publishingStartTime := now, currentRequestId := now,
         inFlight := r.inFlight[r.invocations := now], invocations := r.invocations + 1, clock := now)
  }

  function Watchdog(r: Room, now: nat): Room {
    if r.isPublishing && r.publishingStartTime > 0 && now - r.publishingStartTime > PUBLISHING_TIMEOUT_MS
    then r.(isPublishing := false, publishingStartTime := 0, clock := now)
    else r.(clock := now)
  }

  function BeginSpeech(r: Room, i: nat, detached: bool, now: nat): Room
    requires i in r.inFlight
  {
    r.(speeches := r.speeches[r.spoken := Speech(i, r.inFlight[i], detached, Preparing)], spoken := r.spoken + 1,
       clock := now)
  }

  /** The test made after speech synthesis, before any audio is sent. */
  predicate MayPlay(currentRequestId: nat, requestId: nat) {
    currentRequestId == requestId || currentRequestId == 0
  }

  function InPhase(r: Room, s: nat, phase: Phase, now: nat): Room
    requires s in r.speeches
  {
    r.(speeches := r.speeches[s := r.speeches[s].(phase := phase)], clock := now)
  }

  function EndSpeech(r: Room, s: nat, now: nat): Room {
    r.(speeches := r.speeches - {s}, clock := now)
  }

  /** A speech that fails the check is dropped. */
  function CheckSpeech(r: Room, s: nat, now: nat): Room
    requires s in r.speeches
  {
    if MayPlay(r.currentRequestId, r.speeches[s].id) then InPhase(r, s, Checked, now) else EndSpeech(r, s, now)
  }

  function EndRequest(r: Room, i: nat, now: nat): Room
    requires i in r.inFlight
  {
    var left := r.(inFlight := r.inFlight - {i}, clock := now);
    if r.currentRequestId == r.inFlight[i] then left.(isPublishing := false, publishingStartTime := 0) else left
  }

  // ---------------------------------------------------------------------------
  // Runs
  // ---------------------------------------------------------------------------

  ghost predicate InSpeech(r: Room, s: nat, phase: Phase) {
    s in r.speeches && r.speeches[s].phase == phase
  }

  ghost predicate Speaks(r: Room, i: nat) {
    exists s :: s in r.speeches && r.speeches[s].owner == i
  }

  ghost predicate WaitsForSpeech(r: Room, i: nat) {
    exists s :: s in r.speeches && r.speeches[s].owner == i && !r.speeches[s].detached
  }

  /**
   A request says one thing at a time and exits only when it waits for no speech of
   its own. The detached phrase begins some time after the request, which is 700 ms
   in the program. A speech may be over at any time: synthesis or the broadcast may fail.
   */
  ghost predicate Enabled(r: Room, e: Event) {
    && e.now >= r.clock
    && match e
       case Begin(_, _) => true
       case Watch(_) => true
       case Speak(i, detached, now) => i in r.inFlight && !Speaks(r, i) && (detached ==> now > r.inFlight[i])
       case Check(s, _) => InSpeech(r, s, Preparing)
       case StartAudio(s, _) => InSpeech(r, s, Checked)
       case SpeechOver(s, _) => s in r.speeches
       case End(i, _) => i in r.inFlight && !WaitsForSpeech(r, i)
  }

  ghost function Step(r: Room, e: Event): Room
    requires Enabled(r, e)
  {
    match e
    case Begin(now, blocked) => BeginRequest(r, now, blocked)
    case Watch(now) => Watchdog(r, now)
    case Speak(i, detached, now) => BeginSpeech(r, i, detached, now)
    case Check(s, now) => CheckSpeech(r, s, now)
    case StartAudio(s, now) => InPhase(r, s, Playing, now)
    case SpeechOver(s, now) => EndSpeech(r, s, now)
    case End(i, now) => EndRequest(r, i, now)
  }

  ghost predicate IsRun(events: seq<Event>)
    decreases |events|, 0
  {
    events == [] || (IsRun(Init(events)) && Enabled(Run(Init(events)), Last(events)))
  }

  ghost function Run(events: seq<Event>): Room
    requires IsRun(events)
    decreases |events|, 1
  {
    if events == [] then IDLE else Step(Run(Init(events)), Last(events))
  }

  lemma {:induction false} PrefixRuns(events: seq<Event>, k: nat)
    requires IsRun(events) && k <= |events|
    ensures IsRun(events[..k])
    ensures k < |events| ==> Enabled(Run(events[..k]), events[k]) && IsRun(events[..k + 1]) &&
                             Run(events[..k + 1]) == Step(Run(events[..k]), events[k])
    decreases |events|
  {
    if k == |events| {
      assert events[..k] == events;
    } else if k == |events| - 1 {
      assert events[..k] == Init(events) && events[..k + 1] == events;
    } else {
      PrefixRuns(Init(events), k);
      assert Init(events)[..k] == events[..k] && Init(events)[..k + 1] == events[..k + 1];
    }
  }

  // ---------------------------------------------------------------------------
  // What every run keeps: the lock
  // ---------------------------------------------------------------------------

  /** Invocation `i` holds the lock. */
  ghost predicate Holds(r: Room, i: nat) {
    && i in r.inFlight
    && r.isPublishing
    && r.inFlight[i] == r.currentRequestId == r.publishingStartTime
  }

  ghost predicate Distinct(r: Room) {
    forall i, j :: i in r.inFlight && j in r.inFlight && i != j ==> r.inFlight[i] != r.inFlight[j]
  }

  ghost predicate LockOk(r: Room) {
    && Distinct(r)
    && r.clock >= 1
    && (r.isPublishing ==> exists i :: Holds(r, i))
    && (forall i :: i in r.inFlight ==> i < r.invocations && 1 <= r.inFlight[i] && r.currentRequestId >= 1)
    && (forall i :: i in r.inFlight ==> Holds(r, i) || r.inFlight[i] + PUBLISHING_TIMEOUT_MS < r.clock)
  }

  lemma BeginTakes(r: Room, now: nat)
    requires LockOk(r) && now >= r.clock && !r.isPublishing
    ensures LockOk(BeginRequest(r, now, false))
    ensures forall j :: j in r.inFlight ==> r.inFlight[j] < now
  {
    var s, i := BeginRequest(r, now, false), r.invocations;
    forall j | j in r.inFlight
      ensures r.inFlight[j] + PUBLISHING_TIMEOUT_MS < now
    {
      assert !Holds(r, j);
    }
    assert Holds(s, i);
  }

  /** Nothing about the lock and the requests is different, but for the time. */
  ghost predicate SameLock(r: Room, s: Room) {
    && s.isPublishing == r.isPublishing && s.publishingStartTime == r.publishingStartTime
    && s.currentRequestId == r.currentRequestId && s.inFlight == r.inFlight && s.invocations == r.invocations
    && s.clock >= r.clock
  }

  lemma SameLockKeeps(r: Room, s: Room)
    requires LockOk(r) && SameLock(r, s)
    ensures LockOk(s)
  {
    if r.isPublishing {
      var i :| Holds(r, i);
      assert Holds(s, i);
    }
    forall j | j in s.inFlight
      ensures Holds(s, j) || s.inFlight[j] + PUBLISHING_TIMEOUT_MS < s.clock
    {
      assert Holds(r, j) || r.inFlight[j] + PUBLISHING_TIMEOUT_MS < r.clock;
    }
  }

  lemma WatchKeepsLock(r: Room, now: nat)
    requires LockOk(r) && now >= r.clock
    ensures LockOk(Watchdog(r, now))
  {
    var s := Watchdog(r, now);
    if s.isPublishing == r.isPublishing {
      SameLockKeeps(r, s);
    } else {
      forall j | j in s.inFlight
        ensures s.inFlight[j] + PUBLISHING_TIMEOUT_MS < s.clock
      {
        assert Holds(r, j) || r.inFlight[j] + PUBLISHING_TIMEOUT_MS < r.clock;
      }
    }
  }

  lemma EndKeepsLock(r: Room, i: nat, now: nat)
    requires LockOk(r) && now >= r.clock && i in r.inFlight
    ensures LockOk(EndRequest(r, i, now))
  {
    var s := EndRequest(r, i, now);
    if s.isPublishing {
      var h :| Holds(r, h);
      assert Holds(s, h);
    }
    forall j | j in s.inFlight
      ensures Holds(s, j) || s.inFlight[j] + PUBLISHING_TIMEOUT_MS < s.clock
    {
      assert Holds(r, j) || r.inFlight[j] + PUBLISHING_TIMEOUT_MS < r.clock;
      if Holds(r, j) {
        assert r.inFlight[j] != r.inFlight[i];
      }
    }
  }

  // ---------------------------------------------------------------------------
  // What every run keeps: the speeches
  // ---------------------------------------------------------------------------

  /** The speech has its owner's id, which is nobody else's, and outlives its owner only if detached. */
  ghost predicate SpeechOk(r: Room, x: Speech) {
    && x.owner < r.invocations
    && 1 <= x.id && r.currentRequestId >= 1
    && (if x.owner in r.inFlight then x.id == r.inFlight[x.owner] else x.detached)
    && (x.detached ==> x.id < r.clock)
    && forall i :: i in r.inFlight && i != x.owner ==> r.inFlight[i] != x.id
  }

  ghost predicate SpeechesOk(r: Room) {
    && (forall s :: s in r.speeches ==> s < r.spoken && SpeechOk(r, r.speeches[s]))
    && (forall s, t :: s in r.speeches && t in r.speeches && s != t ==>
          r.speeches[s].owner != r.speeches[t].owner && r.speeches[s].id != r.speeches[t].id)
  }

  ghost predicate Inv(r: Room) {
    LockOk(r) && SpeechesOk(r)
  }

  /** A request that takes the lock is younger than everything that is still being said. */
  lemma SpeechesAreOlder(r: Room, now: nat)
    requires Inv(r) && now >= r.clock && !r.isPublishing
    ensures forall s :: s in r.speeches ==> r.speeches[s].id < now
  {
    forall s | s in r.speeches
      ensures r.speeches[s].id < now
    {
      assert SpeechOk(r, r.speeches[s]);
      assert !Holds(r, r.speeches[s].owner);
    }
  }

  lemma BeginKeeps(r: Room, now: nat, blocked: bool)
    requires Inv(r) && now >= r.clock
    ensures Inv(BeginRequest(r, now, blocked))
  {
    var d := BeginRequest(r, now, blocked);
    if !r.isPublishing && !blocked {
      BeginTakes(r, now);
      SpeechesAreOlder(r, now);
    } else {
      SameLockKeeps(r, d);
    }
    forall s | s in d.speeches
      ensures SpeechOk(d, d.speeches[s])
    {
      assert SpeechOk(r, r.speeches[s]);
    }
  }

  /** Without new requests or speeches, and with the same stamp, speeches stay in order. */
  lemma SpeechesStay(r: Room, d: Room)
    requires SpeechesOk(r) && d.clock >= r.clock && d.currentRequestId == r.currentRequestId
    requires d.inFlight == r.inFlight && d.invocations == r.invocations && d.spoken >= r.spoken
    requires forall s :: s in d.speeches ==>
               s in r.speeches && d.speeches[s] == r.speeches[s].(phase := d.speeches[s].phase)
    ensures SpeechesOk(d)
  {
    forall s | s in d.speeches
      ensures s < d.spoken && SpeechOk(d, d.speeches[s])
    {
      assert SpeechOk(r, r.speeches[s]);
    }
  }

  lemma WatchKeeps(r: Room, now: nat)
    requires Inv(r) && now >= r.clock
    ensures Inv(Watchdog(r, now))
  {
    WatchKeepsLock(r, now);
    SpeechesStay(r, Watchdog(r, now));
  }

  lemma SpeakKeeps(r: Room, i: nat, detached: bool, now: nat)
    requires Inv(r) && Enabled(r, Speak(i, detached, now))
    ensures Inv(BeginSpeech(r, i, detached, now))
  {
    var d := BeginSpeech(r, i, detached, now);
    SameLockKeeps(r, d);
    forall s | s in d.speeches
      ensures SpeechOk(d, d.speeches[s])
      ensures s != r.spoken ==> d.speeches[s].owner != i && d.speeches[s].id != r.inFlight[i]
    {
      assert s != r.spoken ==> SpeechOk(r, r.speeches[s]);
    }
  }

  lemma CheckKeeps(r: Room, s: nat, now: nat)
    requires Inv(r) && now >= r.clock && s in r.speeches
    ensures Inv(CheckSpeech(r, s, now))
  {
    SameLockKeeps(r, CheckSpeech(r, s, now));
    SpeechesStay(r, CheckSpeech(r, s, now));
  }

  lemma PhaseKeeps(r: Room, s: nat, phase: Phase, now: nat)
    requires Inv(r) && now >= r.clock && s in r.speeches
    ensures Inv(InPhase(r, s, phase, now))
  {
    SameLockKeeps(r, InPhase(r, s, phase, now));
    SpeechesStay(r, InPhase(r, s, phase, now));
  }

  lemma OverKeeps(r: Room, s: nat, now: nat)
    requires Inv(r) && now >= r.clock
    ensures Inv(EndSpeech(r, s, now))
  {
    SameLockKeeps(r, EndSpeech(r, s, now));
    SpeechesStay(r, EndSpeech(r, s, now));
  }

  lemma EndKeeps(r: Room, i: nat, now: nat)
    requires Inv(r) && Enabled(r, End(i, now))
    ensures Inv(EndRequest(r, i, now))
  {
    var d := EndRequest(r, i, now);
    EndKeepsLock(r, i, now);
    forall s | s in d.speeches
      ensures SpeechOk(d, d.speeches[s])
    {
      assert SpeechOk(r, r.speeches[s]);
    }
  }

  lemma StepKeeps(r: Room, e: Event)
    requires Inv(r) && Enabled(r, e)
    ensures Inv(Step(r, e))
  {
    match e
    case Begin(now, blocked) => BeginKeeps(r, now, blocked);
    case Watch(now) => WatchKeeps(r, now);
    case Speak(i, detached, now) => SpeakKeeps(r, i, detached, now);
    case Check(s, now) => CheckKeeps(r, s, now);
    case StartAudio(s, now) => PhaseKeeps(r, s, Playing, now);
    case SpeechOver(s, now) => OverKeeps(r, s, now);
    case End(i, now) => EndKeeps(r, i, now);
  }

  lemma {:induction false} RunKeeps(events: seq<Event>)
    requires IsRun(events)
    ensures Inv(Run(events))
  {
    if events != [] {
      RunKeeps(Init(events));
      StepKeeps(Run(Init(events)), Last(events));
    }
  }

  /** At any moment of any run at most one speech passes the check, and it has the current id. */
  lemma OnePassesCheck(events: seq<Event>, s: nat, t: nat)
    requires IsRun(events)
    requires s in Run(events).speeches && t in Run(events).speeches
    requires MayPlay(Run(events).currentRequestId, Run(events).speeches[s].id)
    requires MayPlay(Run(events).currentRequestId, Run(events).speeches[t].id)
    ensures s == t && Run(events).speeches[s].id == Run(events).currentRequestId
  {
    RunKeeps(events);
    assert SpeechOk(Run(events), Run(events).speeches[s]);
  }

  /** Only the holder's exit frees a held lock. */
  lemma OnlyHolderReleases(events: seq<Event>, i: nat, now: nat)
    requires IsRun(events) && Enabled(Run(events), End(i, now)) && Run(events).isPublishing
    ensures !EndRequest(Run(events), i, now).isPublishing <==> Holds(Run(events), i)
  {
    RunKeeps(events);
    var r := Run(events);
    var h :| Holds(r, h);
    if i != h {
      assert r.inFlight[i] != r.inFlight[h];
    }
  }

  /** A held lock always has a running holder, so it cannot stay taken once every request has ended. */
  lemma NoOrphanLock(events: seq<Event>)
    requires IsRun(events) && Run(events).inFlight == map[]
    ensures !Run(events).isPublishing
  {
    RunKeeps(events);
  }

  // ---------------------------------------------------------------------------
  // Who starts audio
  // ---------------------------------------------------------------------------

  /** The event takes the lock. */
  ghost predicate Takes(r: Room, e: Event) {
    e.Begin? && !e.blocked && !r.isPublishing
  }

  ghost predicate TakesAt(events: seq<Event>, m: nat)
    requires IsRun(events)
  {
    m < |events| && IsRun(events[..m]) && Takes(Run(events[..m]), events[m])
  }

  /** Speech `s` passes its check with event `k`. */
  ghost predicate PassesAt(events: seq<Event>, k: nat, s: nat)
    requires IsRun(events)
  {
    && k < |events| && events[k].Check? && events[k].speech == s
    && IsRun(events[..k]) && s in Run(events[..k]).speeches
    && MayPlay(Run(events[..k]).currentRequestId, Run(events[..k]).speeches[s].id)
  }

  ghost predicate Current(r: Room, s: nat) {
    s in r.speeches && r.speeches[s].id == r.currentRequestId
  }

  /** Only a request that takes the lock ends a speech's currency, and nothing restores it. */
  lemma StepCurrency(r: Room, e: Event, s: nat)
    requires Inv(r) && Enabled(r, e) && s < r.spoken && s in Step(r, e).speeches
    ensures s in r.speeches && r.spoken <= Step(r, e).spoken
    ensures Current(Step(r, e), s) <==> Current(r, s) && !Takes(r, e)
  {
    if Takes(r, e) {
      SpeechesAreOlder(r, e.now);
    }
  }

  /** Nobody takes the lock between events `k` and `j`. */
  ghost predicate NobodyTakes(events: seq<Event>, k: nat, j: nat)
    requires IsRun(events)
  {
    forall m :: k < m < j ==> !TakesAt(events, m)
  }

  lemma NobodyTakesGrows(events: seq<Event>, k: nat, j: nat)
    requires IsRun(events) && k < j
    ensures NobodyTakes(events, k, j + 1) <==> NobodyTakes(events, k, j) && !TakesAt(events, j)
  {
  }

  /** Speech `s` after event `j` is current exactly if it was before and the event does not take the lock. */
  lemma CurrencyAt(events: seq<Event>, k: nat, j: nat, s: nat)
    requires IsRun(events) && k <= j < |events| && IsRun(events[..k]) && s in Run(events[..k]).speeches
    requires IsRun(events[..j + 1]) && s in Run(events[..j + 1]).speeches
    ensures IsRun(events[..j]) && s in Run(events[..j]).speeches
    ensures Current(Run(events[..j + 1]), s) <==> Current(Run(events[..j]), s) && !TakesAt(events, j)
  {
    PrefixRuns(events, j);
    RunKeeps(events[..j]);
    NotSaidAgain(events, k, j, s);
    StepCurrency(Run(events[..j]), events[j], s);
  }

  lemma CurrentWhenPassing(events: seq<Event>, k: nat, s: nat)
    requires IsRun(events) && PassesAt(events, k, s)
    ensures Current(Run(events[..k]), s) && !TakesAt(events, k)
  {
    RunKeeps(events[..k]);
    assert SpeechOk(Run(events[..k]), Run(events[..k]).speeches[s]);
  }

  /** From a passed check on, a speech is current exactly as long as nobody has taken the lock. */
  lemma {:induction false} CurrentSinceCheck(events: seq<Event>, k: nat, j: nat, s: nat)
    requires IsRun(events) && k < j <= |events| && PassesAt(events, k, s)
    requires IsRun(events[..j]) && s in Run(events[..j]).speeches
    ensures Current(Run(events[..j]), s) <==> NobodyTakes(events, k, j)
    decreases j
  {
    CurrencyAt(events, k, j - 1, s);
    if j == k + 1 {
      CurrentWhenPassing(events, k, s);
    } else {
      CurrentSinceCheck(events, k, j - 1, s);
      NobodyTakesGrows(events, k, j - 1);
    }
  }

  /** Speech numbers are not used again. */
  lemma {:induction false} NotSaidAgain(events: seq<Event>, k: nat, j: nat, s: nat)
    requires IsRun(events) && k <= j <= |events| && IsRun(events[..k]) && s in Run(events[..k]).speeches
    ensures IsRun(events[..j]) && s < Run(events[..j]).spoken
    decreases j
  {
    if j == k {
      RunKeeps(events[..k]);
    } else {
      NotSaidAgain(events, k, j - 1, s);
      PrefixRuns(events, j - 1);
    }
  }

  /** Whatever is about to start audio has passed its check. */
  lemma {:induction false} WasChecked(events: seq<Event>, s: nat) returns (k: nat)
    requires IsRun(events) && InSpeech(Run(events), s, Checked)
    ensures PassesAt(events, k, s)
  {
    var before, e := Init(events), Last(events);
    assert events[..|events| - 1] == before;
    if e.Check? && e.speech == s {
      k := |events| - 1;
    } else {
      k := WasChecked(before, s);
      assert events[..k] == before[..k];
    }
  }

  /** Since a check of its own that it passed, nobody has taken the lock. */
  ghost predicate UndisturbedSinceCheck(events: seq<Event>, s: nat)
    requires IsRun(events)
  {
    exists k: nat :: PassesAt(events, k, s) && NobodyTakes(events, k, |events|)
  }

  /** A speech that starts audio has the current id if and only if nobody took the lock since its check. */
  lemma StartsCurrentIff(events: seq<Event>, s: nat, now: nat)
    requires IsRun(events) && Enabled(Run(events), StartAudio(s, now))
    ensures Current(Run(events), s) <==> UndisturbedSinceCheck(events, s)
    ensures exists k: nat :: PassesAt(events, k, s)
  {
    var k := WasChecked(events, s);
    assert events[..|events|] == events;
    CurrentSinceCheck(events, k, |events|, s);
    if UndisturbedSinceCheck(events, s) {
      var k': nat :| PassesAt(events, k', s) && NobodyTakes(events, k', |events|);
      CurrentSinceCheck(events, k', |events|, s);
    }
  }

  /** A speech that fails its check is never heard. */
  lemma {:induction false} FailedCheckSilences(events: seq<Event>, k: nat, j: nat, s: nat, now: nat)
    requires IsRun(events) && k < j <= |events| && IsRun(events[..k]) && s in Run(events[..k]).speeches
    requires events[k] == Check(s, now) && Run(events[..k]).speeches[s].id != Run(events[..k]).currentRequestId
    ensures IsRun(events[..j]) && s !in Run(events[..j]).speeches
    decreases j
  {
    PrefixRuns(events, j - 1);
    if j == k + 1 {
      RunKeeps(events[..k]);
      FailedCheckDrops(Run(events[..k]), s, now);
    } else {
      FailedCheckSilences(events, k, j - 1, s, now);
      NotSaidAgain(events, k, j - 1, s);
      StaysSilent(Run(events[..j - 1]), events[j - 1], s);
    }
  }

  lemma FailedCheckDrops(r: Room, s: nat, now: nat)
    requires Inv(r) && s in r.speeches && r.speeches[s].id != r.currentRequestId
    ensures s !in CheckSpeech(r, s, now).speeches
  {
    assert SpeechOk(r, r.speeches[s]);
  }

  lemma StaysSilent(r: Room, e: Event, s: nat)
    requires Enabled(r, e) && s < r.spoken && s !in r.speeches
    ensures s !in Step(r, e).speeches
  {
    match e
    case Begin(_, _) =>
    case Watch(_) =>
    case Speak(_, _, _) =>
    case Check(_, _) =>
    case StartAudio(_, _) =>
    case SpeechOver(_, _) =>
    case End(_, _) =>
  }

  /** The watchdog frees the lock exactly when its holder took it more than 60 seconds ago, and stops nobody. */
  lemma WatchdogFires(events: seq<Event>, i: nat, now: nat)
    requires IsRun(events) && now >= Run(events).clock && Holds(Run(events), i)
    ensures
      var r, d := Run(events), Step(Run(events), Watch(now));
      && (!d.isPublishing <==> now > r.inFlight[i] + 60000)
      && d.inFlight == r.inFlight && d.speeches == r.speeches && d.currentRequestId == r.currentRequestId
  {
    RunKeeps(events);
  }

  // ---------------------------------------------------------------------------
  // How many are in flight
  // ---------------------------------------------------------------------------

  ghost predicate Fires(r: Room, e: Event)
    requires Enabled(r, e)
  {
    e.Watch? && r.isPublishing && !Step(r, e).isPublishing
  }

  /** How often the watchdog has freed the lock. */
  ghost function Firings(events: seq<Event>): nat
    requires IsRun(events)
  {
    if events == [] then 0
    else Firings(Init(events)) + if Fires(Run(Init(events)), Last(events)) then 1 else 0
  }

  /** How many requests have ended without holding the lock. */
  ghost function StaleExits(events: seq<Event>): nat
    requires IsRun(events)
  {
    if events == [] then 0
    else
      StaleExits(Init(events)) +
      if Last(events).End? && !Holds(Run(Init(events)), Last(events).invocation) then 1 else 0
  }

  ghost function Taken(r: Room): nat {
    if r.isPublishing then 1 else 0
  }

  lemma OneMore(m: map<nat, nat>, m': map<nat, nat>, k: nat)
    requires k !in m && m'.Keys == m.Keys + {k}
    ensures |m'| == |m| + 1
  {
    assert |m'| == |m'.Keys| && |m| == |m.Keys|;
  }

  /** What the step changes on the two sides of the balance is the same. */
  ghost predicate Balances(r: Room, e: Event)
    requires Enabled(r, e)
  {
    |Step(r, e).inFlight| + Taken(r) + (if e.End? && !Holds(r, e.invocation) then 1 else 0) ==
    |r.inFlight| + Taken(Step(r, e)) + (if Fires(r, e) then 1 else 0)
  }

  lemma EndBalances(r: Room, i: nat, now: nat)
    requires LockOk(r) && Enabled(r, End(i, now))
    ensures Balances(r, End(i, now))
  {
    OneMore(EndRequest(r, i, now).inFlight, r.inFlight, i);
    if r.isPublishing {
      var h :| Holds(r, h);
      assert h != i ==> r.inFlight[i] != r.inFlight[h];
    }
  }

  lemma BeginBalances(r: Room, now: nat, blocked: bool)
    requires LockOk(r) && Enabled(r, Begin(now, blocked))
    ensures Balances(r, Begin(now, blocked))
  {
    var d := BeginRequest(r, now, blocked);
    if Takes(r, Begin(now, blocked)) {
      assert r.invocations !in r.inFlight;
      assert d.inFlight.Keys == r.inFlight.Keys + {r.invocations};
      OneMore(r.inFlight, d.inFlight, r.invocations);
    }
  }

  lemma StepBalances(r: Room, e: Event)
    requires LockOk(r) && Enabled(r, e)
    ensures Balances(r, e)
  {
    match e
    case Begin(now, blocked) => BeginBalances(r, now, blocked);
    case End(i, now) => EndBalances(r, i, now);
    case _ =>
  }

  /** Requests in flight and stale exits balance firings and the lock. */
  lemma {:induction false} InFlightExactly(events: seq<Event>)
    requires IsRun(events)
    ensures |Run(events).inFlight| + StaleExits(events) == Firings(events) + Taken(Run(events))
  {
    if events != [] {
      InFlightExactly(Init(events));
      RunKeeps(Init(events));
      StepBalances(Run(Init(events)), Last(events));
    }
  }

  /**
   Beside a holder there is another request in flight exactly when not every firing
   has been paid for by a stale exit; without a holder two such firings are needed.
   */
  lemma OverlapIff(events: seq<Event>)
    requires IsRun(events)
    ensures
      |Run(events).inFlight| >= 2 <==>
      Firings(events) >= StaleExits(events) + if Run(events).isPublishing then 1 else 2
  {
    InFlightExactly(events);
  }

  // ---------------------------------------------------------------------------
  // How many play
  // ---------------------------------------------------------------------------

  ghost function Players(r: Room): set<nat> {
    set s | s in r.speeches && r.speeches[s].phase.Playing?
  }

  /** Phrases that have outlived their requests. */
  ghost function Abandoned(r: Room): set<nat> {
    set s | s in r.speeches && r.speeches[s].owner !in r.inFlight
  }

  /** The event is the exit of a request whose phrase goes on. */
  ghost predicate Abandons(r: Room, e: Event) {
    e.End? && Speaks(r, e.invocation)
  }

  ghost function Abandonments(events: seq<Event>): nat
    requires IsRun(events)
  {
    if events == [] then 0
    else Abandonments(Init(events)) + if Abandons(Run(Init(events)), Last(events)) then 1 else 0
  }

  ghost function SpeechesOf(r: Room, i: nat): set<nat> {
    set s | s in r.speeches && r.speeches[s].owner == i
  }

  /** An exit abandons what its request is saying; nothing else abandons anything. */
  lemma StepAbandons(r: Room, e: Event)
    requires Enabled(r, e)
    ensures Abandoned(Step(r, e)) <= Abandoned(r) + if e.End? then SpeechesOf(r, e.invocation) else {}
  {
    match e
    case Begin(_, _) =>
    case Watch(_) =>
    case Speak(_, _, _) =>
    case Check(_, _) =>
    case StartAudio(_, _) =>
    case SpeechOver(_, _) =>
    case End(_, _) =>
  }

  /** A request says one thing at a time. */
  lemma OneSpeechEach(r: Room, i: nat)
    requires SpeechesOk(r)
    ensures |SpeechesOf(r, i)| == if Speaks(r, i) then 1 else 0
  {
    if Speaks(r, i) {
      var s :| s in r.speeches && r.speeches[s].owner == i;
      assert SpeechesOf(r, i) == {s};
    }
  }

  lemma AbandonedGrows(r: Room, e: Event)
    requires SpeechesOk(r) && Enabled(r, e)
    ensures |Abandoned(Step(r, e))| <= |Abandoned(r)| + if Abandons(r, e) then 1 else 0
  {
    StepAbandons(r, e);
    if e.End? {
      OneSpeechEach(r, e.invocation);
      SubsetCount(Abandoned(Step(r, e)), Abandoned(r) + SpeechesOf(r, e.invocation));
    } else {
      SubsetCount(Abandoned(Step(r, e)), Abandoned(r));
    }
  }

  lemma {:induction false} AbandonedCounted(events: seq<Event>)
    requires IsRun(events)
    ensures |Abandoned(Run(events))| <= Abandonments(events)
  {
    if events == [] {
      assert Abandoned(IDLE) == {};
    } else {
      AbandonedCounted(Init(events));
      RunKeeps(Init(events));
      AbandonedGrows(Run(Init(events)), Last(events));
    }
  }

  /** Speeches of requests in flight are at most as many as these. */
  lemma {:induction false} OwnersCount(r: Room, speakers: set<nat>, owners: set<nat>)
    requires SpeechesOk(r)
    requires forall s :: s in speakers ==> s in r.speeches && r.speeches[s].owner in owners
    ensures |speakers| <= |owners|
    decreases |speakers|
  {
    if speakers != {} {
      var s :| s in speakers;
      OwnersCount(r, speakers - {s}, owners - {r.speeches[s].owner});
    }
  }

  /** Each player belongs to a request in flight or has been abandoned. */
  lemma PlayersCount(r: Room)
    requires Inv(r)
    ensures |Players(r)| <= |r.inFlight| + |Abandoned(r)|
  {
    var attended := Players(r) - Abandoned(r);
    OwnersCount(r, attended, r.inFlight.Keys);
    assert |r.inFlight| == |r.inFlight.Keys|;
    assert Players(r) <= attended + Abandoned(r);
    SubsetCount(Players(r), attended + Abandoned(r));
  }

  /**
   No more speeches play at a time than the lock, the firings not yet paid for and
   the abandoned phrases allow; with no firing and no abandonment, at most one.
   */
  lemma PlayersBounded(events: seq<Event>)
    requires IsRun(events)
    ensures
      |Players(Run(events))| + StaleExits(events) <=
      Firings(events) + Taken(Run(events)) + |Abandoned(Run(events))|
    ensures |Players(Run(events))| <= Firings(events) + Abandonments(events) + 1
  {
    InFlightExactly(events);
    AbandonedCounted(events);
    RunKeeps(events);
    PlayersCount(Run(events));
  }

  ghost predicate Exits(e: Event, i: nat) {
    e.End? && e.invocation == i
  }

  /** The request has exited. */
  ghost predicate HasEnded(events: seq<Event>, i: nat) {
    exists k :: 0 <= k < |events| && Exits(events[k], i)
  }

  lemma HasEndedGrows(events: seq<Event>, i: nat)
    requires events != []
    ensures HasEnded(events, i) <==> HasEnded(Init(events), i) || Exits(Last(events), i)
  {
    if HasEnded(Init(events), i) {
      var k :| 0 <= k < |Init(events)| && Exits(Init(events)[k], i);
      assert Exits(events[k], i);
    }
    if Exits(Last(events), i) {
      assert Exits(events[|events| - 1], i);
    }
  }

  lemma StepInFlight(r: Room, e: Event, i: nat)
    requires Enabled(r, e)
    ensures i in Step(r, e).inFlight <==> (i in r.inFlight && !Exits(e, i)) || (Takes(r, e) && i == r.invocations)
    ensures Step(r, e).invocations == r.invocations + if Takes(r, e) then 1 else 0
  {
    match e
    case Begin(_, _) =>
    case Watch(_) =>
    case Speak(_, _, _) =>
    case Check(_, _) =>
    case StartAudio(_, _) =>
    case SpeechOver(_, _) =>
    case End(_, _) =>
  }

  lemma {:induction false} InFlightUntilEnd(events: seq<Event>, i: nat)
    requires IsRun(events)
    ensures i in Run(events).inFlight <==> i < Run(events).invocations && !HasEnded(events, i)
    ensures HasEnded(events, i) ==> i < Run(events).invocations
  {
    if events != [] {
      InFlightUntilEnd(Init(events), i);
      RunKeeps(Init(events));
      HasEndedGrows(events, i);
      StepInFlight(Run(Init(events)), Last(events), i);
    }
  }

  /** Without a firing, what starts audio belongs to the holder of the lock if and only if its request has not ended. */
  lemma NoFiringStarts(events: seq<Event>, s: nat, now: nat)
    requires IsRun(events) && Firings(events) == 0 && Enabled(Run(events), StartAudio(s, now))
    ensures Holds(Run(events), Run(events).speeches[s].owner) <==> !HasEnded(events, Run(events).speeches[s].owner)
  {
    var r := Run(events);
    var i := r.speeches[s].owner;
    RunKeeps(events);
    assert SpeechOk(r, r.speeches[s]);
    InFlightUntilEnd(events, i);
    if i in r.inFlight {
      AloneWithoutFiring(events, i);
    }
  }

  /** Without a firing a request in flight holds the lock, alone. */
  lemma AloneWithoutFiring(events: seq<Event>, i: nat)
    requires IsRun(events) && Firings(events) == 0 && i in Run(events).inFlight
    ensures Holds(Run(events), i) && Run(events).inFlight.Keys == {i}
  {
    InFlightExactly(events);
    RunKeeps(events);
    var r := Run(events);
    var rest := r.inFlight - {i};
    OneMore(rest, r.inFlight, i);
    assert |rest| == 0;
    assert r.inFlight.Keys == {i};
    var h :| Holds(r, h);
    assert h in r.inFlight.Keys;
  }

  // ---------------------------------------------------------------------------
  // Runs that show what the lock does not prevent
  // ---------------------------------------------------------------------------

  lemma OneMoreEvent(events: seq<Event>, e: Event)
    requires IsRun(events) && Enabled(Run(events), e)
    ensures IsRun(events + [e]) && Run(events + [e]) == Step(Run(events), e)
    ensures Firings(events + [e]) == Firings(events) + if Fires(Run(events), e) then 1 else 0
    ensures Abandonments(events + [e]) == Abandonments(events) + if Abandons(Run(events), e) then 1 else 0
  {
    assert Init(events + [e]) == events;
  }

  lemma Started(now: nat) returns (events: seq<Event>)
    requires now >= 1
    ensures IsRun(events) && Run(events) == Room(true, now, now, map[0 := now], 1, map[], 0, now)
    ensures Firings(events) == 0 && Abandonments(events) == 0
  {
    OneMoreEvent([], Begin(now, false));
    events := [] + [Begin(now, false)];
  }

  /** One firing is enough for two requests to be in flight together. */
  lemma WatchdogOverlap() returns (events: seq<Event>)
    ensures IsRun(events) && Firings(events) == 1 && |Run(events).inFlight| == 2
  {
    events := Started(1);
    OneMoreEvent(events, Watch(60002));
    events := events + [Watch(60002)];
    OneMoreEvent(events, Begin(60002, false));
    events := events + [Begin(60002, false)];
    assert Run(events).inFlight == map[0 := 1, 1 := 60002];
  }

  /** A request speaks and passes its check. */
  lemma SpokenAndChecked(detached: bool) returns (events: seq<Event>)
    ensures IsRun(events) && Firings(events) == 0 && Abandonments(events) == 0
    ensures Run(events) == Room(true, 1, 1, map[0 := 1], 1, map[0 := Speech(0, 1, detached, Checked)], 1, 900)
  {
    events := Started(1);
    OneMoreEvent(events, Speak(0, detached, 702));
    events := events + [Speak(0, detached, 702)];
    OneMoreEvent(events, Check(0, 900));
    events := events + [Check(0, 900)];
  }

  /** The check does not cover the broadcast after it: an old request starts audio although a new one has the lock. */
  lemma StaleStart() returns (events: seq<Event>)
    ensures IsRun(events) && Firings(events) == 1 && Abandonments(events) == 0
    ensures Enabled(Run(events), StartAudio(0, 60002))
    ensures Run(events).speeches[0].owner == 0 && !Current(Run(events), 0) && Holds(Run(events), 1)
    ensures
      Run(events) ==
      Room(true, 60002, 60002, map[0 := 1, 1 := 60002], 2, map[0 := Speech(0, 1, false, Checked)], 1, 60002)
  {
    events := SpokenAndChecked(false);
    OneMoreEvent(events, Watch(60002));
    events := events + [Watch(60002)];
    OneMoreEvent(events, Begin(60002, false));
    events := events + [Begin(60002, false)];
  }

  /** A second request that holds the lock speaks beside the first speech. */
  lemma JoinIn(events: seq<Event>, now: nat) returns (longer: seq<Event>)
    requires IsRun(events) && Run(events).clock == now && 1 in Run(events).inFlight
    requires Run(events).inFlight[1] == Run(events).currentRequestId && Run(events).spoken == 1
    requires Run(events).speeches.Keys == {0} && InSpeech(Run(events), 0, Playing) && Run(events).speeches[0].owner == 0
    ensures IsRun(longer) && Firings(longer) == Firings(events) && Abandonments(longer) == Abandonments(events)
    ensures Players(Run(longer)) == {0, 1}
  {
    assert forall s :: s in Run(events).speeches ==> s in Run(events).speeches.Keys;
    assert !Speaks(Run(events), 1);
    OneMoreEvent(events, Speak(1, false, now));
    longer := events + [Speak(1, false, now)];
    OneMoreEvent(longer, Check(1, now));
    longer := longer + [Check(1, now)];
    OneMoreEvent(longer, StartAudio(1, now));
    longer := longer + [StartAudio(1, now)];
    assert Run(longer).speeches.Keys == {0, 1};
    forall s
      ensures s in Players(Run(longer)) <==> s in {0, 1}
    {
      assert s in Run(longer).speeches <==> s in Run(longer).speeches.Keys;
    }
  }

  /** One firing is enough for two requests to play at once. */
  lemma TwoPlayers() returns (events: seq<Event>)
    ensures IsRun(events) && Firings(events) == 1 && Abandonments(events) == 0 && Players(Run(events)) == {0, 1}
  {
    events := StaleStart();
    OneMoreEvent(events, StartAudio(0, 60002));
    events := events + [StartAudio(0, 60002)];
    events := JoinIn(events, 60002);
  }

  /** Without any firing, a phrase that plays when its request fails leaves the lock free for a second player. */
  lemma AbandonedPlayer() returns (events: seq<Event>)
    ensures IsRun(events) && Firings(events) == 0 && Abandonments(events) == 1 && Players(Run(events)) == {0, 1}
  {
    events := SpokenAndChecked(true);
    OneMoreEvent(events, StartAudio(0, 910));
    events := events + [StartAudio(0, 910)];
    OneMoreEvent(events, End(0, 950));
    events := events + [End(0, 950)];
    OneMoreEvent(events, Begin(960, false));
    events := events + [Begin(960, false)];
    events := JoinIn(events, 960);
  }

  /** Without any firing, a phrase can start after its request has failed, with nobody holding the lock. */
  lemma AbandonedStart() returns (events: seq<Event>)
    ensures IsRun(events) && Firings(events) == 0 && Enabled(Run(events), StartAudio(0, 960))
    ensures Current(Run(events), 0) && !Run(events).isPublishing && Run(events).inFlight == map[]
  {
    events := SpokenAndChecked(true);
    OneMoreEvent(events, End(0, 950));
    events := events + [End(0, 950)];
  }

  // ---------------------------------------------------------------------------
  // The room context
  // ---------------------------------------------------------------------------

  class RoomContext {
    var isPublishing: bool
    var publishingStartTime: nat
    var currentRequestId: nat
    ghost var inFlight: map<nat, nat>
    ghost var invocations: nat
    ghost var speeches: map<nat, Speech>
    ghost var spoken: nat
    ghost var clock: nat

    ghost function View(): Room
      reads this
    {
      Room(isPublishing, publishingStartTime, currentRequestId, inFlight, invocations, speeches, spoken, clock)
    }

    constructor ()
      ensures View() == IDLE && Inv(View())
    {
      isPublishing, publishingStartTime, currentRequestId := false, 0, 0;
      inFlight, invocations, speeches, spoken, clock := map[], 0, map[], 0, 1;
    }

    /** The guarded start of a response; the id is handed to the rest of the handler. */
    method TakeLock(now: nat, blocked: bool) returns (requestId: Option<nat>)
      requires Inv(View()) && now >= clock
      modifies this
      ensures View() == BeginRequest(old(View()), now, blocked) && Inv(View())
      ensures requestId == if old(isPublishing) || blocked then None else Some(now)
    {
      BeginKeeps(View(), now, blocked);
      clock := now;
      if isPublishing || blocked {
        return None;
      }
      currentRequestId := now;
      isPublishing := true;
      publishingStartTime := now;
      inFlight, invocations := inFlight[invocations := now], invocations + 1;
      requestId := Some(now);
    }

    method CheckStuck(now: nat)
      requires Inv(View()) && now >= clock
      modifies this
      ensures View() == Watchdog(old(View()), now) && Inv(View())
    {
      WatchKeeps(View(), now);
      clock := now;
      if isPublishing && publishingStartTime > 0 {
        var publishingDuration := now - publishingStartTime;
        if publishingDuration > PUBLISHING_TIMEOUT_MS {
          isPublishing := false;
          publishingStartTime := 0;
        }
      }
    }

    /**
     The check before audio, made for a speech whether or not its request still runs.
     With its exemption for id 0 it still lets only the current id pass.
     */
    method MayStartAudio(requestId: nat, ghost s: nat, ghost now: nat) returns (ok: bool)
      requires Inv(View()) && now >= clock && s in speeches && speeches[s].id == requestId
      modifies this`speeches, this`clock
      ensures View() == CheckSpeech(old(View()), s, now) && Inv(View())
      ensures ok <==> currentRequestId == requestId
    {
      CheckKeeps(View(), s, now);
      assert SpeechOk(View(), speeches[s]);
      ok := !(currentRequestId != requestId && currentRequestId != 0);
      speeches := if ok then speeches[s := speeches[s].(phase := Checked)] else speeches - {s};
      clock := now;
    }

    method Finish(requestId: nat, ghost i: nat, ghost now: nat)
      requires Inv(View()) && Enabled(View(), End(i, now)) && inFlight[i] == requestId
      modifies this
      ensures View() == EndRequest(old(View()), i, now) && Inv(View())
    {
      EndKeeps(View(), i, now);
      if currentRequestId == requestId {
        isPublishing := false;
        publishingStartTime := 0;
      }
      inFlight, clock := inFlight - {i}, now;
    }

    /** What is said begins, starts audio and is over without touching a field of the context. */
    ghost method SpeechGoesOn(e: Event)
      requires Inv(View()) && Enabled(View(), e) && (e.Speak? || e.StartAudio? || e.SpeechOver?)
      modifies this`speeches, this`spoken, this`clock
      ensures View() == Step(old(View()), e) && Inv(View())
    {
      var next := Step(View(), e);
      StepKeeps(View(), e);
      speeches, spoken, clock := next.speeches, next.spoken, next.clock;
    }
  }
}
