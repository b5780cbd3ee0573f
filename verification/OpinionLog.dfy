/**
 The opinion service repeats no piece of evidence in a room within five minutes.
 It remembers opinions in a map keyed by "room:evidence" that is pruned on every
 write. The reference is the full history: every opinion and every clearing of a
 room, in order. The pruned map is proved to answer exactly as the history does
 for ids without a colon, and to be wrong in some run for every other id.
 */
module OpinionLog {
  import opened Common

  const OPINION_COOLDOWN_MS := 300000

  type Records = map<string, nat>

  // ---------------------------------------------------------------------------
  // The pruned map
  // ---------------------------------------------------------------------------

  function Key(room: string, evidence: string): string {
    room + ":" + evidence
  }

  predicate StartsWith(s: string, prefix: string) {
    prefix <= s
  }

  predicate OnCooldown(records: Records, room: string, evidence: string, now: int) {
    var key := Key(room, evidence);
    key in records && now - records[key] < OPINION_COOLDOWN_MS
  }

  ghost function Pruned(records: Records, now: int): Records {
    map key | key in records && now - records[key] <= OPINION_COOLDOWN_MS * 2 :: records[key]
  }

  ghost function Registered(records: Records, room: string, evidence: string, now: nat): Records {
    Pruned(records[Key(room, evidence) := now], now)
  }

  ghost function Cleared(records: Records, room: string): Records {
    map key | key in records && !StartsWith(key, room + ":") :: records[key]
  }

  // ---------------------------------------------------------------------------
  // The full history
  // ---------------------------------------------------------------------------

  datatype Event = Opinion(room: string, evidence: string, at: nat) | Clear(room: string)

  ghost function After(history: seq<Event>): Records {
    if history == [] then map[]
    else
      var records := After(Init(history));
      match Last(history)
      case Opinion(room, evidence, at) => Registered(records, room, evidence, at)
      case Clear(room) => Cleared(records, room)
  }

  /** Opinions are in time order and none is later than `now`. */
  ghost predicate Timely(history: seq<Event>, now: int) {
    && (forall i, j :: 0 <= i < j < |history| && history[i].Opinion? && history[j].Opinion? ==>
          history[i].at <= history[j].at)
    && (forall i :: 0 <= i < |history| && history[i].Opinion? ==> history[i].at <= now)
  }

  ghost predicate SharedAt(history: seq<Event>, i: nat, room: string, evidence: string) {
    && i < |history|
    && history[i].Opinion? && history[i].room == room && history[i].evidence == evidence
    && forall j :: i < j < |history| ==> history[j] != Clear(room)
  }

  /** What the cooldown is meant to say: shared less than five minutes ago, and not cleared since. */
  ghost predicate RecentlyShared(history: seq<Event>, room: string, evidence: string, now: int) {
    exists i: nat :: SharedAt(history, i, room, evidence) && now - history[i].at < OPINION_COOLDOWN_MS
  }

  /** When the evidence was last shared in the room since the room was last cleared. */
  ghost function LastShared(history: seq<Event>, room: string, evidence: string): Option<nat> {
    if history == [] then None
    else
      match Last(history)
      case Opinion(r, e, at) =>
        if r == room && e == evidence then Some(at) else LastShared(Init(history), room, evidence)
      case Clear(r) =>
        if r == room then None else LastShared(Init(history), room, evidence)
  }

  lemma {:induction false} LastSharedIsLatest(history: seq<Event>, room: string, evidence: string, now: int)
    requires Timely(history, now)
    ensures LastShared(history, room, evidence).None? ==> forall i: nat :: !SharedAt(history, i, room, evidence)
    ensures LastShared(history, room, evidence).Some? ==>
              && (exists i: nat :: SharedAt(history, i, room, evidence) &&
                                   history[i].at == LastShared(history, room, evidence).value)
              && (forall i: nat :: SharedAt(history, i, room, evidence) ==>
                                   history[i].at <= LastShared(history, room, evidence).value)
  {
    if history != [] {
      var n, before := |history| - 1, Init(history);
      if history[n].Opinion? && history[n].room == room && history[n].evidence == evidence {
        assert SharedAt(history, n, room, evidence);
      } else if history[n] != Clear(room) {
        LastSharedIsLatest(before, room, evidence, now);
        forall i: nat
          ensures SharedAt(history, i, room, evidence) <==> SharedAt(before, i, room, evidence)
        {
        }
      }
    }
  }

  lemma RecentlySharedByLast(history: seq<Event>, room: string, evidence: string, now: int)
    requires Timely(history, now)
    ensures RecentlyShared(history, room, evidence, now) <==>
              LastShared(history, room, evidence).Some? &&
              now - LastShared(history, room, evidence).value < OPINION_COOLDOWN_MS
  {
    LastSharedIsLatest(history, room, evidence, now);
  }

  // ---------------------------------------------------------------------------
  // Keys without colons
  // ---------------------------------------------------------------------------

  ghost predicate Plain(id: string) {
    ':' !in id
  }

  /** A plain pair's key has one colon, so any other reading of it is the same pair. */
  lemma KeySplits(room: string, evidence: string, prefix: string)
    requires Plain(room) && Plain(evidence)
    requires prefix + ":" <= Key(room, evidence)
    ensures prefix == room
  {
    var key := Key(room, evidence);
    var n := |prefix|;
    assert key[n] == (prefix + ":")[n] == ':';
    assert forall k :: 0 <= k < |room| ==> key[k] != ':';
    assert forall k :: |room| < k < |key| ==> key[k] == evidence[k - |room| - 1];
    assert prefix == key[..n] == room;
  }

  lemma KeyInjective(room: string, evidence: string, r: string, e: string)
    requires Plain(room) && Plain(evidence)
    ensures Key(r, e) == Key(room, evidence) <==> r == room && e == evidence
  {
    if Key(r, e) == Key(room, evidence) {
      KeySplits(room, evidence, r);
      assert e == Key(r, e)[|r| + 1..];
      assert evidence == Key(room, evidence)[|room| + 1..];
    }
  }

  lemma ClearMatchesRoom(room: string, evidence: string, r: string)
    requires Plain(room) && Plain(evidence)
    ensures StartsWith(Key(room, evidence), r + ":") <==> r == room
  {
    if StartsWith(Key(room, evidence), r + ":") {
      KeySplits(room, evidence, r);
    }
  }

  /** A kept entry is the last sharing; a missing one is too old to matter. */
  lemma {:induction false} MapFollowsHistory(history: seq<Event>, room: string, evidence: string, now: int)
    requires Plain(room) && Plain(evidence) && Timely(history, now)
    ensures
      var key, last := Key(room, evidence), LastShared(history, room, evidence);
      if key in After(history) then last == Some(After(history)[key])
      else last.None? || now - last.value > OPINION_COOLDOWN_MS * 2
  {
    if history != [] {
      match Last(history)
      case Opinion(r, e, at) =>
        MapFollowsHistory(Init(history), room, evidence, at);
        KeyInjective(room, evidence, r, e);
      case Clear(r) =>
        MapFollowsHistory(Init(history), room, evidence, now);
        ClearMatchesRoom(room, evidence, r);
    }
  }

  /** No record is older than ten minutes when an opinion has just been shared, so the map does not grow for ever. */
  lemma RecordsAreYoung(history: seq<Event>, room: string, evidence: string, at: nat)
    ensures
      var records := After(history + [Opinion(room, evidence, at)]);
      && Key(room, evidence) in records && records[Key(room, evidence)] == at
      && forall key :: key in records ==> at - records[key] <= 600000
  {
    assert Init(history + [Opinion(room, evidence, at)]) == history;
  }

  /** For plain ids the pruned map answers as the whole history would. */
  lemma CooldownExact(history: seq<Event>, room: string, evidence: string, now: int)
    requires Plain(room) && Plain(evidence) && Timely(history, now)
    ensures OnCooldown(After(history), room, evidence, now) <==> RecentlyShared(history, room, evidence, now)
  {
    MapFollowsHistory(history, room, evidence, now);
    RecentlySharedByLast(history, room, evidence, now);
  }

  // ---------------------------------------------------------------------------
  // Exactly the plain ids are safe
  // ---------------------------------------------------------------------------

  ghost predicate Disagree(history: seq<Event>, room: string, evidence: string, now: int) {
    OnCooldown(After(history), room, evidence, now) != RecentlyShared(history, room, evidence, now)
  }

  ghost predicate AlwaysExact(room: string, evidence: string) {
    forall history: seq<Event>, now: int :: Timely(history, now) ==> !Disagree(history, room, evidence, now)
  }

  /** Clearing room "a" also forgets what was said in room "a:b". */
  lemma ColonInRoom(room: string, evidence: string, i: nat)
    requires i < |room| && room[i] == ':'
    ensures Disagree([Opinion(room, evidence, 0), Clear(room[..i])], room, evidence, 0)
  {
    var history := [Opinion(room, evidence, 0), Clear(room[..i])];
    assert Init(history) == [Opinion(room, evidence, 0)] && Init([Opinion(room, evidence, 0)]) == [];
    assert room[..i] + ":" == room[..i + 1];
    assert room[..i + 1] <= Key(room, evidence);
    assert Clear(room[..i]) != Clear(room);
    assert SharedAt(history, 0, room, evidence);
  }

  /** Room "r:a" sharing "b" looks like room "r" sharing "a:b". */
  lemma ColonInEvidence(room: string, evidence: string, i: nat)
    requires i < |evidence| && evidence[i] == ':'
    ensures Disagree([Opinion(room + ":" + evidence[..i], evidence[i + 1..], 0)], room, evidence, 0)
  {
    var r, e := room + ":" + evidence[..i], evidence[i + 1..];
    var history := [Opinion(r, e, 0)];
    assert Init(history) == [];
    assert evidence == evidence[..i] + ":" + evidence[i + 1..];
    assert Key(r, e) == Key(room, evidence);
    assert r != room;
    forall k: nat
      ensures !SharedAt(history, k, room, evidence)
    {
    }
  }

  lemma ExactIffPlain(room: string, evidence: string)
    ensures AlwaysExact(room, evidence) <==> Plain(room) && Plain(evidence)
  {
    if !Plain(room) {
      var i :| 0 <= i < |room| && room[i] == ':';
      ColonInRoom(room, evidence, i);
      assert Timely([Opinion(room, evidence, 0), Clear(room[..i])], 0);
    } else if !Plain(evidence) {
      var i :| 0 <= i < |evidence| && evidence[i] == ':';
      ColonInEvidence(room, evidence, i);
      assert Timely([Opinion(room + ":" + evidence[..i], evidence[i + 1..], 0)], 0);
    } else {
      forall history: seq<Event>, now: int | Timely(history, now)
        ensures !Disagree(history, room, evidence, now)
      {
        CooldownExact(history, room, evidence, now);
      }
    }
  }

  /** Every opinion passed the cooldown check of its moment. */
  ghost predicate Gated(history: seq<Event>) {
    forall j :: 0 <= j < |history| && history[j].Opinion? ==>
      !OnCooldown(After(history[..j]), history[j].room, history[j].evidence, history[j].at)
  }

  lemma HistoryGrows(history: seq<Event>, e: Event)
    requires Gated(history)
    ensures Init(history + [e]) == history && Last(history + [e]) == e
    ensures (e.Opinion? ==> !OnCooldown(After(history), e.room, e.evidence, e.at)) ==> Gated(history + [e])
  {
    var grown := history + [e];
    forall j | 0 <= j < |history|
      ensures grown[..j] == history[..j]
    {
    }
    assert grown[..|history|] == history;
  }

  /** The promise of the gate: repeats in one room are at least five minutes apart. */
  lemma RepeatsSpaced(history: seq<Event>, now: int, i: nat, j: nat)
    requires Timely(history, now) && Gated(history)
    requires i < j < |history| && history[i].Opinion? && history[j].Opinion?
    requires history[i].room == history[j].room && history[i].evidence == history[j].evidence
    requires Plain(history[i].room) && Plain(history[i].evidence)
    requires forall k :: i < k < j ==> history[k] != Clear(history[i].room)
    ensures history[j].at - history[i].at >= OPINION_COOLDOWN_MS
  {
    var before := history[..j];
    var room, evidence, at := history[j].room, history[j].evidence, history[j].at;
    assert Timely(before, at);
    CooldownExact(before, room, evidence, at);
    assert SharedAt(before, i, room, evidence);
  }

  // ---------------------------------------------------------------------------
  // The service
  // ---------------------------------------------------------------------------

  datatype Match = Match(evidence: string, confidence: int)

  datatype Verdict = Silent(reason: SilenceReason) | Speak(evidence: string)

  datatype SilenceReason = Disabled | TextTooShort | NoEvidence | LowConfidence | RecentlySaid

  class OpinionService {
    var recentOpinions: Records
    ghost var history: seq<Event>

    /** The map is what the history leaves behind, and every opinion in it was allowed. */
    ghost predicate Valid()
      reads this
    {
      recentOpinions == After(history) && Gated(history)
    }

    constructor ()
      ensures Valid() && history == []
    {
      recentOpinions, history := map[], [];
    }

    /** For plain ids the answer is about what was said in the room, not about the map. */
    method IsOnCooldown(room: string, evidence: string, now: int) returns (b: bool)
      ensures b == OnCooldown(recentOpinions, room, evidence, now)
      ensures Valid() && Plain(room) && Plain(evidence) && Timely(history, now) ==>
                (b <==> RecentlyShared(history, room, evidence, now))
    {
      if Valid() && Plain(room) && Plain(evidence) && Timely(history, now) {
        CooldownExact(history, room, evidence, now);
      }
      var key := Key(room, evidence);
      if key !in recentOpinions {
        return false;
      }
      b := now - recentOpinions[key] < OPINION_COOLDOWN_MS;
    }

    method RegisterOpinion(room: string, evidence: string, now: nat)
      modifies this`recentOpinions
      ensures recentOpinions == Registered(old(recentOpinions), room, evidence, now)
    {
      recentOpinions := recentOpinions[Key(room, evidence) := now];
      CleanupOldRecords(now);
    }

    method CleanupOldRecords(now: nat)
      modifies this`recentOpinions
      ensures recentOpinions == Pruned(old(recentOpinions), now)
    {
      var expired: set<string> := {};
      var todo := recentOpinions.Keys;
      while todo != {}
        invariant todo <= recentOpinions.Keys && recentOpinions == old(recentOpinions)
        invariant forall key :: key in expired <==>
                    key in recentOpinions && key !in todo && now - recentOpinions[key] > OPINION_COOLDOWN_MS * 2
        decreases |todo|
      {
        var key :| key in todo;
        if now - recentOpinions[key] > OPINION_COOLDOWN_MS * 2 {
          expired := expired + {key};
        }
        todo := todo - {key};
      }
      DeleteAll(expired);
    }

    method ClearRoomHistory(room: string)
      requires Valid()
      modifies this
      ensures Valid() && history == old(history) + [Clear(room)]
      ensures recentOpinions == Cleared(old(recentOpinions), room)
    {
      var doomed: set<string> := {};
      var todo := recentOpinions.Keys;
      while todo != {}
        invariant todo <= recentOpinions.Keys && recentOpinions == old(recentOpinions)
        invariant forall key :: key in doomed <==>
                    key in recentOpinions && key !in todo && StartsWith(key, room + ":")
        decreases |todo|
      {
        var key :| key in todo;
        if StartsWith(key, room + ":") {
          doomed := doomed + {key};
        }
        todo := todo - {key};
      }
      DeleteAll(doomed);
      HistoryGrows(history, Clear(room));
      history := history + [Clear(room)];
    }

    /** The deletion loop both clean-ups end with. */
    method DeleteAll(keys: set<string>)
      modifies this`recentOpinions
      ensures recentOpinions == old(recentOpinions) - keys
    {
      var todo := keys;
      while todo != {}
        invariant todo <= keys
        invariant recentOpinions == old(recentOpinions) - (keys - todo)
        decreases |todo|
      {
        var key :| key in todo;
        recentOpinions := recentOpinions - {key};
        todo := todo - {key};
      }
    }

    /** The gate. It speaks only past every check, and then it remembers having spoken. */
    method AnalyzeAndRespond(room: string, enabled: bool, textLength: nat, best: Option<Match>, threshold: int,
                             now: nat)
      returns (v: Verdict)
      requires Valid()
      modifies this
      ensures Valid()
      ensures v.Speak? <==>
                && enabled && textLength >= 10 && best.Some? && best.value.confidence >= threshold
                && !OnCooldown(old(recentOpinions), room, best.value.evidence, now)
      ensures v.Speak? ==>
                && v.evidence == best.value.evidence
                && history == old(history) + [Opinion(room, v.evidence, now)]
      ensures v.Silent? ==> recentOpinions == old(recentOpinions) && history == old(history)
    {
      if !enabled {
        return Silent(Disabled);
      }
      if textLength < 10 {
        return Silent(TextTooShort);
      }
      if best.None? {
        return Silent(NoEvidence);
      }
      if best.value.confidence < threshold {
        return Silent(LowConfidence);
      }
      var waiting := IsOnCooldown(room, best.value.evidence, now);
      if waiting {
        return Silent(RecentlySaid);
      }
      RegisterOpinion(room, best.value.evidence, now);
      HistoryGrows(history, Opinion(room, best.value.evidence, now));
      history := history + [Opinion(room, best.value.evidence, now)];
      v := Speak(best.value.evidence);
    }
  }
}
