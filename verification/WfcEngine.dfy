/**
 The "wave function collapse" engine that watches a study session. Each participant
 has a cell of still possible states that observations narrow or widen, depending on
 their confidence. Six prioritised rules look at all cells; at most one fires at a
 time, and each rests for its cooldown, which all rooms share.
 */
module WfcEngine {
  import opened Common

  datatype CognitiveState = Confused | Absorbing | Thinking | Contributing | Understood | Disengaged

  datatype Cell = Cell(
    participantId: string, possibleStates: seq<CognitiveState>, observedState: Option<CognitiveState>, entropy: real,
    confidence: real, lastUpdate: nat, confusionCount: nat, textInferredAt: nat)

  datatype EntropyLevel = Low | Medium | High

  function NewCell(id: string, now: nat): Cell {
    Cell(id, [Absorbing, Thinking, Confused, Contributing, Understood, Disengaged], None, 1.0, 0.0, now, 0, 0)
  }

  // ---------------------------------------------------------------------------
  // Collapsing a cell
  // ---------------------------------------------------------------------------

  predicate IsCompatibleState(s: CognitiveState, t: CognitiveState) {
    match s
    case Confused => t in {Thinking, Absorbing}
    case Absorbing => t in {Thinking, Confused, Understood}
    case Thinking => t in {Confused, Absorbing, Contributing, Understood}
    case Contributing => t in {Thinking, Understood}
    case Understood => t in {Absorbing, Contributing}
    case Disengaged => t in {Confused, Absorbing}
  }

  predicate Keeps(s: CognitiveState, observed: CognitiveState) {
    s == observed || IsCompatibleState(s, observed)
  }

  function Narrowed(states: seq<CognitiveState>, observed: CognitiveState): seq<CognitiveState> {
    if states == [] then []
    else Narrowed(Init(states), observed) + if Keeps(Last(states), observed) then [Last(states)] else []
  }

  function Widened(states: seq<CognitiveState>, observed: CognitiveState): seq<CognitiveState> {
    if observed in states then states else states + [observed]
  }

  /** The share of the six states that is still possible. */
  function Share(states: seq<CognitiveState>): real {
    |states| as real / 6.0
  }

  function Observed(cell: Cell, observed: CognitiveState, confidence: real): Cell {
    if confidence >= 0.7 then
      cell.(observedState := Some(observed), possibleStates := [observed], entropy := 0.0)
    else if confidence >= 0.5 then
      var states := Narrowed(cell.possibleStates, observed);
      if |states| == 1 then cell.(possibleStates := states, observedState := Some(states[0]), entropy := 0.0)
      else cell.(possibleStates := states, entropy := Share(states))
    else
      var states := Widened(cell.possibleStates, observed);
      cell.(possibleStates := states, entropy := Share(states))
  }

  function ConfusionAfter(count: nat, observed: CognitiveState): nat {
    match observed
    case Confused => count + 1
    case Understood => if count == 0 then 0 else count - 1
    case Contributing => if count == 0 then 0 else count - 1
    case _ => count
  }

  function Collapsed(cell: Cell, observed: CognitiveState, confidence: real, now: nat): Cell {
    Observed(cell, observed, confidence).(
    confusionCount := ConfusionAfter(cell.confusionCount, observed), confidence := confidence, lastUpdate := now)
  }

  method CollapseState(cell: Cell, observed: CognitiveState, confidence: real, now: nat) returns (updated: Cell)
    ensures updated == Collapsed(cell, observed, confidence, now)
  {
    updated := cell;
    if confidence >= 0.7 {
      updated := updated.(observedState := Some(observed));
      updated := updated.(possibleStates := [observed]);
      updated := updated.(entropy := 0.0);
    } else if confidence >= 0.5 {
      updated := updated.(possibleStates := Narrowed(updated.possibleStates, observed));
      if |updated.possibleStates| == 1 {
        updated := updated.(observedState := Some(updated.possibleStates[0]));
        updated := updated.(entropy := 0.0);
      } else {
        updated := updated.(entropy := |updated.possibleStates| as real / 6.0);
      }
    } else {
      if observed !in updated.possibleStates {
        updated := updated.(possibleStates := updated.possibleStates + [observed]);
      }
      updated := updated.(entropy := |updated.possibleStates| as real / 6.0);
    }
    if observed == Confused {
      updated := updated.(confusionCount := updated.confusionCount + 1);
    } else if observed == Understood || observed == Contributing {
      updated := updated.(confusionCount := if updated.confusionCount == 0 then 0 else updated.confusionCount - 1);
    }
    updated := updated.(confidence := confidence, lastUpdate := now);
  }

  ghost predicate NoDuplicates(states: seq<CognitiveState>) {
    forall i, j :: 0 <= i < j < |states| ==> states[i] != states[j]
  }

  /** The cell has collapsed to what was observed. */
  ghost predicate Certain(cell: Cell) {
    |cell.possibleStates| == 1 && cell.observedState == Some(cell.possibleStates[0]) && cell.entropy == 0.0
  }

  ghost predicate CellOk(cell: Cell) {
    NoDuplicates(cell.possibleStates) && (cell.entropy == Share(cell.possibleStates) || Certain(cell))
  }

  lemma {:induction false} NarrowedIsFilter(states: seq<CognitiveState>, observed: CognitiveState)
    requires NoDuplicates(states)
    ensures NoDuplicates(Narrowed(states, observed))
    ensures forall s :: s in Narrowed(states, observed) <==> s in states && Keeps(s, observed)
  {
    if states != [] {
      NarrowedIsFilter(Init(states), observed);
      assert Last(states) !in Init(states);
    }
  }

  lemma NewCellOk(id: string, now: nat)
    ensures CellOk(NewCell(id, now))
  {
  }

  lemma CollapseKeepsCell(cell: Cell, observed: CognitiveState, confidence: real, now: nat)
    requires CellOk(cell)
    ensures CellOk(Collapsed(cell, observed, confidence, now))
  {
    NarrowedIsFilter(cell.possibleStates, observed);
  }

  /** Only a medium-confidence observation that no candidate fits can empty a cell. */
  lemma EmptiedIff(cell: Cell, observed: CognitiveState, confidence: real, now: nat)
    requires CellOk(cell)
    ensures Collapsed(cell, observed, confidence, now).possibleStates == [] <==>
              0.5 <= confidence < 0.7 && forall s :: s in cell.possibleStates ==> !Keeps(s, observed)
  {
    if 0.5 <= confidence < 0.7 {
      NarrowedEmpty(cell.possibleStates, observed);
    }
  }

  lemma NarrowedEmpty(states: seq<CognitiveState>, observed: CognitiveState)
    requires NoDuplicates(states)
    ensures Narrowed(states, observed) == [] <==> forall s :: s in states ==> !Keeps(s, observed)
  {
    NarrowedIsFilter(states, observed);
    var left := Narrowed(states, observed);
    if left != [] {
      assert left[0] in left;
    }
  }

  function AllStates(): set<CognitiveState> {
    {Confused, Absorbing, Thinking, Contributing, Understood, Disengaged}
  }

  lemma EveryStateListed(s: CognitiveState)
    ensures s in AllStates()
  {
  }

  ghost function StateSet(states: seq<CognitiveState>): set<CognitiveState> {
    set s | s in states
  }

  lemma {:induction false} DistinctCount(states: seq<CognitiveState>)
    requires NoDuplicates(states)
    ensures |StateSet(states)| == |states|
  {
    if states != [] {
      DistinctCount(Init(states));
      assert StateSet(states) == StateSet(Init(states)) + {Last(states)};
      assert Last(states) !in Init(states);
    }
  }

  /** At most six distinct candidates, so a cell's entropy lies in [0, 1]. */
  lemma CellEntropyRange(cell: Cell)
    requires CellOk(cell)
    ensures 0.0 <= cell.entropy <= 1.0
  {
    DistinctCount(cell.possibleStates);
    forall s | s in StateSet(cell.possibleStates)
      ensures s in AllStates()
    {
      EveryStateListed(s);
    }
    SubsetCount(StateSet(cell.possibleStates), AllStates());
    assert |AllStates()| == 6;
  }

  /** What an observation does to the candidates, the state and the entropy, by its confidence. */
  lemma CollapseMeans(cell: Cell, o: CognitiveState, confidence: real, now: nat)
    requires CellOk(cell)
    ensures
      var d := Collapsed(cell, o, confidence, now);
      var was, left := StateSet(cell.possibleStates), StateSet(d.possibleStates);
      && d.participantId == cell.participantId && d.textInferredAt == cell.textInferredAt
      && d.confidence == confidence && d.lastUpdate == now
      && (confidence >= 0.7 ==> left == {o} && d.observedState == Some(o) && d.entropy == 0.0)
      && (0.5 <= confidence < 0.7 ==>
            && left == (set s | s in was && (s == o || IsCompatibleState(s, o)))
            && (|left| == 1 ==> d.observedState.Some? && left == {d.observedState.value} && d.entropy == 0.0)
            && (|left| != 1 ==> d.observedState == cell.observedState && d.entropy == |left| as real / 6.0))
      && (confidence < 0.5 ==>
            left == was + {o} && d.observedState == cell.observedState && d.entropy == |left| as real / 6.0)
  {
    if confidence >= 0.7 {
    } else if confidence >= 0.5 {
      NarrowedMeans(cell, o, confidence, now);
    } else {
      WidenedMeans(cell, o, confidence, now);
    }
  }

  lemma NarrowedMeans(cell: Cell, o: CognitiveState, confidence: real, now: nat)
    requires CellOk(cell) && 0.5 <= confidence < 0.7
    ensures
      var d := Collapsed(cell, o, confidence, now);
      var was, left := StateSet(cell.possibleStates), StateSet(d.possibleStates);
      && left == (set s | s in was && (s == o || IsCompatibleState(s, o)))
      && (|left| == 1 ==> d.observedState.Some? && left == {d.observedState.value} && d.entropy == 0.0)
      && (|left| != 1 ==> d.observedState == cell.observedState && d.entropy == |left| as real / 6.0)
  {
    var states := Narrowed(cell.possibleStates, o);
    NarrowedIsFilter(cell.possibleStates, o);
    DistinctCount(states);
    if |states| == 1 {
      assert StateSet(states) == {states[0]};
    }
  }

  lemma WidenedMeans(cell: Cell, o: CognitiveState, confidence: real, now: nat)
    requires CellOk(cell) && confidence < 0.5
    ensures
      var d := Collapsed(cell, o, confidence, now);
      var was, left := StateSet(cell.possibleStates), StateSet(d.possibleStates);
      left == was + {o} && d.observedState == cell.observedState && d.entropy == |left| as real / 6.0
  {
    CollapseKeepsCell(cell, o, confidence, now);
    DistinctCount(Widened(cell.possibleStates, o));
  }

  /** No state is its own neighbour, none leads to disengagement, and only three neighbourhoods are one-way. */
  lemma CompatibilityShape(s: CognitiveState, t: CognitiveState)
    ensures !IsCompatibleState(s, s) && !IsCompatibleState(s, Disengaged)
    ensures IsCompatibleState(s, t) && !IsCompatibleState(t, s) <==>
              (s, t) in {(Disengaged, Confused), (Disengaged, Absorbing), (Thinking, Understood)}
    ensures IsCompatibleState(s, t) && IsCompatibleState(t, s) <==>
              || Either(s, t, Confused, Thinking) || Either(s, t, Confused, Absorbing)
              || Either(s, t, Absorbing, Thinking) || Either(s, t, Absorbing, Understood)
              || Either(s, t, Thinking, Contributing) || Either(s, t, Contributing, Understood)
  {
  }

  /** The two are these two, in one order or the other. */
  ghost predicate Either(s: CognitiveState, t: CognitiveState, a: CognitiveState, b: CognitiveState) {
    (s == a && t == b) || (s == b && t == a)
  }

  // ---------------------------------------------------------------------------
  // The count of confusion
  // ---------------------------------------------------------------------------

  ghost function ConfusionCount(start: nat, observed: seq<CognitiveState>): nat {
    if observed == [] then start else ConfusionAfter(ConfusionCount(start, Init(observed)), Last(observed))
  }

  /** Confused observations less reassuring ones. */
  ghost function Balance(observed: seq<CognitiveState>): int {
    if observed == [] then 0
    else
      Balance(Init(observed)) +
      match Last(observed)
      case Confused => 1
      case Understood => -1
      case Contributing => -1
      case _ => 0
  }

  /** `count` is the largest balance of any final stretch, or the start plus the balance of all. */
  ghost predicate IsLargest(start: nat, observed: seq<CognitiveState>, count: nat) {
    && count >= start + Balance(observed)
    && (forall k :: 0 <= k <= |observed| ==> count >= Balance(observed[k..]))
    && (count == start + Balance(observed) || exists k :: 0 <= k <= |observed| && count == Balance(observed[k..]))
  }

  lemma BalanceSnoc(observed: seq<CognitiveState>, k: nat)
    requires k < |observed|
    ensures
      Balance(observed[k..]) == Balance(Init(observed)[k..]) +
      match Last(observed)
      case Confused => 1
      case Understood => -1
      case Contributing => -1
      case _ => 0
  {
    assert Init(observed[k..]) == Init(observed)[k..] && Last(observed[k..]) == Last(observed);
  }

  /** Since the count never goes below zero, it is the worst balance of confusion over any recent stretch. */
  lemma {:induction false} ConfusionIsWorstStretch(start: nat, observed: seq<CognitiveState>)
    ensures IsLargest(start, observed, ConfusionCount(start, observed))
  {
    if observed == [] {
      assert observed[0..] == [];
    } else {
      var before, n := Init(observed), |observed|;
      ConfusionIsWorstStretch(start, before);
      var was, count := ConfusionCount(start, before), ConfusionCount(start, observed);
      assert observed[n..] == [] && before[n - 1..] == [];
      forall k | 0 <= k < n
        ensures Balance(observed[k..]) - Balance(before[k..]) == Balance(observed) - Balance(before)
      {
        BalanceSnoc(observed, k);
      }
      forall k | 0 <= k <= n
        ensures count >= Balance(observed[k..])
      {
        if k < n {
          assert was >= Balance(before[k..]);
        }
      }
      if was == start + Balance(before) {
        assert count == start + Balance(observed) || count == Balance(observed[n..]);
      } else {
        var k :| 0 <= k <= |before| && was == Balance(before[k..]);
        assert count == Balance(observed[k..]) || count == Balance(observed[n..]);
      }
    }
  }

  lemma CollapseCounts(cell: Cell, o: CognitiveState, confidence: real, now: nat)
    ensures Collapsed(cell, o, confidence, now).confusionCount == ConfusionCount(cell.confusionCount, [o])
  {
    assert Init([o]) == [] && ConfusionCount(cell.confusionCount, []) == cell.confusionCount;
  }

  // ---------------------------------------------------------------------------
  // Session entropy
  // ---------------------------------------------------------------------------

  ghost function TotalEntropy(cells: seq<Cell>): real {
    if cells == [] then 0.0 else TotalEntropy(Init(cells)) + Last(cells).entropy
  }

  ghost function SessionEntropy(cells: seq<Cell>): real {
    if cells == [] then 0.0 else TotalEntropy(cells) / |cells| as real
  }

  method CalculateSessionEntropy(cells: seq<Cell>) returns (entropy: real)
    ensures entropy == SessionEntropy(cells)
  {
    if |cells| == 0 {
      return 0.0;
    }
    var totalEntropy := 0.0;
    for i := 0 to |cells|
      invariant totalEntropy == TotalEntropy(cells[..i])
    {
      assert Init(cells[..i + 1]) == cells[..i];
      totalEntropy := totalEntropy + cells[i].entropy;
    }
    assert cells[..|cells|] == cells;
    entropy := totalEntropy / |cells| as real;
  }

  ghost predicate CellsOk(cells: seq<Cell>) {
    forall i :: 0 <= i < |cells| ==> CellOk(cells[i])
  }

  lemma {:induction false} TotalEntropyRange(cells: seq<Cell>)
    requires CellsOk(cells)
    ensures 0.0 <= TotalEntropy(cells) <= |cells| as real
  {
    if cells != [] {
      TotalEntropyRange(Init(cells));
      CellEntropyRange(Last(cells));
    }
  }

  lemma SessionEntropyRange(cells: seq<Cell>)
    requires CellsOk(cells)
    ensures 0.0 <= SessionEntropy(cells) <= 1.0
  {
    if cells != [] {
      TotalEntropyRange(cells);
      ShareInUnit(TotalEntropy(cells), |cells| as real);
    }
  }

  function LevelOf(entropy: real): EntropyLevel {
    if entropy < 0.33 then Low else if entropy < 0.66 then Medium else High
  }

  // ---------------------------------------------------------------------------
  // Constraints
  // ---------------------------------------------------------------------------

  datatype Constraint =
    | ConfusionIntervention | SingleConfusionAssist | PeerTeachingOpportunity | HighEntropySummary
    | DisengagementBoost | AllUnderstoodAdvance

  function Priority(c: Constraint): nat {
    match c
    case ConfusionIntervention => 100
    case SingleConfusionAssist => 80
    case PeerTeachingOpportunity => 70
    case HighEntropySummary => 60
    case DisengagementBoost => 50
    case AllUnderstoodAdvance => 40
  }

  function CooldownMs(c: Constraint): (ms: nat)
    ensures ms >= 45000
  {
    match c
    case ConfusionIntervention => 60000
    case SingleConfusionAssist => 45000
    case PeerTeachingOpportunity => 120000
    case HighEntropySummary => 180000
    case DisengagementBoost => 90000
    case AllUnderstoodAdvance => 60000
  }

  const DEFAULT_CONSTRAINTS := [
    ConfusionIntervention, SingleConfusionAssist, PeerTeachingOpportunity, HighEntropySummary, DisengagementBoost,
    AllUnderstoodAdvance]

  /** What the rules can see of a session. */
  datatype Scene = Scene(cells: seq<Cell>, entropy: real, level: EntropyLevel)

  function CountIn(cells: seq<Cell>, state: CognitiveState): nat {
    if cells == [] then 0
    else CountIn(Init(cells), state) + if Last(cells).observedState == Some(state) then 1 else 0
  }

  predicate Condition(c: Constraint, scene: Scene, now: nat) {
    var cells := scene.cells;
    match c
    case ConfusionIntervention =>
      |cells| > 0 && CountIn(cells, Confused) as real / |cells| as real >= 0.4
    case SingleConfusionAssist =>
      exists i :: 0 <= i < |cells| && cells[i].confusionCount >= 3
    case PeerTeachingOpportunity =>
      |cells| >= 2 && CountIn(cells, Understood) + CountIn(cells, Contributing) >= 1 && CountIn(cells, Confused) >= 1
    case HighEntropySummary =>
      scene.level.High? && scene.entropy > 0.7
    case DisengagementBoost =>
      exists i :: 0 <= i < |cells| && cells[i].observedState == Some(Disengaged) && now - cells[i].lastUpdate > 30000
    case AllUnderstoodAdvance =>
      |cells| > 0 && CountIn(cells, Understood) == |cells|
  }

  /** The participants whose observed state is this one. */
  ghost function InState(cells: seq<Cell>, state: CognitiveState): set<nat> {
    set i: nat | i < |cells| && IsIn(cells[i], state)
  }

  ghost predicate IsIn(cell: Cell, state: CognitiveState) {
    cell.observedState == Some(state)
  }

  lemma InStateGrows(cells: seq<Cell>, cell: Cell, state: CognitiveState)
    ensures
      |InState(cells + [cell], state)| == |InState(cells, state)| + if cell.observedState == Some(state) then 1 else 0
  {
    var grown, n := cells + [cell], |cells|;
    forall i: nat
      ensures i in InState(grown, state) <==> i in InState(cells, state) || (i == n && IsIn(cell, state))
    {
      assert i < n ==> grown[i] == cells[i];
    }
    if IsIn(cell, state) {
      assert InState(grown, state) == InState(cells, state) + {n};
    } else {
      assert InState(grown, state) == InState(cells, state);
    }
  }

  lemma {:induction false} CountIsCount(cells: seq<Cell>, state: CognitiveState)
    ensures CountIn(cells, state) == |InState(cells, state)|
  {
    if cells == [] {
      assert InState(cells, state) == {};
    } else {
      var n, before := |cells| - 1, Init(cells);
      CountIsCount(before, state);
      InStateGrows(before, cells[n], state);
      InitLast(cells);
    }
  }

  lemma ProductOfPositives(a: real, m: real)
    requires m > 0.0 && a >= 0.0
    ensures a * m >= 0.0
  {
  }

  lemma FortyPercent(k: nat, n: nat)
    requires n > 0
    ensures k as real / n as real >= 0.4 <==> 5 * k >= 2 * n
  {
    var m := n as real;
    var q := k as real / m;
    assert q * m == k as real;
    assert (q - 0.4) * m == q * m - 0.4 * m;
    if q >= 0.4 {
      ProductOfPositives(q - 0.4, m);
    } else if 5 * k >= 2 * n {
      SignOfFactor(q - 0.4, m);
    }
  }

  /** When each rule applies, counted in participants. */
  lemma RulesMean(scene: Scene, now: nat)
    ensures
      var cells, n := scene.cells, |scene.cells|;
      var confused, understood := |InState(cells, Confused)|, |InState(cells, Understood)|;
      var contributing := |InState(cells, Contributing)|;
      && (Condition(ConfusionIntervention, scene, now) <==> n > 0 && 5 * confused >= 2 * n)
      && (Condition(SingleConfusionAssist, scene, now) <==> exists i :: 0 <= i < n && cells[i].confusionCount > 2)
      && (Condition(PeerTeachingOpportunity, scene, now) <==>
            n > 1 && (understood > 0 || contributing > 0) && confused > 0)
      && (Condition(HighEntropySummary, scene, now) <==> scene.level == High && scene.entropy > 0.7)
      && (Condition(DisengagementBoost, scene, now) <==>
            exists i :: i in InState(cells, Disengaged) && now > cells[i].lastUpdate + 30000)
      && (Condition(AllUnderstoodAdvance, scene, now) <==>
            n > 0 && forall i: nat :: i < n ==> i in InState(cells, Understood))
  {
    var cells, n := scene.cells, |scene.cells|;
    CountIsCount(cells, Confused);
    CountIsCount(cells, Understood);
    CountIsCount(cells, Contributing);
    if n > 0 {
      FortyPercent(CountIn(cells, Confused), n);
    }
    AllInState(cells, Understood);
    if Condition(DisengagementBoost, scene, now) {
      var i :| 0 <= i < n && cells[i].observedState == Some(Disengaged) && now - cells[i].lastUpdate > 30000;
      assert i in InState(cells, Disengaged);
    }
  }

  lemma {:induction false} AllInState(cells: seq<Cell>, state: CognitiveState)
    ensures CountIn(cells, state) <= |cells|
    ensures CountIn(cells, state) == |cells| <==> forall i: nat :: i < |cells| ==> i in InState(cells, state)
  {
    if cells != [] {
      var n, before := |cells| - 1, Init(cells);
      AllInState(before, state);
      forall i: nat | i < n
        ensures i in InState(before, state) <==> i in InState(cells, state)
      {
        assert before[i] == cells[i];
      }
      assert n in InState(cells, state) <==> cells[n].observedState == Some(state);
    }
  }

  /** With the entropy fresh, the summary rule only asks for more than 0.7; the level adds nothing. */
  lemma LevelAddsNothing(cells: seq<Cell>, entropy: real, now: nat)
    ensures Condition(HighEntropySummary, Scene(cells, entropy, LevelOf(entropy)), now) <==> entropy > 0.7
    ensures LevelOf(entropy) == Low <==> entropy < 0.33
    ensures LevelOf(entropy) == High <==> entropy >= 0.66
  {
  }

  type Triggered = map<Constraint, nat>

  /** A recorded time of zero counts as never. */
  predicate Resting(c: Constraint, last: Triggered, now: nat) {
    c in last && last[c] > 0 && now - last[c] < CooldownMs(c)
  }

  /** How long each rule rests after it has fired. */
  lemma RestTimes(c: Constraint, last: Triggered, now: nat)
    ensures
      var seconds := match c {
        case ConfusionIntervention => 60
        case SingleConfusionAssist => 45
        case PeerTeachingOpportunity => 120
        case HighEntropySummary => 180
        case DisengagementBoost => 90
        case AllUnderstoodAdvance => 60
      };
      Resting(c, last, now) <==> c in last && last[c] != 0 && now < last[c] + 1000 * seconds
  {
  }

  predicate Eligible(c: Constraint, scene: Scene, last: Triggered, now: nat) {
    !Resting(c, last, now) && Condition(c, scene, now)
  }

  /** The one rule to fire: eligible, and of higher priority than any other eligible rule. */
  ghost predicate IsChoice(scene: Scene, last: Triggered, now: nat, choice: Option<Constraint>) {
    match choice
    case Some(c) =>
      && Eligible(c, scene, last, now)
      && forall d :: Eligible(d, scene, last, now) && d != c ==> Priority(d) < Priority(c)
    case None =>
      forall d :: !Eligible(d, scene, last, now)
  }

  lemma ChoiceUnique(scene: Scene, last: Triggered, now: nat, a: Option<Constraint>, b: Option<Constraint>)
    requires IsChoice(scene, last, now, a) && IsChoice(scene, last, now, b)
    ensures a == b
  {
    if a.Some? && b.Some? && a != b {
      assert false;
    }
  }

  function InsertByPriority(c: Constraint, sorted: seq<Constraint>): seq<Constraint> {
    if sorted == [] || Priority(c) > Priority(sorted[0]) then [c] + sorted
    else [sorted[0]] + InsertByPriority(c, sorted[1..])
  }

  /** A stable sort, highest priority first. */
  function SortByPriority(list: seq<Constraint>): seq<Constraint> {
    if list == [] then [] else InsertByPriority(Last(list), SortByPriority(Init(list)))
  }

  ghost predicate Descending(list: seq<Constraint>) {
    forall i, j :: 0 <= i < j < |list| ==> Priority(list[i]) >= Priority(list[j])
  }

  lemma {:induction false} InsertHas(c: Constraint, sorted: seq<Constraint>)
    ensures multiset(InsertByPriority(c, sorted)) == multiset(sorted) + multiset{c}
    ensures forall d :: d in InsertByPriority(c, sorted) <==> d == c || d in sorted
  {
    if sorted != [] && Priority(c) <= Priority(sorted[0]) {
      InsertHas(c, sorted[1..]);
      assert sorted == [sorted[0]] + sorted[1..];
    }
  }

  lemma PrependDescending(c: Constraint, rest: seq<Constraint>)
    requires Descending(rest) && forall d :: d in rest ==> Priority(d) <= Priority(c)
    ensures Descending([c] + rest)
  {
    var list := [c] + rest;
    forall i, j | 0 <= i < j < |list|
      ensures Priority(list[i]) >= Priority(list[j])
    {
      assert list[j] == rest[j - 1] && rest[j - 1] in rest;
      assert i > 0 ==> list[i] == rest[i - 1];
    }
  }

  lemma {:induction false} InsertSorts(c: Constraint, sorted: seq<Constraint>)
    requires Descending(sorted)
    ensures Descending(InsertByPriority(c, sorted))
  {
    if sorted == [] || Priority(c) > Priority(sorted[0]) {
      PrependDescending(c, sorted);
    } else {
      InsertSorts(c, sorted[1..]);
      InsertHas(c, sorted[1..]);
      PrependDescending(sorted[0], InsertByPriority(c, sorted[1..]));
    }
  }

  lemma {:induction false} SortSorts(list: seq<Constraint>)
    ensures Descending(SortByPriority(list)) && multiset(SortByPriority(list)) == multiset(list)
  {
    if list != [] {
      SortSorts(Init(list));
      InsertSorts(Last(list), SortByPriority(Init(list)));
      InsertHas(Last(list), SortByPriority(Init(list)));
      InitLast(list);
    }
  }

  lemma AllConstraintsListed(c: Constraint)
    ensures c in SortByPriority(DEFAULT_CONSTRAINTS)
  {
    SortSorts(DEFAULT_CONSTRAINTS);
    assert c in DEFAULT_CONSTRAINTS by {
      assert DEFAULT_CONSTRAINTS[0] == ConfusionIntervention && DEFAULT_CONSTRAINTS[1] == SingleConfusionAssist;
      assert DEFAULT_CONSTRAINTS[2] == PeerTeachingOpportunity && DEFAULT_CONSTRAINTS[3] == HighEntropySummary;
      assert DEFAULT_CONSTRAINTS[4] == DisengagementBoost && DEFAULT_CONSTRAINTS[5] == AllUnderstoodAdvance;
    }
    assert c in multiset(SortByPriority(DEFAULT_CONSTRAINTS));
  }

  /** Helping many comes before helping one, then peers, summaries, drawing people in, and moving on. */
  lemma PriorityOrder()
    ensures Priority(ConfusionIntervention) > Priority(SingleConfusionAssist) > Priority(PeerTeachingOpportunity)
    ensures Priority(PeerTeachingOpportunity) > Priority(HighEntropySummary) > Priority(DisengagementBoost)
    ensures Priority(DisengagementBoost) > Priority(AllUnderstoodAdvance)
  {
  }

  lemma PrioritiesDiffer(c: Constraint, d: Constraint)
    ensures Priority(c) == Priority(d) ==> c == d
  {
  }

  function FirstEligible(list: seq<Constraint>, scene: Scene, last: Triggered, now: nat): Option<Constraint> {
    if list == [] then None
    else if Eligible(list[0], scene, last, now) then Some(list[0])
    else FirstEligible(list[1..], scene, last, now)
  }

  function Choice(scene: Scene, last: Triggered, now: nat): Option<Constraint> {
    FirstEligible(SortByPriority(DEFAULT_CONSTRAINTS), scene, last, now)
  }

  lemma {:induction false} FirstEligibleIsBest(list: seq<Constraint>, scene: Scene, last: Triggered, now: nat)
    requires Descending(list)
    ensures
      match FirstEligible(list, scene, last, now)
      case Some(c) =>
        c in list && Eligible(c, scene, last, now) &&
        forall d :: d in list && Eligible(d, scene, last, now) ==> Priority(d) <= Priority(c)
      case None => forall d :: d in list ==> !Eligible(d, scene, last, now)
  {
    if list != [] && !Eligible(list[0], scene, last, now) {
      FirstEligibleIsBest(list[1..], scene, last, now);
      assert list == [list[0]] + list[1..];
    }
  }

  lemma ChoiceIsChoice(scene: Scene, last: Triggered, now: nat)
    ensures IsChoice(scene, last, now, Choice(scene, last, now))
  {
    var list := SortByPriority(DEFAULT_CONSTRAINTS);
    SortSorts(DEFAULT_CONSTRAINTS);
    FirstEligibleIsBest(list, scene, last, now);
    forall d | Eligible(d, scene, last, now)
      ensures d in list
    {
      AllConstraintsListed(d);
    }
    if Choice(scene, last, now).Some? {
      var c := Choice(scene, last, now).value;
      forall d | Eligible(d, scene, last, now) && d != c
        ensures Priority(d) < Priority(c)
      {
        PrioritiesDiffer(c, d);
      }
    }
  }

  class Engine {
    var lastTriggered: Triggered

    constructor ()
      ensures lastTriggered == map[]
    {
      lastTriggered := map[];
    }

    /** Fires at most one rule, the right one, and starts its cooldown. */
    method Propagate(scene: Scene, now: nat) returns (fired: Option<Constraint>)
      modifies this
      ensures IsChoice(scene, old(lastTriggered), now, fired)
      ensures lastTriggered == if fired.Some? then old(lastTriggered)[fired.value := now] else old(lastTriggered)
    {
      var sortedConstraints := SortByPriority(DEFAULT_CONSTRAINTS);
      ChoiceIsChoice(scene, lastTriggered, now);
      fired := None;
      for i := 0 to |sortedConstraints|
        invariant lastTriggered == old(lastTriggered) && fired == None
        invariant Choice(scene, lastTriggered, now) == FirstEligible(sortedConstraints[i..], scene, lastTriggered, now)
      {
        var constraint := sortedConstraints[i];
        assert sortedConstraints[i..][0] == constraint && sortedConstraints[i..][1..] == sortedConstraints[i + 1..];
        if constraint in lastTriggered && lastTriggered[constraint] > 0 &&
           now - lastTriggered[constraint] < CooldownMs(constraint) {
          continue;
        }
        if Condition(constraint, scene, now) {
          fired := Some(constraint);
          lastTriggered := lastTriggered[constraint := now];
          return;
        }
      }
    }
  }
}
