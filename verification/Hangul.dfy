/**
 Fuzzy comparison of Korean words: precomposed syllables are taken apart into
 letters by the arithmetic of section 3.12 of the Unicode Standard, and two
 letter rows are scored position by position.

 An empty final prints nothing and most final letters are initial letters too,
 so the row carries no syllable marks. It can still be read back, from the right,
 if no letter stood alone: a vowel ends an open syllable and a consonant ends a
 closed one. Among all words, bare letters included, a row has a single reading
 exactly when no initial letter stands directly before a vowel letter in it.
 */
module Hangul {
  import opened Common

  const BASE := 0xAC00
  const LAST_OFFSET := 11171

  const CHO := "ㄱㄲㄴㄷㄸㄹㅁㅂㅃㅅㅆㅇㅈㅉㅊㅋㅌㅍㅎ"
  const JUNG := "ㅏㅐㅑㅒㅓㅔㅕㅖㅗㅘㅙㅚㅛㅜㅝㅞㅟㅠㅡㅢㅣ"
  const JONG := " ㄱㄲㄳㄴㄵㄶㄷㄹㄺㄻㄼㄽㄾㄿㅀㅁㅂㅄㅅㅆㅇㅈㅊㅋㅌㅍㅎ"

  const SIMILAR: map<char, string> := map[
    'ㄹ' := "ㄴㄷ",
    'ㄴ' := "ㄹㅁ",
    'ㅁ' := "ㅂㄴ",
    'ㅂ' := "ㅁㅍㅃ",
    'ㄱ' := "ㅋㄲ",
    'ㅅ' := "ㅆㅈㅊ",
    'ㅈ' := "ㅅㅆㅊㅉ",
    'ㅜ' := "ㅡㅗ",
    'ㅡ' := "ㅜㅣㅓ",
    'ㅗ' := "ㅜㅓ",
    'ㅏ' := "ㅑㅐㅓ",
    'ㅓ' := "ㅕㅔㅏㅗ",
    'ㅣ' := "ㅡㅢ"
  ]

  predicate Syllable(c: char) {
    0 <= c as int - BASE <= LAST_OFFSET
  }

  predicate Vowel(c: char) {
    'ㅏ' <= c <= 'ㅣ'
  }

  predicate Consonant(c: char) {
    'ㄱ' <= c <= 'ㅎ'
  }

  /** No letter stands alone: every letter of the word is inside a syllable. */
  predicate NoBareLetters(s: string) {
    forall i :: 0 <= i < |s| ==> !Vowel(s[i]) && !Consonant(s[i])
  }

  predicate StepsUp(table: string, i: nat)
    requires i + 1 < |table|
  {
    table[i] < table[i + 1]
  }

  predicate Ascends(table: string) {
    forall i :: 0 <= i < |table| - 1 ==> StepsUp(table, i)
  }

  /** What the proofs need to know of the letter tables. */
  predicate WellFormed(h: LetterTables) {
    && |h.cho| == 19 && |h.jung| == 21 && |h.jong| == 28
    && Ascends(h.cho) && Ascends(h.jung) && Ascends(h.jong)
    && (forall k :: 0 <= k < 19 ==> Consonant(h.cho[k]))
    && (forall k :: 0 <= k < 21 ==> Vowel(h.jung[k]))
    && (forall k :: 0 < k < 28 ==> Consonant(h.jong[k]))
    && h.jong[0] == ' '
  }

  /** Initial, vowel and final letters in code order; the first final is none. */
  datatype LetterTables = LetterTables(cho: string, jung: string, jong: string)

  lemma ChoOk(k: nat)
    requires k < |CHO|
    ensures Consonant(CHO[k]) && (k + 1 < |CHO| ==> StepsUp(CHO, k))
  {
  }

  lemma JungOk(k: nat)
    requires k < |JUNG|
    ensures Vowel(JUNG[k]) && (k + 1 < |JUNG| ==> StepsUp(JUNG, k))
  {
  }

  lemma JongOk(k: nat)
    requires k < |JONG|
    ensures (k > 0 ==> Consonant(JONG[k])) && (k + 1 < |JONG| ==> StepsUp(JONG, k))
  {
  }

  function ProgramTables(): (h: LetterTables)
    ensures WellFormed(h)
  {
    var h := LetterTables(CHO, JUNG, JONG);
    assert WellFormed(h) by {
      forall k | 0 <= k < 19 ensures Consonant(h.cho[k]) && (k < 18 ==> StepsUp(h.cho, k)) { ChoOk(k); }
      forall k | 0 <= k < 21 ensures Vowel(h.jung[k]) && (k < 20 ==> StepsUp(h.jung, k)) { JungOk(k); }
      forall k | 0 <= k < 28
        ensures (k > 0 ==> Consonant(h.jong[k])) && (k < 27 ==> StepsUp(h.jong, k))
      {
        JongOk(k);
      }
    }
    h
  }

  type Tables = h: LetterTables | WellFormed(h) witness ProgramTables()

  const TABLES: Tables := ProgramTables()

  predicate AllSyllables(s: string) {
    forall i :: 0 <= i < |s| ==> Syllable(s[i])
  }

  // ---------------------------------------------------------------------------
  // Taking words apart
  // ---------------------------------------------------------------------------

  function Letters(h: Tables, c: char): string {
    if Syllable(c) then
      var code := c as int - BASE;
      [h.cho[code / 588], h.jung[code % 588 / 28]] + (if code % 28 == 0 then [] else [h.jong[code % 28]])
    else [c]
  }

  ghost function Decompose(h: Tables, s: string): string {
    if s == [] then [] else Decompose(h, Init(s)) + Letters(h, Last(s))
  }

  /** One turn of the loop below. */
  method PushLetters(h: Tables, row: string, c: char) returns (result: string)
    ensures result == row + Letters(h, c)
  {
    result := row;
    var code := c as int - BASE;
    if code < 0 || code > LAST_OFFSET {
      return result + [c];
    }
    result := result + [h.cho[code / 588]];
    result := result + [h.jung[code % 588 / 28]];
    var jong := h.jong[code % 28];
    if jong != ' ' {
      result := result + [jong];
    }
  }

  lemma DecomposeSnoc(h: Tables, s: string, i: nat)
    requires i < |s|
    ensures Decompose(h, s[..i + 1]) == Decompose(h, s[..i]) + Letters(h, s[i])
  {
    assert Init(s[..i + 1]) == s[..i] && Last(s[..i + 1]) == s[i];
  }

  method DecomposeHangul(str: string) returns (result: string)
    ensures result == Decompose(TABLES, str)
  {
    result := [];
    for i := 0 to |str|
      invariant result == Decompose(TABLES, str[..i])
    {
      result := PushLetters(TABLES, result, str[i]);
      DecomposeSnoc(TABLES, str, i);
    }
    assert str[..|str|] == str;
  }

  // ---------------------------------------------------------------------------
  // Putting words back together
  // ---------------------------------------------------------------------------

  ghost function IndexOf(table: string, c: char): nat {
    if table == [] || table[0] == c then 0 else 1 + IndexOf(table[1..], c)
  }

  ghost function Compose(h: Tables, cho: char, jung: char, jong: nat): char {
    var code := BASE + IndexOf(h.cho, cho) * 588 + IndexOf(h.jung, jung) * 28 + jong;
    if code <= BASE + LAST_OFFSET then code as char else ' '
  }

  /** Reads a letter row from the right. */
  ghost function Recompose(h: Tables, r: string): string
    decreases |r|
  {
    var n := |r|;
    if n >= 2 && Vowel(r[n - 1]) then Recompose(h, r[..n - 2]) + [Compose(h, r[n - 2], r[n - 1], 0)]
    else if n >= 3 && Consonant(r[n - 1]) then
      Recompose(h, r[..n - 3]) + [Compose(h, r[n - 3], r[n - 2], IndexOf(h.jong, r[n - 1]))]
    else if n >= 1 then Recompose(h, r[..n - 1]) + [r[n - 1]]
    else []
  }

  lemma {:induction false} Ascending(table: string, i: nat, j: nat)
    requires i < j < |table| && Ascends(table)
    ensures table[i] < table[j]
    decreases j
  {
    if i < j - 1 {
      Ascending(table, i, j - 1);
    }
    assert StepsUp(table, j - 1);
  }

  lemma {:induction false} IndexOfTable(table: string, k: nat)
    requires k < |table| && Ascends(table)
    ensures IndexOf(table, table[k]) == k
    decreases k
  {
    if k > 0 {
      Ascending(table, 0, k);
      var rest := table[1..];
      forall i | 0 <= i < |rest| - 1
        ensures StepsUp(rest, i)
      {
        assert StepsUp(table, i + 1);
      }
      IndexOfTable(rest, k - 1);
    }
  }

  /** The two divisions lose nothing. */
  lemma Digits(code: nat)
    requires code <= LAST_OFFSET
    ensures code / 588 < 19 && code % 588 / 28 < 21 && code % 28 < 28
    ensures code / 588 * 588 + code % 588 / 28 * 28 + code % 28 == code
  {
    assert code % 588 % 28 == code % 28 by {
      var q, r := code / 588, code % 588;
      assert code == 28 * (21 * q) + r;
      assert (28 * (21 * q) + r) % 28 == r % 28;
    }
  }

  lemma ComposeUndoes(h: Tables, c: char)
    requires Syllable(c)
    ensures
      var code := c as int - BASE;
      Compose(h, h.cho[code / 588], h.jung[code % 588 / 28], code % 28) == c
  {
    var code := c as int - BASE;
    Digits(code);
    ComposeAt(h, code / 588, code % 588 / 28, code % 28, c);
  }

  lemma ComposeAt(h: Tables, i: nat, j: nat, jong: nat, c: char)
    requires i < |h.cho| && j < |h.jung| && Syllable(c) && i * 588 + j * 28 + jong == c as int - BASE
    ensures Compose(h, h.cho[i], h.jung[j], jong) == c
  {
    IndexOfTable(h.cho, i);
    IndexOfTable(h.jung, j);
  }

  lemma ReadsOpen(h: Tables, row: string, x: char, y: char)
    requires Vowel(y)
    ensures Recompose(h, row + [x, y]) == Recompose(h, row) + [Compose(h, x, y, 0)]
  {
    var r := row + [x, y];
    assert r[|r| - 1] == y && r[|r| - 2] == x && r[..|r| - 2] == row;
  }

  lemma ReadsClosed(h: Tables, row: string, x: char, y: char, z: char)
    requires Consonant(z)
    ensures Recompose(h, row + [x, y, z]) == Recompose(h, row) + [Compose(h, x, y, IndexOf(h.jong, z))]
  {
    var r := row + [x, y, z];
    assert r[|r| - 1] == z && r[|r| - 2] == y && r[|r| - 3] == x && r[..|r| - 3] == row;
  }

  lemma ReadsOther(h: Tables, row: string, c: char)
    requires !Vowel(c) && !Consonant(c)
    ensures Recompose(h, row + [c]) == Recompose(h, row) + [c]
  {
    var r := row + [c];
    assert r[|r| - 1] == c && r[..|r| - 1] == row;
  }

  /** The reader undoes one printed character. */
  lemma ReadsLast(h: Tables, row: string, c: char)
    requires !Vowel(c) && !Consonant(c)
    ensures Recompose(h, row + Letters(h, c)) == Recompose(h, row) + [c]
  {
    if Syllable(c) {
      var code := c as int - BASE;
      ComposeUndoes(h, c);
      var x, y := h.cho[code / 588], h.jung[code % 588 / 28];
      if code % 28 == 0 {
        assert Letters(h, c) == [x, y];
        ReadsOpen(h, row, x, y);
      } else {
        var z := h.jong[code % 28];
        IndexOfTable(h.jong, code % 28);
        assert Letters(h, c) == [x, y, z];
        ReadsClosed(h, row, x, y, z);
      }
    } else {
      ReadsOther(h, row, c);
    }
  }

  /** Reading back a word with no bare letters returns the word. */
  lemma {:induction false} RecomposeUndoes(h: Tables, s: string)
    requires NoBareLetters(s)
    ensures Recompose(h, Decompose(h, s)) == s
  {
    if s != [] {
      RecomposeUndoes(h, Init(s));
      ReadsLast(h, Decompose(h, Init(s)), Last(s));
      InitLast(s);
    }
  }

  lemma DecomposeInjective(h: Tables, s: string, t: string)
    requires NoBareLetters(s) && NoBareLetters(t)
    ensures Decompose(h, s) == Decompose(h, t) <==> s == t
  {
    RecomposeUndoes(h, s);
    RecomposeUndoes(h, t);
  }

  lemma SyllablesHaveNoBareLetters(s: string)
    requires AllSyllables(s)
    ensures NoBareLetters(s)
  {
  }

  // ---------------------------------------------------------------------------
  // Which words have a row of their own
  // ---------------------------------------------------------------------------

  /** Position `i` of the row could begin a syllable: an initial letter directly before a vowel letter. */
  ghost predicate PairAt(h: Tables, row: string, i: nat) {
    i + 1 < |row| && Initial(h, row[i]) && Medial(h, row[i + 1])
  }

  ghost predicate Initial(h: Tables, c: char) {
    InTable(h.cho, c)
  }

  ghost predicate Medial(h: Tables, c: char) {
    InTable(h.jung, c)
  }

  ghost predicate InTable(table: string, c: char) {
    exists k: nat :: k < |table| && table[k] == c
  }

  ghost predicate HasPair(h: Tables, row: string) {
    exists i: nat :: PairAt(h, row, i)
  }

  ghost predicate NoSyllables(s: string) {
    forall i :: 0 <= i < |s| ==> !Syllable(s[i])
  }

  /** No other word prints the same row. */
  ghost predicate OnlyReading(h: Tables, s: string) {
    forall t :: Decompose(h, t) == Decompose(h, s) ==> t == s
  }

  lemma {:induction false} DecomposeConcat(h: Tables, s: string, t: string)
    ensures Decompose(h, s + t) == Decompose(h, s) + Decompose(h, t)
  {
    if t == [] {
      assert s + t == s;
    } else {
      assert Init(s + t) == s + Init(t) && Last(s + t) == Last(t);
      DecomposeConcat(h, s, Init(t));
    }
  }

  lemma {:induction false} NoSyllablesPrintAsIs(h: Tables, s: string)
    requires NoSyllables(s)
    ensures Decompose(h, s) == s
  {
    if s != [] {
      NoSyllablesPrintAsIs(h, Init(s));
      InitLast(s);
    }
  }

  lemma LettersAreNoSyllables(h: Tables, c: char)
    ensures NoSyllables(Letters(h, c))
  {
    if Syllable(c) {
      var code := c as int - BASE;
      Digits(code);
    }
  }

  lemma {:induction false} RowHasNoSyllables(h: Tables, s: string)
    ensures NoSyllables(Decompose(h, s))
  {
    if s != [] {
      RowHasNoSyllables(h, Init(s));
      LettersAreNoSyllables(h, Last(s));
    }
  }

  lemma LettersStart(h: Tables, c: char)
    requires Syllable(c)
    ensures
      var code := c as int - BASE;
      |Letters(h, c)| >= 2 && Letters(h, c)[0] == h.cho[code / 588] && Letters(h, c)[1] == h.jung[code % 588 / 28]
  {
  }

  lemma TableHas(table: string, k: nat)
    requires k < |table|
    ensures InTable(table, table[k])
  {
  }

  lemma LettersBegin(h: Tables, c: char)
    requires Syllable(c)
    ensures PairAt(h, Decompose(h, [c]), 0)
  {
    DecomposeOne(h, c);
    var code := c as int - BASE;
    LettersStart(h, c);
    TableHas(h.cho, code / 588);
    TableHas(h.jung, code % 588 / 28);
  }

  lemma DecomposeOne(h: Tables, c: char)
    ensures Decompose(h, [c]) == Letters(h, c)
  {
    assert Init([c]) == [] && Last([c]) == c;
    assert Decompose(h, []) == [];
  }

  lemma PairInside(h: Tables, before: string, middle: string, after: string)
    requires PairAt(h, middle, 0)
    ensures HasPair(h, before + middle + after)
  {
    var row := before + middle + after;
    assert row[|before|] == middle[0] && row[|before| + 1] == middle[1];
    assert PairAt(h, row, |before|);
  }

  lemma DecomposeAround(h: Tables, before: string, middle: string, after: string)
    ensures Decompose(h, before + middle + after) == Decompose(h, before) + Decompose(h, middle) + Decompose(h, after)
  {
    DecomposeConcat(h, before + middle, after);
    DecomposeConcat(h, before, middle);
  }

  lemma SplitAt(s: string, k: nat)
    requires k < |s|
    ensures s == s[..k] + [s[k]] + s[k + 1..]
  {
  }

  /** A syllable prints an initial and a vowel side by side. */
  lemma SyllablePrintsPair(h: Tables, s: string, k: nat)
    requires k < |s| && Syllable(s[k])
    ensures HasPair(h, Decompose(h, s))
  {
    SplitAt(s, k);
    DecomposeAround(h, s[..k], [s[k]], s[k + 1..]);
    LettersBegin(h, s[k]);
    PairInside(h, Decompose(h, s[..k]), Decompose(h, [s[k]]), Decompose(h, s[k + 1..]));
  }

  lemma PairDigits(i: nat, j: nat)
    requires i < 19 && j < 21
    ensures
      var code := i * 588 + j * 28;
      code <= LAST_OFFSET && code / 588 == i && code % 588 / 28 == j && code % 28 == 0
  {
    var code := i * 588 + j * 28;
    assert code / 588 == i && code % 588 == j * 28;
    assert code == 28 * (21 * i + j);
  }

  /** An initial and a vowel have a syllable that prints just these two. */
  lemma PairComposes(h: Tables, x: char, y: char) returns (c: char)
    requires Initial(h, x) && Medial(h, y)
    ensures Syllable(c) && Decompose(h, [c]) == [x, y]
  {
    var i: nat :| i < |h.cho| && h.cho[i] == x;
    var j: nat :| j < |h.jung| && h.jung[j] == y;
    PairDigits(i, j);
    c := (BASE + i * 588 + j * 28) as char;
    OpenSyllable(h, c, i, j);
    DecomposeOne(h, c);
  }

  lemma OpenSyllable(h: Tables, c: char, i: nat, j: nat)
    requires Syllable(c) && i < |h.cho| && j < |h.jung|
    requires var code := c as int - BASE; code / 588 == i && code % 588 / 28 == j && code % 28 == 0
    ensures Letters(h, c) == [h.cho[i], h.jung[j]]
  {
  }

  /** Putting a character for letters that it prints does not change the row. */
  lemma Substitute(h: Tables, before: string, c: char, after: string, letters: string)
    requires NoSyllables(before) && NoSyllables(after) && Decompose(h, [c]) == letters
    ensures Decompose(h, before + [c] + after) == before + letters + after
  {
    DecomposeConcat(h, before + [c], after);
    DecomposeConcat(h, before, [c]);
    NoSyllablesPrintAsIs(h, before);
    NoSyllablesPrintAsIs(h, after);
  }

  lemma SplitAround(row: string, i: nat, c: char)
    requires i + 1 < |row| && NoSyllables(row) && Syllable(c)
    ensures row == row[..i] + [row[i], row[i + 1]] + row[i + 2..]
    ensures row[..i] + [c] + row[i + 2..] != row
    ensures NoSyllables(row[..i]) && NoSyllables(row[i + 2..])
  {
    assert (row[..i] + [c] + row[i + 2..])[i] == c;
  }

  /** A row with such a pair, read as a word, prints like the word that has the pair's syllable instead. */
  lemma PairReadsTwice(h: Tables, row: string, i: nat) returns (t: string)
    requires NoSyllables(row) && PairAt(h, row, i)
    ensures t != row && Decompose(h, t) == row
  {
    var c := PairComposes(h, row[i], row[i + 1]);
    SplitAround(row, i, c);
    Substitute(h, row[..i], c, row[i + 2..], [row[i], row[i + 1]]);
    t := row[..i] + [c] + row[i + 2..];
  }

  /** A word is the only reading of its row if and only if no initial letter stands directly before a vowel in it. */
  lemma OnlyReadingIff(h: Tables, s: string)
    ensures OnlyReading(h, s) <==> !HasPair(h, Decompose(h, s))
  {
    var row := Decompose(h, s);
    RowHasNoSyllables(h, s);
    NoSyllablesPrintAsIs(h, row);
    if HasPair(h, row) {
      var i: nat :| PairAt(h, row, i);
      var t := PairReadsTwice(h, row, i);
      assert Decompose(h, t) == row && Decompose(h, row) == row;
    } else {
      forall t | Decompose(h, t) == row
        ensures t == row
      {
        PairlessReading(h, t);
      }
      PairlessReading(h, s);
    }
  }

  /** A row without such a pair can only be its own reading. */
  lemma PairlessReading(h: Tables, t: string)
    requires !HasPair(h, Decompose(h, t))
    ensures t == Decompose(h, t)
  {
    forall k | 0 <= k < |t|
      ensures !Syllable(t[k])
    {
      if Syllable(t[k]) {
        SyllablePrintsPair(h, t, k);
      }
    }
    NoSyllablesPrintAsIs(h, t);
  }

  /** With a bare letter allowed, two different words can print the same row. */
  lemma BareLettersCollide()
    ensures "가" != "ㄱㅏ" && !NoBareLetters("ㄱㅏ")
    ensures Decompose(TABLES, "가") == Decompose(TABLES, "ㄱㅏ")
  {
    assert Init("가") == "" && Last("가") == '가';
    assert Init("ㄱㅏ") == "ㄱ" && Last("ㄱㅏ") == 'ㅏ';
    assert Init("ㄱ") == "" && Last("ㄱ") == 'ㄱ';
    assert Consonant("ㄱㅏ"[0]);
    assert Letters(TABLES, '가') == "ㄱㅏ";
    assert Letters(TABLES, 'ㄱ') == "ㄱ" && Letters(TABLES, 'ㅏ') == "ㅏ";
  }

  // ---------------------------------------------------------------------------
  // The similarity score
  // ---------------------------------------------------------------------------

  predicate IsSimilarJamo(a: char, b: char) {
    || a == b
    || (a in SIMILAR && b in SIMILAR[a])
    || (b in SIMILAR && a in SIMILAR[b])
  }

  function Weight(a: char, b: char): real {
    if a == b then 1.0 else if IsSimilarJamo(a, b) then 0.6 else 0.0
  }

  ghost function Matches(a: string, b: string, n: nat): real
    requires n <= |a| && n <= |b|
  {
    if n == 0 then 0.0 else Matches(a, b, n - 1) + Weight(a[n - 1], b[n - 1])
  }

  function Max(x: nat, y: nat): nat { if x < y then y else x }

  function Min(x: nat, y: nat): nat { if x < y then x else y }

  ghost function RowSimilarity(ja: string, jb: string): real {
    var longer := Max(|ja|, |jb|);
    if longer == 0 || longer - Min(|ja|, |jb|) > 3 then 0.0
    else Matches(ja, jb, Min(|ja|, |jb|)) / longer as real
  }

  /** The platform's lower-casing. */
  type Lowercase = string -> string

  ghost function Similarity(h: Tables, a: string, b: string, lower: Lowercase): real {
    RowSimilarity(Decompose(h, lower(a)), Decompose(h, lower(b)))
  }

  method JamoSimilarity(a: string, b: string, lower: Lowercase) returns (score: real)
    ensures score == Similarity(TABLES, a, b, lower)
  {
    var jamoA := DecomposeHangul(lower(a));
    var jamoB := DecomposeHangul(lower(b));
    var maxLen := Max(|jamoA|, |jamoB|);
    var minLen := Min(|jamoA|, |jamoB|);
    if maxLen == 0 {
      return 0.0;
    }
    if |jamoA| - |jamoB| > 3 || |jamoB| - |jamoA| > 3 {
      return 0.0;
    }
    var matches := CountMatches(jamoA, jamoB, minLen);
    score := matches / maxLen as real;
  }

  /** The loop over the common positions. */
  method CountMatches(jamoA: string, jamoB: string, minLen: nat) returns (matches: real)
    requires minLen <= |jamoA| && minLen <= |jamoB|
    ensures matches == Matches(jamoA, jamoB, minLen)
  {
    matches := 0.0;
    for i := 0 to minLen
      invariant matches == Matches(jamoA, jamoB, i)
    {
      if jamoA[i] == jamoB[i] {
        matches := matches + 1.0;
      } else if IsSimilarJamo(jamoA[i], jamoB[i]) {
        matches := matches + 0.6;
      }
    }
  }

  lemma {:induction false} MatchesSymmetric(a: string, b: string, n: nat)
    requires n <= |a| && n <= |b|
    ensures Matches(a, b, n) == Matches(b, a, n)
  {
    if n > 0 {
      MatchesSymmetric(a, b, n - 1);
    }
  }

  /** The tally is full exactly when the rows agree so far. */
  lemma {:induction false} MatchesBounded(a: string, b: string, n: nat)
    requires n <= |a| && n <= |b|
    ensures 0.0 <= Matches(a, b, n) <= n as real
    ensures Matches(a, b, n) == n as real <==> a[..n] == b[..n]
  {
    if n > 0 {
      MatchesBounded(a, b, n - 1);
      assert a[..n] == a[..n - 1] + [a[n - 1]] && b[..n] == b[..n - 1] + [b[n - 1]];
    }
  }

  lemma RowPerfect(ja: string, jb: string)
    ensures 0.0 <= RowSimilarity(ja, jb) <= 1.0
    ensures RowSimilarity(ja, jb) == 1.0 <==> ja == jb && ja != []
  {
    var n, m := Min(|ja|, |jb|), Max(|ja|, |jb|);
    MatchesBounded(ja, jb, n);
    if m > 0 {
      ShareInUnit(Matches(ja, jb, n), m as real);
      if n == m {
        assert ja[..n] == ja && jb[..n] == jb;
      }
    }
  }

  /** Positions of the first `n` whose letters are related. */
  ghost function Where(a: string, b: string, n: nat, related: (char, char) -> bool): set<nat>
    requires n <= |a| && n <= |b|
  {
    set i: nat | i < n && related(a[i], b[i])
  }

  ghost predicate Same(x: char, y: char) {
    x == y
  }

  /** Different letters, one of which is listed as similar to the other. */
  ghost predicate Alike(x: char, y: char) {
    x != y && (Lists(x, y) || Lists(y, x))
  }

  ghost predicate Lists(x: char, y: char) {
    x in SIMILAR && y in SIMILAR[x]
  }

  lemma WhereGrows(a: string, b: string, n: nat, related: (char, char) -> bool)
    requires 0 < n <= |a| && n <= |b|
    ensures |Where(a, b, n, related)| == |Where(a, b, n - 1, related)| + if related(a[n - 1], b[n - 1]) then 1 else 0
  {
    if related(a[n - 1], b[n - 1]) {
      assert Where(a, b, n, related) == Where(a, b, n - 1, related) + {n - 1};
    } else {
      assert Where(a, b, n, related) == Where(a, b, n - 1, related);
    }
  }

  lemma WeightOf(x: char, y: char)
    ensures Weight(x, y) == if Same(x, y) then 1.0 else if Alike(x, y) then 0.6 else 0.0
  {
  }

  lemma {:induction false} MatchesCount(a: string, b: string, n: nat)
    requires n <= |a| && n <= |b|
    ensures Matches(a, b, n) == |Where(a, b, n, Same)| as real + 0.6 * |Where(a, b, n, Alike)| as real
  {
    if n == 0 {
      assert Where(a, b, 0, Same) == {} && Where(a, b, 0, Alike) == {};
    } else {
      MatchesCount(a, b, n - 1);
      WhereGrows(a, b, n, Same);
      WhereGrows(a, b, n, Alike);
      WeightOf(a[n - 1], b[n - 1]);
    }
  }

  /**
   The score counts agreeing positions fully and similar ones at 0.6, over the longer
   row; rows more than three letters apart in length, and two empty ones, score 0.
   */
  lemma ScoreCounts(h: Tables, a: string, b: string, lower: Lowercase)
    ensures
      var ja, jb := Decompose(h, lower(a)), Decompose(h, lower(b));
      var n := if |ja| <= |jb| then |ja| else |jb|;
      var m := if |ja| <= |jb| then |jb| else |ja|;
      Similarity(h, a, b, lower) ==
      if m == 0 || m > n + 3 then 0.0
      else (|Where(ja, jb, n, Same)| as real + 0.6 * |Where(ja, jb, n, Alike)| as real) / m as real
  {
    var ja, jb := Decompose(h, lower(a)), Decompose(h, lower(b));
    MatchesCount(ja, jb, Min(|ja|, |jb|));
  }

  lemma SimilaritySymmetric(h: Tables, a: string, b: string, lower: Lowercase)
    ensures Similarity(h, a, b, lower) == Similarity(h, b, a, lower)
  {
    var ja, jb := Decompose(h, lower(a)), Decompose(h, lower(b));
    MatchesSymmetric(ja, jb, Min(|ja|, |jb|));
  }

  lemma DecomposeNonEmpty(h: Tables, s: string)
    ensures Decompose(h, s) == [] <==> s == []
  {
  }

  /** The score lies in [0, 1], and 1 means equality up to case for words with no bare letters. */
  lemma SimilarityPerfect(h: Tables, a: string, b: string, lower: Lowercase)
    requires NoBareLetters(lower(a)) && NoBareLetters(lower(b))
    ensures 0.0 <= Similarity(h, a, b, lower) <= 1.0
    ensures Similarity(h, a, b, lower) == 1.0 <==> lower(a) == lower(b) && lower(a) != ""
  {
    RowPerfect(Decompose(h, lower(a)), Decompose(h, lower(b)));
    DecomposeInjective(h, lower(a), lower(b));
    DecomposeNonEmpty(h, lower(a));
  }

  /** Syllables have no case. */
  ghost predicate KeepsSyllables(lower: Lowercase) {
    forall s :: AllSyllables(s) ==> lower(s) == s
  }

  /** For words of syllables, 1 means equality. */
  lemma SyllablesPerfect(h: Tables, a: string, b: string, lower: Lowercase)
    requires KeepsSyllables(lower) && AllSyllables(a) && AllSyllables(b)
    ensures 0.0 <= Similarity(h, a, b, lower) <= 1.0
    ensures Similarity(h, a, b, lower) == 1.0 <==> a == b && a != ""
  {
    SyllablesHaveNoBareLetters(a);
    SyllablesHaveNoBareLetters(b);
    SimilarityPerfect(h, a, b, lower);
  }
}
