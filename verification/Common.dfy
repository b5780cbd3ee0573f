/** Shared vocabulary: optional values, the ends of sequences, and a little arithmetic and counting. */
module Common {
  datatype Option<+T> = None | Some(value: T)

  function Last<T>(s: seq<T>): T
    requires s != []
  {
    s[|s| - 1]
  }

  function Init<T>(s: seq<T>): seq<T>
    requires s != []
  {
    s[..|s| - 1]
  }

  lemma InitLast<T>(s: seq<T>)
    requires s != []
    ensures s == Init(s) + [Last(s)]
  {
  }

  lemma SignOfFactor(a: real, m: real)
    requires m > 0.0 && a * m >= 0.0
    ensures a >= 0.0
  {
  }

  /** A part of a whole, as a share of it. */
  lemma ShareInUnit(x: real, m: real)
    requires m > 0.0 && 0.0 <= x <= m
    ensures 0.0 <= x / m <= 1.0
    ensures x / m == 1.0 <==> x == m
  {
    var q := x / m;
    assert q * m == x;
    SignOfFactor(q, m);
    assert (1.0 - q) * m == m - q * m;
    SignOfFactor(1.0 - q, m);
    if x == m {
      assert (q - 1.0) * m == q * m - m;
      SignOfFactor(q - 1.0, m);
    }
  }

  lemma SubsetCount<T>(a: set<T>, b: set<T>)
    requires a <= b
    ensures |a| <= |b|
  {
    assert b == a + (b - a);
  }

  lemma TimesMonotone(a: nat, b: nat, m: nat)
    requires a <= b
    ensures a * m <= b * m
  {
  }
}
