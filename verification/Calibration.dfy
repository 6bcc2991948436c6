/**
 The ranking comparison of a model before and after calibration
 (`calibration_ranking_comparison` in app/benchmark/diagnostics.py), with scores as reals.
 */
module Calibration {

  /** The order of `rank(ascending=False, method="first")`: by score, ties by first appearance. */
  predicate Before(s: seq<real>, i: nat, j: nat)
    requires i < |s| && j < |s|
  {
    s[i] > s[j] || (s[i] == s[j] && i < j)
  }

  function Ahead(s: seq<real>, i: nat): set<nat>
    requires i < |s|
  {
    set j: nat | j < |s| && Before(s, j, i)
  }

  function Rank(s: seq<real>, i: nat): nat
    requires i < |s|
  {
    1 + |Ahead(s, i)|
  }

  function RankVector(s: seq<real>): (r: seq<nat>)
    ensures |r| == |s| && forall i: nat | i < |s| :: r[i] == Rank(s, i)
  {
    seq(|s|, i requires 0 <= i < |s| => Rank(s, i))
  }

  lemma SmallerSet(a: set<nat>, b: set<nat>, x: nat)
    requires a <= b && x in b && x !in a
    ensures |a| < |b|
  {
    assert |b - a| + |a| == |b| by { assert b == (b - a) + a; }
    assert x in b - a;
  }

  /** Ranks count, and counting keeps the order. */
  lemma RanksKeepOrder(s: seq<real>, i: nat, j: nat)
    requires i < |s| && j < |s| && i != j
    ensures Rank(s, i) < Rank(s, j) <==> Before(s, i, j)
    ensures Rank(s, i) != Rank(s, j)
  {
    if Before(s, i, j) {
      SmallerSet(Ahead(s, i), Ahead(s, j), i);
    } else {
      SmallerSet(Ahead(s, j), Ahead(s, i), j);
    }
  }

  predicate Disagree(a: seq<real>, b: seq<real>, i: nat, j: nat)
    requires |a| == |b| && i < |a| && j < |a|
  {
    Before(a, i, j) != Before(b, i, j)
  }

  /** Disagreements of `i` with the later positions below `m`. */
  function Row(a: seq<real>, b: seq<real>, i: nat, m: nat): nat
    requires |a| == |b| && i < |a| && m <= |a|
  {
    if m <= i + 1 then 0 else Row(a, b, i, m - 1) + if Disagree(a, b, i, m - 1) then 1 else 0
  }

  function Rows(a: seq<real>, b: seq<real>, m: nat): nat
    requires |a| == |b| && m <= |a|
  {
    if m == 0 then 0 else Rows(a, b, m - 1) + Row(a, b, m - 1, |a|)
  }

  /** The number of pairs the two scorings order differently. */
  function Inversions(a: seq<real>, b: seq<real>): nat
    requires |a| == |b|
  {
    Rows(a, b, |a|)
  }

  /** The program's double loop over the two rank vectors. */
  method CompareRankings(uncalibrated: seq<real>, calibrated: seq<real>)
    returns (inversions: nat, totalPairs: nat, identical: bool)
    requires |uncalibrated| == |calibrated|
    ensures inversions == Inversions(uncalibrated, calibrated)
    ensures totalPairs == |uncalibrated| * (|uncalibrated| - 1) / 2
    ensures identical <==> RankVector(uncalibrated) == RankVector(calibrated)
    ensures inversions == |InvertedPairs(RankVector(uncalibrated), RankVector(calibrated), |uncalibrated|)|
  {
    var before, after := RankVector(uncalibrated), RankVector(calibrated);
    var n := |uncalibrated|;
    inversions := 0;
    for i := 0 to n
      invariant inversions == Rows(uncalibrated, calibrated, i)
    {
      for j := i + 1 to n
        invariant inversions == Rows(uncalibrated, calibrated, i) + Row(uncalibrated, calibrated, i, j)
      {
        RanksKeepOrder(uncalibrated, i, j);
        RanksKeepOrder(calibrated, i, j);
        var beforeOrder := before[i] < before[j];
        var afterOrder := after[i] < after[j];
        if beforeOrder != afterOrder {
          inversions := inversions + 1;
        }
      }
    }
    InversionsAreInvertedPairs(uncalibrated, calibrated);
    totalPairs := n * (n - 1) / 2;
    identical := inversions == 0;
    NoInversionsIffSameRanks(uncalibrated, calibrated);
  }

  predicate Inverted(before: seq<nat>, after: seq<nat>, i: nat, j: nat)
    requires i < |before| == |after| && j < |before|
  {
    (before[i] < before[j]) != (after[i] < after[j])
  }

  /** The pairs of positions that two rank vectors order differently. */
  function InvertedPairs(before: seq<nat>, after: seq<nat>, n: nat): set<(nat, nat)>
    requires n <= |before| == |after|
  {
    set i: nat, j: nat | i < j < |before| && i < n && Inverted(before, after, i, j) :: (i, j)
  }

  function RowPairs(before: seq<nat>, after: seq<nat>, i: nat, m: nat): set<(nat, nat)>
    requires i < |before| == |after| && m <= |before|
  {
    set j: nat | i < j < m && Inverted(before, after, i, j) :: (i, j)
  }

  lemma InvertedIsDisagree(a: seq<real>, b: seq<real>, i: nat, j: nat)
    requires |a| == |b| && i < j < |a|
    ensures Inverted(RankVector(a), RankVector(b), i, j) <==> Disagree(a, b, i, j)
  {
    RanksKeepOrder(a, i, j);
    RanksKeepOrder(b, i, j);
  }

  lemma {:induction false} RowIsRowPairs(a: seq<real>, b: seq<real>, i: nat, m: nat)
    requires |a| == |b| && i < |a| && m <= |a|
    ensures Row(a, b, i, m) == |RowPairs(RankVector(a), RankVector(b), i, m)|
  {
    var p, q := RankVector(a), RankVector(b);
    if m <= i + 1 {
      assert RowPairs(p, q, i, m) == {};
    } else {
      RowIsRowPairs(a, b, i, m - 1);
      InvertedIsDisagree(a, b, i, m - 1);
      OneMorePair(p, q, i, m);
    }
  }

  lemma OneMorePair(p: seq<nat>, q: seq<nat>, i: nat, m: nat)
    requires i + 1 < m <= |p| == |q|
    ensures |RowPairs(p, q, i, m)| == |RowPairs(p, q, i, m - 1)| + if Inverted(p, q, i, m - 1) then 1 else 0
  {
    var fewer := RowPairs(p, q, i, m - 1);
    assert RowPairs(p, q, i, m) == if Inverted(p, q, i, m - 1) then fewer + {(i, m - 1)} else fewer;
  }

  lemma {:induction false} RowsAreInvertedPairs(a: seq<real>, b: seq<real>, n: nat)
    requires n <= |a| == |b|
    ensures Rows(a, b, n) == |InvertedPairs(RankVector(a), RankVector(b), n)|
  {
    var p, q := RankVector(a), RankVector(b);
    if n == 0 {
      assert InvertedPairs(p, q, 0) == {};
    } else {
      RowsAreInvertedPairs(a, b, n - 1);
      RowIsRowPairs(a, b, n - 1, |a|);
      OneMoreRow(p, q, n);
    }
  }

  lemma OneMoreRow(p: seq<nat>, q: seq<nat>, n: nat)
    requires 0 < n <= |p| == |q|
    ensures |InvertedPairs(p, q, n)| == |InvertedPairs(p, q, n - 1)| + |RowPairs(p, q, n - 1, |p|)|
  {
    var fewer, row := InvertedPairs(p, q, n - 1), RowPairs(p, q, n - 1, |p|);
    assert InvertedPairs(p, q, n) == fewer + row;
    assert fewer !! row;
  }

  lemma InversionsAreInvertedPairs(a: seq<real>, b: seq<real>)
    requires |a| == |b|
    ensures Inversions(a, b) == |InvertedPairs(RankVector(a), RankVector(b), |a|)|
  {
    RowsAreInvertedPairs(a, b, |a|);
  }

  /** Ranks count from one: one more than the scores that are higher, or as high and earlier. */
  lemma RankCounts(s: seq<real>, i: nat)
    requires i < |s|
    ensures RankVector(s)[i] == 1 + |set j: nat | j < |s| && (s[j] > s[i] || (s[j] == s[i] && j < i))|
  {
    assert Ahead(s, i) == set j: nat | j < |s| && (s[j] > s[i] || (s[j] == s[i] && j < i));
  }

  // ----- a metric on rankings -----

  lemma {:induction false} RowBounds(a: seq<real>, b: seq<real>, i: nat, m: nat)
    requires |a| == |b| && i < |a| && i < m <= |a|
    ensures Row(a, b, i, m) <= m - i - 1
    ensures Row(a, b, i, m) == Row(b, a, i, m)
    ensures Row(a, b, i, m) == 0 <==> forall j | i < j < m :: !Disagree(a, b, i, j)
    ensures Row(a, b, i, m) == m - i - 1 <==> forall j | i < j < m :: Disagree(a, b, i, j)
  {
    if m > i + 1 { RowBounds(a, b, i, m - 1); }
  }

  /** The pairs whose first position is below `m`, all together. */
  function PairsBelow(m: nat, n: nat): nat
    requires m <= n
  {
    if m == 0 then 0 else PairsBelow(m - 1, n) + (n - m)
  }

  lemma {:induction false} PairCount(m: nat, n: nat)
    requires m <= n
    ensures 2 * PairsBelow(m, n) == m * (2 * n - m - 1)
  {
    if m > 0 {
      PairCount(m - 1, n);
      assert m * (2 * n - m - 1) == (m - 1) * (2 * n - m) + 2 * (n - m);
    }
  }

  /** No pair (or: every pair) whose first position is below `m` is ordered differently. */
  ghost predicate Agree(a: seq<real>, b: seq<real>, m: nat)
    requires |a| == |b| && m <= |a|
  {
    forall i: nat, j: nat | i < m && i < j < |a| :: !Disagree(a, b, i, j)
  }

  ghost predicate Opposed(a: seq<real>, b: seq<real>, m: nat)
    requires |a| == |b| && m <= |a|
  {
    forall i: nat, j: nat | i < m && i < j < |a| :: Disagree(a, b, i, j)
  }

  lemma {:induction false} RowsBounds(a: seq<real>, b: seq<real>, m: nat)
    requires |a| == |b| && m <= |a|
    ensures Rows(a, b, m) <= PairsBelow(m, |a|)
    ensures Rows(a, b, m) == Rows(b, a, m)
    ensures Rows(a, b, m) == 0 <==> Agree(a, b, m)
    ensures Rows(a, b, m) == PairsBelow(m, |a|) <==> Opposed(a, b, m)
  {
    if m > 0 {
      RowsBounds(a, b, m - 1);
      RowBounds(a, b, m - 1, |a|);
    }
  }

  /** Zero inversions and equal rank vectors are the same thing. */
  lemma NoInversionsIffSameRanks(a: seq<real>, b: seq<real>)
    requires |a| == |b|
    ensures Inversions(a, b) == 0 <==> RankVector(a) == RankVector(b)
  {
    RowsBounds(a, b, |a|);
    if Agree(a, b, |a|) {
      forall i: nat | i < |a| ensures Ahead(a, i) == Ahead(b, i) {
        forall j: nat | j < |a| ensures Before(a, j, i) == Before(b, j, i) {
          if i < j { assert !Disagree(a, b, i, j); } else if j < i { assert !Disagree(a, b, j, i); }
        }
      }
    }
    if RankVector(a) == RankVector(b) {
      forall i: nat, j: nat | i < |a| && i < j < |a| ensures !Disagree(a, b, i, j) {
        RanksKeepOrder(a, i, j);
        RanksKeepOrder(b, i, j);
        assert RankVector(a)[i] == RankVector(b)[i] && RankVector(a)[j] == RankVector(b)[j];
      }
    }
  }

  /** Symmetric, at most every pair, and every pair exactly when the orders are opposite. */
  lemma InversionBounds(a: seq<real>, b: seq<real>)
    requires |a| == |b|
    ensures Inversions(a, b) == Inversions(b, a)
    ensures 2 * Inversions(a, b) <= |a| * (|a| - 1)
    ensures 2 * Inversions(a, b) == |a| * (|a| - 1) <==> Opposed(a, b, |a|)
  {
    RowsBounds(a, b, |a|);
    PairCount(|a|, |a|);
  }

  lemma {:induction false} RowTriangle(a: seq<real>, b: seq<real>, c: seq<real>, i: nat, m: nat)
    requires |a| == |b| == |c| && i < |a| && m <= |a|
    ensures Row(a, c, i, m) <= Row(a, b, i, m) + Row(b, c, i, m)
  {
    if m > i + 1 { RowTriangle(a, b, c, i, m - 1); }
  }

  lemma {:induction false} RowsTriangle(a: seq<real>, b: seq<real>, c: seq<real>, m: nat)
    requires |a| == |b| == |c| && m <= |a|
    ensures Rows(a, c, m) <= Rows(a, b, m) + Rows(b, c, m)
  {
    if m > 0 {
      RowsTriangle(a, b, c, m - 1);
      RowTriangle(a, b, c, m - 1, |a|);
    }
  }

  /** The triangle inequality across three scorings of one pool. */
  lemma InversionTriangle(a: seq<real>, b: seq<real>, c: seq<real>)
    requires |a| == |b| == |c|
    ensures Inversions(a, c) <= Inversions(a, b) + Inversions(b, c)
  {
    RowsTriangle(a, b, c, |a|);
  }

  // ----- what a calibration map does to the ranking -----

  ghost predicate Increasing(f: real -> real) {
    forall x: real, y: real | x <= y :: f(x) <= f(y)
  }

  ghost predicate CollapsesOutOfOrder(f: real -> real, s: seq<real>) {
    exists i: nat, j: nat :: i < j < |s| && s[i] < s[j] && f(s[i]) == f(s[j])
  }

  /** A calibration map that never decreases (a sigmoid, an isotonic fit) leaves the ranking
      identical exactly when it collapses no pair whose better candidate came later; a strictly
      increasing one collapses nothing. */
  lemma CalibrationKeepsRanking(f: real -> real, s: seq<real>, t: seq<real>)
    requires Increasing(f) && |t| == |s| && forall i | 0 <= i < |s| :: t[i] == f(s[i])
    ensures Inversions(s, t) == 0 <==> !CollapsesOutOfOrder(f, s)
    ensures (forall x: real, y: real | x < y :: f(x) < f(y)) ==> Inversions(s, t) == 0
  {
    RowsBounds(s, t, |s|);
    forall i: nat, j: nat | i < j < |s|
      ensures Disagree(s, t, i, j) <==> s[i] < s[j] && f(s[i]) == f(s[j])
    {
      assert s[i] <= s[j] ==> f(s[i]) <= f(s[j]);
      assert s[j] <= s[i] ==> f(s[j]) <= f(s[i]);
    }
    if CollapsesOutOfOrder(f, s) {
      var i: nat, j: nat :| i < j < |s| && s[i] < s[j] && f(s[i]) == f(s[j]);
      assert Disagree(s, t, i, j);
    }
  }
}
