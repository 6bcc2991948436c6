/**
 Graded-relevance ranking metrics (app/benchmark/metrics.py), with unrounded reals.

 The discount `1 / log2(index + 2)` is any sequence that starts at 1 and is positive and strictly
 decreasing, which is all the results below depend on.
 */
module RankingMetrics {

  const RELEVANT_THRESHOLD := 2

  ghost predicate Discount(w: nat -> real) {
    && w(0) == 1.0
    && (forall i: nat :: w(i) > 0.0)
    && (forall i: nat, j: nat | i < j :: w(i) > w(j))
  }

  function Min(a: nat, b: nat): nat {
    if a <= b then a else b
  }

  function Discounted(grade: real, weight: real): real {
    grade * weight
  }

  /** The discounted gain of the first `m` grades. */
  function Gain(r: seq<int>, m: nat, w: nat -> real): real
    requires m <= |r|
  {
    if m == 0 then 0.0 else Gain(r, m - 1, w) + Discounted(r[m - 1] as real, w(m - 1))
  }

  function Dcg(r: seq<int>, k: nat, w: nat -> real): real {
    Gain(r, Min(k, |r|), w)
  }

  function Insert(x: int, s: seq<int>): seq<int> {
    if s == [] || x >= s[0] then [x] + s else [s[0]] + Insert(x, s[1..])
  }

  /** `sorted(..., reverse=True)`. */
  function SortDesc(r: seq<int>): seq<int> {
    if r == [] then [] else Insert(r[0], SortDesc(r[1..]))
  }

  function Ndcg(r: seq<int>, k: nat, w: nat -> real): real {
    var ideal := Dcg(SortDesc(r), k, w);
    if ideal != 0.0 then Dcg(r, k, w) / ideal else 0.0
  }

  // ----- sorting -----

  ghost predicate Descending(s: seq<int>) {
    forall i, j | 0 <= i < j < |s| :: s[i] >= s[j]
  }

  lemma {:induction false} InsertBounded(x: int, s: seq<int>, u: int)
    requires x <= u && forall i | 0 <= i < |s| :: s[i] <= u
    ensures |Insert(x, s)| == |s| + 1
    ensures forall i | 0 <= i <= |s| :: Insert(x, s)[i] <= u
  {
    if s != [] && x < s[0] { InsertBounded(x, s[1..], u); }
  }

  lemma {:induction false} InsertPermutes(x: int, s: seq<int>)
    ensures multiset(Insert(x, s)) == multiset([x] + s)
  {
    if s != [] && x < s[0] {
      InsertPermutes(x, s[1..]);
      assert [x] + s == [x] + ([s[0]] + s[1..]);
      assert multiset([s[0]] + Insert(x, s[1..])) == multiset{s[0]} + multiset(Insert(x, s[1..]));
    }
  }

  lemma {:induction false} InsertSorts(x: int, s: seq<int>)
    requires Descending(s)
    ensures Descending(Insert(x, s)) && |Insert(x, s)| == |s| + 1
  {
    if s != [] && x < s[0] {
      InsertSorts(x, s[1..]);
      InsertBounded(x, s[1..], s[0]);
    }
  }

  lemma {:induction false} SortDescSorts(r: seq<int>)
    ensures Descending(SortDesc(r)) && multiset(SortDesc(r)) == multiset(r) && |SortDesc(r)| == |r|
  {
    if r != [] {
      SortDescSorts(r[1..]);
      InsertSorts(r[0], SortDesc(r[1..]));
      InsertPermutes(r[0], SortDesc(r[1..]));
      assert r == [r[0]] + r[1..];
    }
  }

  lemma HeadIsLargest(a: seq<int>, b: seq<int>)
    requires Descending(a) && multiset(a) == multiset(b) && a != []
    ensures b != [] && b[0] <= a[0]
  {
    assert a[0] in multiset(b);
    assert b[0] in multiset(a);
  }

  /** A descending arrangement is determined by its elements. */
  lemma {:induction false} DescendingIsUnique(a: seq<int>, b: seq<int>)
    requires Descending(a) && Descending(b) && multiset(a) == multiset(b)
    ensures a == b
  {
    if a == [] {
      assert |multiset(b)| == 0;
    } else {
      HeadIsLargest(a, b);
      HeadIsLargest(b, a);
      TailMultiset(a);
      TailMultiset(b);
      DescendingIsUnique(a[1..], b[1..]);
      assert a == [a[0]] + a[1..] && b == [b[0]] + b[1..];
    }
  }

  lemma TailMultiset(a: seq<int>)
    requires a != []
    ensures multiset(a[1..]) == multiset(a) - multiset{a[0]}
  {
    assert a == [a[0]] + a[1..];
  }

  lemma SortIsPermutationInvariant(r: seq<int>, p: seq<int>)
    requires multiset(p) == multiset(r)
    ensures SortDesc(p) == SortDesc(r) && |p| == |r|
  {
    SortDescSorts(r);
    SortDescSorts(p);
    DescendingIsUnique(SortDesc(p), SortDesc(r));
    assert |multiset(p)| == |multiset(r)|;
  }

  // ----- no arrangement has larger partial sums than the descending one -----

  function Total(s: seq<int>, m: nat): int
    requires m <= |s|
  {
    if m == 0 then 0 else Total(s, m - 1) + s[m - 1]
  }

  lemma {:induction false} TotalFront(s: seq<int>, m: nat)
    requires 0 < m <= |s|
    ensures Total(s, m) == s[0] + Total(s[1..], m - 1)
  {
    if m > 1 { TotalFront(s, m - 1); }
  }

  lemma {:induction false} InsertTotals(x: int, s: seq<int>, m: nat)
    requires Descending(s) && m <= |s|
    ensures |Insert(x, s)| == |s| + 1
    ensures Total(Insert(x, s), m + 1) >= x + Total(s, m)
    ensures Total(Insert(x, s), m) >= Total(s, m)
  {
    InsertSorts(x, s);
    var t := Insert(x, s);
    TotalFront(t, m + 1);
    if m > 0 { TotalFront(t, m); TotalFront(s, m); }
    if s == [] || x >= s[0] {
      assert t[1..] == s;
    } else {
      assert t[1..] == Insert(x, s[1..]);
      if m > 0 { InsertTotals(x, s[1..], m - 1); }
    }
  }

  lemma {:induction false} DescendingTotalsAreLargest(r: seq<int>, m: nat)
    requires m <= |r|
    ensures |SortDesc(r)| == |r| && Total(r, m) <= Total(SortDesc(r), m)
  {
    SortDescSorts(r);
    if m > 0 {
      SortDescSorts(r[1..]);
      DescendingTotalsAreLargest(r[1..], m - 1);
      TotalFront(r, m);
      InsertTotals(r[0], SortDesc(r[1..]), m - 1);
    }
  }

  // ----- summation by parts -----

  ghost predicate Dominates(b: seq<int>, a: seq<int>, m: nat)
    requires m <= |a| && m <= |b|
  {
    forall j: nat | j <= m :: Total(a, j) <= Total(b, j)
  }

  function LastWeight(m: nat, w: nat -> real): real {
    if m == 0 then 1.0 else w(m - 1)
  }

  /** The first `m` grades of `b` are worth at least their surplus at the smallest weight. */
  ghost predicate Ahead(a: seq<int>, b: seq<int>, m: nat, w: nat -> real)
    requires m <= |a| && m <= |b|
  {
    Gain(b, m, w) - Gain(a, m, w) >= Discounted((Total(b, m) - Total(a, m)) as real, LastWeight(m, w)) >= 0.0
  }

  lemma AheadStep(a: seq<int>, b: seq<int>, m: nat, w: nat -> real)
    requires Discount(w) && 0 < m <= |a| && m <= |b| && Ahead(a, b, m - 1, w)
    requires Total(a, m - 1) <= Total(b, m - 1) && Total(a, m) <= Total(b, m)
    ensures Ahead(a, b, m, w)
    ensures Gain(b, m, w) == Gain(a, m, w) ==>
      Gain(b, m - 1, w) == Gain(a, m - 1, w) && Total(b, m) == Total(a, m)
  {
    var surplus := (Total(b, m - 1) - Total(a, m - 1)) as real;
    ByParts(Gain(b, m - 1, w) - Gain(a, m - 1, w), surplus,
            b[m - 1] as real, a[m - 1] as real, LastWeight(m - 1, w), w(m - 1));
    assert (Total(b, m) - Total(a, m)) as real == surplus + b[m - 1] as real - a[m - 1] as real;
  }

  lemma {:induction false} DominatingGain(a: seq<int>, b: seq<int>, m: nat, w: nat -> real)
    requires Discount(w) && m <= |a| && m <= |b| && Dominates(b, a, m)
    ensures Ahead(a, b, m, w)
    ensures Gain(b, m, w) == Gain(a, m, w) ==> forall j: nat | j <= m :: Total(a, j) == Total(b, j)
  {
    if m > 0 {
      DominatingGain(a, b, m - 1, w);
      assert Total(a, m - 1) <= Total(b, m - 1) && Total(a, m) <= Total(b, m);
      AheadStep(a, b, m, w);
    }
  }

  /** One step of the summation: a non-negative surplus only gains from the larger weight. */
  lemma ByParts(gain: real, surplus: real, y: real, x: real, u: real, v: real)
    requires u >= v > 0.0 && surplus >= 0.0 && surplus + y - x >= 0.0
    requires gain >= Discounted(surplus, u)
    ensures var next := gain + Discounted(y, v) - Discounted(x, v);
      && next >= Discounted(surplus + y - x, v) >= 0.0
      && (next == 0.0 && (u > v || surplus == 0.0) ==> gain == 0.0 && surplus == 0.0 && y == x)
  {
    Expand(gain, surplus, y, x, u, v);
    Sign(surplus, u - v);
    Sign(surplus + y - x, v);
    if gain + y * v - x * v == 0.0 && (u > v || surplus == 0.0) {
      assert surplus == 0.0;
      assert (surplus + y - x) * v == 0.0;
    }
  }

  lemma Expand(gain: real, surplus: real, y: real, x: real, u: real, v: real)
    ensures gain + y * v - x * v == (surplus + y - x) * v + (gain - surplus * u) + surplus * (u - v)
  {
    assert (surplus + y - x) * v == surplus * v + y * v - x * v;
    assert surplus * (u - v) == surplus * u - surplus * v;
  }

  lemma Sign(x: real, y: real)
    requires x >= 0.0 && y >= 0.0
    ensures x * y >= 0.0
    ensures x * y == 0.0 <==> x == 0.0 || y == 0.0
  {
  }

  /** The other factor of a product has the product's sign when this one is positive. */
  lemma Factor(x: real, y: real)
    requires y > 0.0
    ensures (x * y >= 0.0 <==> x >= 0.0) && (x * y > 0.0 <==> x > 0.0)
  {
    if x < 0.0 { Sign(-x, y); assert -x * y == -(x * y); } else { Sign(x, y); }
  }

  lemma {:induction false} EqualTotals(a: seq<int>, b: seq<int>, m: nat)
    requires m <= |a| && m <= |b| && forall j: nat | j <= m :: Total(a, j) == Total(b, j)
    ensures a[..m] == b[..m]
  {
    forall i: nat | i < m ensures a[i] == b[i] {
      assert Total(a, i + 1) == Total(b, i + 1) && Total(a, i) == Total(b, i);
    }
  }

  lemma {:induction false} SamePrefixSameGain(a: seq<int>, b: seq<int>, m: nat, w: nat -> real)
    requires m <= |a| && m <= |b| && a[..m] == b[..m]
    ensures Gain(a, m, w) == Gain(b, m, w)
  {
    if m > 0 {
      assert a[m - 1] == a[..m][m - 1] == b[..m][m - 1];
      assert a[..m - 1] == a[..m][..m - 1] == b[..m][..m - 1] == b[..m - 1];
      SamePrefixSameGain(a, b, m - 1, w);
    }
  }

  // ----- nDCG -----

  /** The truncated rearrangement inequality: of all arrangements of the same grades (any
      integers), the descending one has the largest DCG at every cutoff, and only arrangements that
      agree with it above the cutoff attain it. */
  lemma DescendingIsOptimal(r: seq<int>, p: seq<int>, k: nat, w: nat -> real)
    requires Discount(w) && multiset(p) == multiset(r)
    ensures |p| == |SortDesc(r)|
    ensures Dcg(p, k, w) <= Dcg(SortDesc(r), k, w)
    ensures Dcg(p, k, w) == Dcg(SortDesc(r), k, w) <==> p[..Min(k, |p|)] == SortDesc(r)[..Min(k, |p|)]
  {
    SortIsPermutationInvariant(r, p);
    SortDescSorts(p);
    var m := Min(k, |p|);
    forall j: nat | j <= m ensures Total(p, j) <= Total(SortDesc(p), j) {
      DescendingTotalsAreLargest(p, j);
    }
    DominatingGain(p, SortDesc(p), m, w);
    if Dcg(p, k, w) == Dcg(SortDesc(r), k, w) {
      EqualTotals(p, SortDesc(p), m);
    }
    if p[..m] == SortDesc(r)[..m] {
      SamePrefixSameGain(p, SortDesc(r), m, w);
    }
  }

  ghost predicate Graded(r: seq<int>) {
    forall i | 0 <= i < |r| :: 0 <= r[i] <= 4
  }

  lemma {:induction false} GainOfGraded(r: seq<int>, m: nat, w: nat -> real)
    requires Discount(w) && m <= |r| && forall i | 0 <= i < |r| :: r[i] >= 0
    ensures Gain(r, m, w) >= 0.0
    ensures Gain(r, m, w) == 0.0 <==> forall i | 0 <= i < m :: r[i] == 0
  {
    if m > 0 {
      GainOfGraded(r, m - 1, w);
      assert w(m - 1) > 0.0;
      Sign(r[m - 1] as real, w(m - 1));
      assert Discounted(r[m - 1] as real, w(m - 1)) >= 0.0;
    }
  }

  /** nDCG lies in [0, 1]; it is 1 exactly for the rankings whose top k is the ideal top k. */
  lemma NdcgIsNormalised(r: seq<int>, k: nat, w: nat -> real)
    requires Discount(w) && Graded(r)
    ensures 0.0 <= Ndcg(r, k, w) <= 1.0
    ensures |SortDesc(r)| == |r|
    ensures Dcg(SortDesc(r), k, w) != 0.0 ==>
      (Ndcg(r, k, w) == 1.0 <==> r[..Min(k, |r|)] == SortDesc(r)[..Min(k, |r|)])
    ensures Dcg(SortDesc(r), k, w) == 0.0 <==> k == 0 || forall i | 0 <= i < |r| :: r[i] == 0
  {
    var s, m := SortDesc(r), Min(k, |r|);
    DescendingIsOptimal(r, r, k, w);
    SortDescSorts(r);
    forall i | 0 <= i < |s| ensures s[i] >= 0 && s[i] in r {
      assert s[i] in multiset(r);
    }
    GainOfGraded(r, m, w);
    GainOfGraded(s, m, w);
    var d, ideal := Dcg(r, k, w), Dcg(s, k, w);
    if ideal != 0.0 {
      Quotient(d, ideal);
    }
    if ideal == 0.0 && k > 0 {
      forall i | 0 <= i < |r| ensures r[i] == 0 {
        assert r[i] in multiset(s);
        assert s[0] == 0;
      }
    }
  }

  lemma Quotient(d: real, ideal: real)
    requires 0.0 <= d <= ideal && ideal > 0.0
    ensures 0.0 <= d / ideal <= 1.0 && (d / ideal == 1.0 <==> d == ideal)
  {
    var q := d / ideal;
    assert q * ideal == d;
    Factor(q, ideal);
    assert (1.0 - q) * ideal == ideal - d;
    Factor(1.0 - q, ideal);
  }

  // ----- the binary metrics -----

  predicate Relevant(grade: int) {
    grade >= RELEVANT_THRESHOLD
  }

  /** How many of the first `m` grades are relevant. */
  function Hits(r: seq<int>, m: nat): nat
    requires m <= |r|
  {
    if m == 0 then 0 else Hits(r, m - 1) + if Relevant(r[m - 1]) then 1 else 0
  }

  /** Position of the first relevant grade, or the length if there is none. */
  function FirstRelevant(r: seq<int>): nat {
    if r == [] || Relevant(r[0]) then 0 else 1 + FirstRelevant(r[1..])
  }

  /** A cutoff of 0 on a non-empty ranking divides by zero in the program. */
  function Precision(r: seq<int>, k: nat): real
    requires k > 0
  {
    if r == [] then 0.0 else Hits(r, Min(k, |r|)) as real / Min(k, |r|) as real
  }

  function Recall(r: seq<int>, k: nat): real {
    if Hits(r, |r|) == 0 then 0.0 else Hits(r, Min(k, |r|)) as real / Hits(r, |r|) as real
  }

  function HitRate(r: seq<int>, k: nat): real {
    if Hits(r, |r|) != 0 && exists i :: 0 <= i < Min(k, |r|) && Relevant(r[i]) then 1.0 else 0.0
  }

  function Mrr(r: seq<int>): real {
    if FirstRelevant(r) == |r| then 0.0 else 1.0 / (FirstRelevant(r) + 1) as real
  }

  lemma {:induction false} HitsMonotone(r: seq<int>, m: nat, n: nat)
    requires m <= n <= |r|
    ensures Hits(r, m) <= Hits(r, n) <= n
    ensures forall i | m <= i < n && Relevant(r[i]) :: Hits(r, m) < Hits(r, n)
  {
    if n > 0 {
      if m < n { HitsMonotone(r, m, n - 1); } else { HitsMonotone(r, m - 1, n - 1); }
    }
  }

  lemma {:induction false} FirstRelevantIsFirst(r: seq<int>)
    ensures FirstRelevant(r) <= |r|
    ensures forall i | 0 <= i < FirstRelevant(r) :: !Relevant(r[i])
    ensures FirstRelevant(r) < |r| ==> Relevant(r[FirstRelevant(r)])
  {
    if r != [] { FirstRelevantIsFirst(r[1..]); }
  }

  /** Precision and recall count the same hits. */
  lemma PrecisionTimesCutoffIsRecallTimesRelevant(r: seq<int>, k: nat)
    requires k > 0
    ensures Precision(r, k) * Min(k, |r|) as real == Recall(r, k) * Hits(r, |r|) as real
  {
    PrecisionCancels(r, k);
    RecallCancels(r, k);
  }

  lemma PrecisionCancels(r: seq<int>, k: nat)
    requires k > 0
    ensures Precision(r, k) * Min(k, |r|) as real == Hits(r, Min(k, |r|)) as real
  {
    if r != [] { Cancel(Hits(r, Min(k, |r|)), Min(k, |r|)); }
  }

  lemma RecallCancels(r: seq<int>, k: nat)
    ensures Recall(r, k) * Hits(r, |r|) as real == Hits(r, Min(k, |r|)) as real
  {
    var a, d := Hits(r, Min(k, |r|)), Hits(r, |r|);
    if d == 0 {
      HitsMonotone(r, Min(k, |r|), |r|);
    } else {
      Cancel(a, d);
      assert Recall(r, k) == a as real / d as real;
    }
  }

  lemma Cancel(a: nat, d: nat)
    requires d > 0
    ensures a as real / d as real * d as real == a as real
  {
  }

  /** Recall never falls as the cutoff grows, and is complete once everything is in it. */
  lemma RecallGrows(r: seq<int>, k: nat, n: nat)
    requires k <= n
    ensures 0.0 <= Recall(r, k) <= Recall(r, n) <= 1.0
    ensures n >= |r| && Hits(r, |r|) > 0 ==> Recall(r, n) == 1.0
  {
    var total := Hits(r, |r|);
    HitsMonotone(r, Min(k, |r|), Min(n, |r|));
    HitsMonotone(r, Min(n, |r|), |r|);
    if total > 0 {
      Fractions(Hits(r, Min(k, |r|)), Hits(r, Min(n, |r|)), total);
      Fractions(Hits(r, Min(n, |r|)), total, total);
    }
  }

  lemma Fractions(a: nat, b: nat, d: nat)
    requires a <= b && d > 0
    ensures 0.0 <= a as real / d as real <= b as real / d as real
    ensures d as real / d as real == 1.0
  {
    var x, y, z := a as real / d as real, b as real / d as real, d as real;
    assert x * z == a as real && y * z == b as real;
    assert (y - x) * z == (b - a) as real;
  }

  /** A hit in the top k and a reciprocal rank of at least 1/k are the same thing. */
  lemma HitIffReciprocalRank(r: seq<int>, k: nat)
    requires k > 0
    ensures HitRate(r, k) == 1.0 <==> Mrr(r) >= 1.0 / k as real
    ensures HitRate(r, k) == 1.0 <==> FirstRelevant(r) < Min(k, |r|)
  {
    FirstRelevantIsFirst(r);
    var first := FirstRelevant(r);
    if first < |r| {
      HitsMonotone(r, first, |r|);
      if first < k { Reciprocals(first + 1, k); } else { Reciprocals(k, first + 1); }
    }
    if exists i :: 0 <= i < Min(k, |r|) && Relevant(r[i]) {
      var i :| 0 <= i < Min(k, |r|) && Relevant(r[i]);
      assert first <= i;
    }
  }

  lemma Reciprocals(a: nat, b: nat)
    requires 0 < a <= b
    ensures 1.0 / a as real >= 1.0 / b as real > 0.0
    ensures a < b ==> 1.0 / a as real > 1.0 / b as real
  {
    var x, y := 1.0 / a as real, 1.0 / b as real;
    assert x * a as real == 1.0 && y * b as real == 1.0;
    assert (x - y) * a as real == y * (b - a) as real;
  }

  // ----- moving a better item up -----

  function SwapNext(r: seq<int>, i: nat): seq<int>
    requires i + 1 < |r|
  {
    r[i := r[i + 1]][i + 1 := r[i]]
  }

  lemma SwapPermutes(r: seq<int>, i: nat)
    requires i + 1 < |r|
    ensures multiset(SwapNext(r, i)) == multiset(r)
  {
    assert multiset(r[i := r[i + 1]]) == multiset(r) - multiset{r[i]} + multiset{r[i + 1]};
  }

  /** What a swap of grades `x < y` at positions `i` and `i + 1` is worth at cutoff `m`. */
  function SwapWorth(x: real, y: real, i: nat, m: nat, w: nat -> real): real {
    if m <= i then 0.0
    else if m == i + 1 then Discounted(y, w(i)) - Discounted(x, w(i))
    else Discounted(y, w(i)) - Discounted(x, w(i)) + Discounted(x, w(i + 1)) - Discounted(y, w(i + 1))
  }

  lemma {:induction false} SwapGain(r: seq<int>, i: nat, m: nat, w: nat -> real)
    requires i + 1 < |r| && m <= |r|
    ensures Gain(SwapNext(r, i), m, w) - Gain(r, m, w) == SwapWorth(r[i] as real, r[i + 1] as real, i, m, w)
  {
    var p := SwapNext(r, i);
    if m <= i {
      SamePrefixSameGain(p, r, m, w);
    } else {
      SwapGain(r, i, m - 1, w);
      assert p[m - 1] == if m == i + 1 then r[i + 1] else if m == i + 2 then r[i] else r[m - 1];
    }
  }

  lemma {:induction false} SwapHits(r: seq<int>, i: nat, m: nat)
    requires i + 1 < |r| && m <= |r| && r[i] < r[i + 1]
    ensures Hits(SwapNext(r, i), m) ==
      Hits(r, m) + if m == i + 1 && Relevant(r[i + 1]) && !Relevant(r[i]) then 1 else 0
  {
    if m > 0 { SwapHits(r, i, m - 1); }
  }

  /** Moving a better-graded item up past its neighbour lowers no metric at any cutoff, and raises
      nDCG strictly whenever the position it moves to is above the cutoff. */
  lemma PromotingABetterItemHelps(r: seq<int>, i: nat, k: nat, w: nat -> real)
    requires Discount(w) && Graded(r) && i + 1 < |r| && r[i] < r[i + 1] && k > 0
    ensures var p := SwapNext(r, i);
      && Ndcg(p, k, w) >= Ndcg(r, k, w) && (i < k ==> Ndcg(p, k, w) > Ndcg(r, k, w))
      && Precision(p, k) >= Precision(r, k) && Recall(p, k) >= Recall(r, k)
      && HitRate(p, k) >= HitRate(r, k) && Mrr(p) >= Mrr(r)
  {
    var p := SwapNext(r, i);
    SwapRaisesNdcg(r, i, k, w);
    SwapHits(r, i, Min(k, |r|));
    SwapHits(r, i, |r|);
    Fractions(Hits(r, Min(k, |r|)), Hits(p, Min(k, |r|)), Min(k, |r|));
    if Hits(r, |r|) > 0 { Fractions(Hits(r, Min(k, |r|)), Hits(p, Min(k, |r|)), Hits(r, |r|)); }
    SwapKeepsFirst(r, i);
    HitIffReciprocalRank(r, k);
    HitIffReciprocalRank(p, k);
  }

  lemma EarlierFirstIsWorthMore(r: seq<int>, p: seq<int>)
    requires |p| == |r| && FirstRelevant(p) <= FirstRelevant(r)
    ensures Mrr(p) >= Mrr(r)
  {
    FirstRelevantIsFirst(r);
    if FirstRelevant(r) < |r| { Reciprocals(FirstRelevant(p) + 1, FirstRelevant(r) + 1); }
    if FirstRelevant(p) < |p| { ReciprocalIsPositive(FirstRelevant(p) + 1); }
  }

  lemma ReciprocalIsPositive(n: nat)
    requires n > 0
    ensures 1.0 / n as real > 0.0
  {
  }

  lemma SwapFirst(r: seq<int>, i: nat)
    requires i + 1 < |r| && r[i] < r[i + 1]
    ensures FirstRelevant(SwapNext(r, i)) <= FirstRelevant(r)
  {
    var p, first := SwapNext(r, i), FirstRelevant(r);
    FirstRelevantIsFirst(r);
    FirstRelevantIsFirst(p);
    if first < |r| {
      FirstIsAtMost(p, if first == i + 1 then i else first);
    }
  }

  lemma SwapKeepsFirst(r: seq<int>, i: nat)
    requires i + 1 < |r| && r[i] < r[i + 1]
    ensures FirstRelevant(SwapNext(r, i)) <= FirstRelevant(r) && Mrr(SwapNext(r, i)) >= Mrr(r)
  {
    SwapFirst(r, i);
    EarlierFirstIsWorthMore(r, SwapNext(r, i));
  }

  lemma FirstIsAtMost(r: seq<int>, j: nat)
    requires j < |r| && Relevant(r[j])
    ensures FirstRelevant(r) <= j
  {
    FirstRelevantIsFirst(r);
  }

  lemma SwapRaisesNdcg(r: seq<int>, i: nat, k: nat, w: nat -> real)
    requires Discount(w) && Graded(r) && i + 1 < |r| && r[i] < r[i + 1] && k > 0
    ensures Ndcg(SwapNext(r, i), k, w) >= Ndcg(r, k, w)
    ensures i < k ==> Ndcg(SwapNext(r, i), k, w) > Ndcg(r, k, w)
  {
    SwapPermutes(r, i);
    SortIsPermutationInvariant(r, SwapNext(r, i));
    SwapRaisesDcg(r, i, k, w);
    PositiveIdeal(r, i + 1, k, w);
    Larger(Dcg(r, k, w), Dcg(SwapNext(r, i), k, w), Dcg(SortDesc(r), k, w));
  }

  lemma SwapRaisesDcg(r: seq<int>, i: nat, k: nat, w: nat -> real)
    requires Discount(w) && i + 1 < |r| && r[i] < r[i + 1]
    ensures Dcg(SwapNext(r, i), k, w) >= Dcg(r, k, w)
    ensures i < k ==> Dcg(SwapNext(r, i), k, w) > Dcg(r, k, w)
  {
    var m := Min(k, |r|);
    SwapGain(r, i, m, w);
    Worth(r[i] as real, r[i + 1] as real, i, m, w);
    assert Dcg(r, k, w) == Gain(r, m, w) && Dcg(SwapNext(r, i), k, w) == Gain(SwapNext(r, i), m, w);
  }

  lemma PositiveIdeal(r: seq<int>, j: nat, k: nat, w: nat -> real)
    requires Discount(w) && Graded(r) && k > 0 && j < |r| && r[j] > 0
    ensures Dcg(SortDesc(r), k, w) > 0.0
  {
    NdcgIsNormalised(r, k, w);
    DescendingIsOptimal(r, r, k, w);
    GainOfGraded(r, Min(k, |r|), w);
  }

  lemma Worth(x: real, y: real, i: nat, m: nat, w: nat -> real)
    requires Discount(w) && x < y
    ensures SwapWorth(x, y, i, m, w) >= 0.0 && (i < m ==> SwapWorth(x, y, i, m, w) > 0.0)
  {
    Scale(x, y, w(i), w(i + 1));
  }

  lemma Scale(x: real, y: real, u: real, v: real)
    requires x < y && u > v > 0.0
    ensures var gain, loss := Discounted(y, u) - Discounted(x, u), Discounted(y, v) - Discounted(x, v);
      gain > 0.0 && gain - loss > 0.0
  {
    Sign(y - x, u);
    Sign(y - x, u - v);
    assert y * u - x * u == (y - x) * u;
    assert y * u - x * u - (y * v - x * v) == (y - x) * (u - v);
  }

  lemma Larger(x: real, y: real, ideal: real)
    requires x <= y && ideal > 0.0
    ensures x / ideal <= y / ideal && (x < y ==> x / ideal < y / ideal)
  {
    var p, q := x / ideal, y / ideal;
    assert p * ideal == x && q * ideal == y;
    assert (q - p) * ideal == y - x;
    Factor(q - p, ideal);
  }

  // ----- the metrics by what they count -----

  /** DCG adds up position by position ... */
  lemma {:induction false} GainIsLinear(r: seq<int>, p: seq<int>, q: seq<int>, m: nat, w: nat -> real)
    requires |r| == |p| == |q| && m <= |r| && forall i :: 0 <= i < m ==> q[i] == r[i] + p[i]
    ensures Gain(q, m, w) == Gain(r, m, w) + Gain(p, m, w)
  {
    if m > 0 {
      GainIsLinear(r, p, q, m - 1, w);
      AddedGrades(r[m - 1] as real, p[m - 1] as real, w(m - 1));
    }
  }

  lemma AddedGrades(x: real, y: real, u: real)
    ensures Discounted(x + y, u) == Discounted(x, u) + Discounted(y, u)
  {
  }

  lemma DcgIsLinear(r: seq<int>, p: seq<int>, q: seq<int>, k: nat, w: nat -> real)
    requires |r| == |p| == |q| && forall i :: 0 <= i < |r| ==> q[i] == r[i] + p[i]
    ensures Dcg(q, k, w) == Dcg(r, k, w) + Dcg(p, k, w)
  {
    GainIsLinear(r, p, q, Min(k, |r|), w);
  }

  /** ... and one graded item alone is worth its grade times the weight of its position, if that is
      above the cutoff.  The two together leave no other sum. */
  lemma {:induction false} OneGradeGain(r: seq<int>, i: nat, m: nat, w: nat -> real)
    requires i < |r| && m <= |r| && forall j :: 0 <= j < |r| && j != i ==> r[j] == 0
    ensures Gain(r, m, w) == if i < m then r[i] as real * w(i) else 0.0
  {
    if m > 0 {
      OneGradeGain(r, i, m - 1, w);
      assert m - 1 != i ==> Discounted(0.0, w(m - 1)) == 0.0;
    }
  }

  lemma OneGradeDcg(r: seq<int>, i: nat, k: nat, w: nat -> real)
    requires i < |r| && forall j :: 0 <= j < |r| && j != i ==> r[j] == 0
    ensures Dcg(r, k, w) == if i < k then r[i] as real * w(i) else 0.0
  {
    OneGradeGain(r, i, Min(k, |r|), w);
  }

  /** The quotient that nDCG is. */
  lemma NdcgIsTheQuotient(r: seq<int>, k: nat, w: nat -> real)
    ensures Ndcg(r, k, w) * Dcg(SortDesc(r), k, w) == if Dcg(SortDesc(r), k, w) == 0.0 then 0.0 else Dcg(r, k, w)
    ensures Dcg(SortDesc(r), k, w) == 0.0 ==> Ndcg(r, k, w) == 0.0
  {
  }

  /** The positions before `m` whose grade is at least 2. */
  function RelevantPositions(r: seq<int>, m: nat): set<nat>
    requires m <= |r|
  {
    set i: nat | i < m && r[i] >= 2
  }

  lemma {:induction false} HitsAreRelevantPositions(r: seq<int>, m: nat)
    requires m <= |r|
    ensures Hits(r, m) == |RelevantPositions(r, m)|
  {
    if m > 0 {
      HitsAreRelevantPositions(r, m - 1);
      var before, now := RelevantPositions(r, m - 1), RelevantPositions(r, m);
      assert now == if r[m - 1] >= 2 then before + {m - 1} else before;
    }
  }

  /** Precision, recall and hit rate by the relevant positions alone, with their value where the program
      has a case of its own ... */
  lemma MetricsCount(r: seq<int>, k: nat)
    requires k > 0
    ensures var top, all := |RelevantPositions(r, Min(k, |r|))|, |RelevantPositions(r, |r|)|;
      && (r == [] ==> Precision(r, k) == 0.0) && Precision(r, k) * Min(k, |r|) as real == top as real
      && (all == 0 ==> Recall(r, k) == 0.0) && Recall(r, k) * all as real == top as real
      && HitRate(r, k) == (if top == 0 then 0.0 else 1.0)
  {
    PrecisionCancels(r, k);
    RecallCancels(r, k);
    HitsAreRelevantPositions(r, Min(k, |r|));
    HitsAreRelevantPositions(r, |r|);
    HitRateCounts(r, k);
  }

  /** ... and the reciprocal rank by the first of them. */
  lemma MrrIsOfTheFirst(r: seq<int>, i: nat)
    requires i < |r| && r[i] >= 2 && forall j :: 0 <= j < i ==> r[j] < 2
    ensures Mrr(r) * (i + 1) as real == 1.0
  {
    FirstRelevantIsFirst(r);
    assert Relevant(r[i]) && FirstRelevant(r) == i;
    ReciprocalCancels(i + 1);
  }

  lemma NothingRelevantIsNothing(r: seq<int>)
    requires forall j :: 0 <= j < |r| ==> r[j] < 2
    ensures Mrr(r) == 0.0
  {
    FirstRelevantIsFirst(r);
  }

  lemma ReciprocalCancels(n: nat)
    requires n > 0
    ensures 1.0 / n as real * n as real == 1.0
  {
  }

  lemma HitRateCounts(r: seq<int>, k: nat)
    requires k > 0
    ensures HitRate(r, k) == if RelevantPositions(r, Min(k, |r|)) == {} then 0.0 else 1.0
  {
    var m := Min(k, |r|);
    HitsAreRelevantPositions(r, |r|);
    if i: nat :| i in RelevantPositions(r, m) {
      assert i < m && Relevant(r[i]) && i in RelevantPositions(r, |r|);
    }
    if j: nat :| j < m && Relevant(r[j]) {
      assert j in RelevantPositions(r, m);
    }
  }
}
