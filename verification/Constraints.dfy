/**
 Relative ranking constraints and the effect of reranking on them (app/benchmark/constraints.py,
 the stage counters of app/benchmark/scenario_types.py, the policy verdict of
 app/benchmark/layers.py), with unrounded real scores.
 */
module Constraints {
  import opened Basics

  datatype Constraint = Constraint(name: string, higher: string, lower: string, minMargin: real, critical: bool)

  datatype Result = Result(name: string, critical: bool, passed: bool, margin: real)

  function Margin(c: Constraint, scores: map<string, real>): real
    requires c.higher in scores && c.lower in scores
  {
    scores[c.higher] - scores[c.lower]
  }

  /** None when a candidate is missing from the ranking, where the program raises. */
  function Evaluate(c: Constraint, scores: map<string, real>): Option<Result> {
    if c.higher !in scores || c.lower !in scores then None
    else
      var margin := Margin(c, scores);
      Some(Result(c.name, c.critical, if c.minMargin > 0.0 then margin > c.minMargin else margin > 0.0, margin))
  }

  predicate Passes(c: Constraint, scores: map<string, real>) {
    Evaluate(c, scores).Some? && Evaluate(c, scores).value.passed
  }

  /** A constraint is evaluated exactly if both candidates have a score, keeps its name and weight, and
      passes exactly if the higher one leads by more than the minimum margin, and leads at all. */
  lemma EvaluatedIff(c: Constraint, scores: map<string, real>)
    ensures Evaluate(c, scores).Some? <==> c.higher in scores && c.lower in scores
    ensures Evaluate(c, scores).Some? ==>
      var r := Evaluate(c, scores).value;
      && r.name == c.name && r.critical == c.critical && r.margin == scores[c.higher] - scores[c.lower]
      && (r.passed <==> scores[c.higher] > scores[c.lower] && scores[c.higher] - c.minMargin > scores[c.lower])
  {
  }

  // ----- passed constraints order the candidates -----

  ghost predicate Chain(cs: seq<Constraint>) {
    forall i | 0 < i < |cs| :: cs[i - 1].lower == cs[i].higher
  }

  ghost predicate AllPass(cs: seq<Constraint>, scores: map<string, real>) {
    forall i | 0 <= i < |cs| :: Passes(cs[i], scores)
  }

  function TotalMargin(cs: seq<Constraint>, scores: map<string, real>): real
    requires AllPass(cs, scores)
  {
    if cs == [] then 0.0 else TotalMargin(cs[..|cs| - 1], scores) + Margin(cs[|cs| - 1], scores)
  }

  /** The margins along a chain of passed constraints telescope to a positive score difference. */
  lemma {:induction false} MarginsTelescope(cs: seq<Constraint>, scores: map<string, real>)
    requires cs != [] && Chain(cs) && AllPass(cs, scores)
    ensures TotalMargin(cs, scores) == scores[cs[0].higher] - scores[cs[|cs| - 1].lower] > 0.0
  {
    var before, last := cs[..|cs| - 1], cs[|cs| - 1];
    assert Passes(last, scores);
    if before != [] {
      MarginsTelescope(before, scores);
      assert before[|before| - 1].lower == last.higher;
    }
  }

  /** The passed constraints form a strict partial order, whatever their minimum margins: a chain of
      them never returns to where it started.  So a scenario whose constraints contain a cycle
      cannot pass them all, under any scores. */
  lemma CyclesNeverPass(cs: seq<Constraint>, scores: map<string, real>)
    requires cs != [] && Chain(cs) && cs[|cs| - 1].lower == cs[0].higher
    ensures !AllPass(cs, scores)
  {
    if AllPass(cs, scores) {
      MarginsTelescope(cs, scores);
    }
  }

  /** A ranking by score, best first. */
  ghost predicate RanksByScore(ranking: seq<string>, scores: map<string, real>) {
    && (forall id :: id in ranking <==> id in scores)
    && (forall i, j | 0 <= i < j < |ranking| :: ranking[i] != ranking[j] && scores[ranking[i]] >= scores[ranking[j]])
  }

  /** In the raw ranking the higher candidate of a chain of passed constraints comes before the
      lower one. */
  lemma PassedConstraintsHoldInRanking(cs: seq<Constraint>, scores: map<string, real>, ranking: seq<string>)
    returns (i: nat, j: nat)
    requires cs != [] && Chain(cs) && AllPass(cs, scores) && RanksByScore(ranking, scores)
    ensures i < j < |ranking| && ranking[i] == cs[0].higher && ranking[j] == cs[|cs| - 1].lower
  {
    MarginsTelescope(cs, scores);
    assert Passes(cs[0], scores) && Passes(cs[|cs| - 1], scores);
    i :| 0 <= i < |ranking| && ranking[i] == cs[0].higher;
    j :| 0 <= j < |ranking| && ranking[j] == cs[|cs| - 1].lower;
  }

  // ----- what reranking does to the verdicts -----

  /** Verdicts by name; a later result of the same name replaces an earlier one. */
  function ByName(results: seq<Result>): map<string, bool> {
    if results == [] then map[]
    else ByName(results[..|results| - 1])[results[|results| - 1].name := results[|results| - 1].passed]
  }

  /** The names in the order in which they first appear. */
  function Names(results: seq<Result>): seq<string> {
    if results == [] then []
    else
      var before, name := Names(results[..|results| - 1]), results[|results| - 1].name;
      if name in before then before else before + [name]
  }

  datatype Effect = Improved | Degraded | Neutral | Unmatched

  function EffectOn(name: string, raw: map<string, bool>, reranked: map<string, bool>): Effect {
    if name !in raw || name !in reranked then Unmatched
    else if !raw[name] && reranked[name] then Improved
    else if raw[name] && !reranked[name] then Degraded
    else Neutral
  }

  function Elements(names: seq<string>): set<string> {
    set n | n in names
  }

  function With(names: seq<string>, raw: map<string, bool>, reranked: map<string, bool>, effect: Effect): seq<string> {
    if names == [] then []
    else
      var before, name := With(names[..|names| - 1], raw, reranked, effect), names[|names| - 1];
      if EffectOn(name, raw, reranked) == effect then before + [name] else before
  }

  method ClassifyRerankerEffect(raw: seq<Result>, reranked: seq<Result>)
    returns (improved: seq<string>, degraded: seq<string>, neutral: seq<string>)
    ensures improved == With(Names(raw), ByName(raw), ByName(reranked), Improved)
    ensures degraded == With(Names(raw), ByName(raw), ByName(reranked), Degraded)
    ensures neutral == With(Names(raw), ByName(raw), ByName(reranked), Neutral)
  {
    var rawByName, rerankedByName, names := ByName(raw), ByName(reranked), Names(raw);
    NamesAreKeys(raw);
    improved, degraded, neutral := [], [], [];
    for i := 0 to |names|
      invariant improved == With(names[..i], rawByName, rerankedByName, Improved)
      invariant degraded == With(names[..i], rawByName, rerankedByName, Degraded)
      invariant neutral == With(names[..i], rawByName, rerankedByName, Neutral)
    {
      var name := names[i];
      assert names[..i + 1][..i] == names[..i];
      assert name in rawByName;
      if name in rerankedByName {
        if !rawByName[name] && rerankedByName[name] {
          improved := improved + [name];
        } else if rawByName[name] && !rerankedByName[name] {
          degraded := degraded + [name];
        } else {
          neutral := neutral + [name];
        }
      }
    }
    assert names[..|names|] == names;
  }

  lemma {:induction false} NamesAreKeys(results: seq<Result>)
    ensures forall n :: n in Names(results) <==> n in ByName(results)
    ensures forall i, j | 0 <= i < j < |Names(results)| :: Names(results)[i] != Names(results)[j]
  {
    if results != [] { NamesAreKeys(results[..|results| - 1]); }
  }

  lemma {:induction false} WithIsFilter(names: seq<string>, raw: map<string, bool>, reranked: map<string, bool>, effect: Effect)
    requires forall i, j | 0 <= i < j < |names| :: names[i] != names[j]
    ensures var w := With(names, raw, reranked, effect);
      && (forall n :: n in w <==> n in names && EffectOn(n, raw, reranked) == effect)
      && |w| == |Elements(w)|
  {
    if names != [] {
      var before, last := names[..|names| - 1], names[|names| - 1];
      WithIsFilter(before, raw, reranked, effect);
      assert names == before + [last];
      var w, v := With(names, raw, reranked, effect), With(before, raw, reranked, effect);
      if w != v {
        assert Elements(w) == Elements(v) + {last};
      }
    }
  }

  function PassedNames(m: map<string, bool>): set<string> {
    set n | n in m && m[n]
  }

  /** `constraints_passed` of a stage. */
  function CountPassed(results: seq<Result>): nat {
    if results == [] then 0
    else CountPassed(results[..|results| - 1]) + if results[|results| - 1].passed then 1 else 0
  }

  /** Passed results that a later result of the same name replaces. */
  function Shadowed(results: seq<Result>): nat {
    if results == [] then 0
    else
      var before, last := results[..|results| - 1], results[|results| - 1];
      Shadowed(before) + if last.name in PassedNames(ByName(before)) then 1 else 0
  }

  lemma OneElement(p: set<string>, x: string)
    ensures |p + {x}| == |p| + (if x in p then 0 else 1)
    ensures |p - {x}| == |p| - (if x in p then 1 else 0)
  {
    if x in p { assert p + {x} == p; } else { assert p - {x} == p; }
  }

  lemma {:induction false} CountIsPassedPlusShadowed(results: seq<Result>)
    ensures CountPassed(results) == |PassedNames(ByName(results))| + Shadowed(results)
  {
    if results != [] {
      var before, last := results[..|results| - 1], results[|results| - 1];
      CountIsPassedPlusShadowed(before);
      var p, q := PassedNames(ByName(before)), PassedNames(ByName(results));
      assert q == if last.passed then p + {last.name} else p - {last.name};
      OneElement(p, last.name);
    }
  }

  lemma {:induction false} KeyHasResult(results: seq<Result>, n: string) returns (i: nat)
    requires n in ByName(results)
    ensures i < |results| && results[i].name == n
  {
    var before, last := results[..|results| - 1], results[|results| - 1];
    if n == last.name { i := |results| - 1; } else { i := KeyHasResult(before, n); }
  }

  lemma {:induction false} DistinctNamesShadowNothing(results: seq<Result>)
    requires forall i, j | 0 <= i < j < |results| :: results[i].name != results[j].name
    ensures Shadowed(results) == 0
  {
    if results != [] {
      var before, last := results[..|results| - 1], results[|results| - 1];
      DistinctNamesShadowNothing(before);
      forall n | n in ByName(before) ensures n != last.name {
        var i := KeyHasResult(before, n);
        assert results[i].name == n;
      }
    }
  }

  /** The verdict on a name is that of its last result. */
  lemma {:induction false} VerdictIsTheLast(results: seq<Result>, i: nat)
    requires i < |results| && forall j :: i < j < |results| ==> results[j].name != results[i].name
    ensures results[i].name in ByName(results) && ByName(results)[results[i].name] == results[i].passed
  {
    if i < |results| - 1 { VerdictIsTheLast(results[..|results| - 1], i); }
  }

  /** Names come in the order of their first results. */
  lemma {:induction false} NamesByFirstResult(results: seq<Result>, n: nat)
    requires n <= |results|
    ensures Names(results[..n]) <= Names(results)
  {
    if n < |results| {
      assert results[..|results| - 1][..n] == results[..n];
      NamesByFirstResult(results[..|results| - 1], n);
    } else {
      assert results[..n] == results;
    }
  }

  /** ... and are reported in that order. */
  lemma {:induction false} ReportsKeepOrder(names: seq<string>, raw: map<string, bool>, reranked: map<string, bool>, effect: Effect, n: nat)
    requires n <= |names|
    ensures With(names[..n], raw, reranked, effect) <= With(names, raw, reranked, effect)
  {
    if n < |names| {
      assert names[..|names| - 1][..n] == names[..n];
      ReportsKeepOrder(names[..|names| - 1], raw, reranked, effect, n);
    } else {
      assert names[..n] == names;
    }
  }

  /** Which names are reported as what, for any two lists of results: by the verdicts alone, and a name
      that only one stage has is not reported. */
  lemma EffectsBySpelling(raw: seq<Result>, reranked: seq<Result>, n: string)
    ensures var a, b := ByName(raw), ByName(reranked);
      && (n in With(Names(raw), a, b, Improved) <==> n in a && n in b && !a[n] && b[n])
      && (n in With(Names(raw), a, b, Degraded) <==> n in a && n in b && a[n] && !b[n])
      && (n in With(Names(raw), a, b, Neutral) <==> n in a && n in b && a[n] == b[n])
  {
    NamesAreKeys(raw);
    WithIsFilter(Names(raw), ByName(raw), ByName(reranked), Improved);
    WithIsFilter(Names(raw), ByName(raw), ByName(reranked), Degraded);
    WithIsFilter(Names(raw), ByName(raw), ByName(reranked), Neutral);
  }

  /** The stage counter is the number of passed results. */
  lemma {:induction false} CounterCounts(results: seq<Result>)
    ensures CountPassed(results) == |set i: nat | i < |results| && results[i].passed|
  {
    var now := set i: nat | i < |results| && results[i].passed;
    if results == [] {
      assert now == {};
    } else {
      var n := |results| - 1;
      CounterCounts(results[..n]);
      var before := set i: nat | i < |results[..n]| && results[..n][i].passed;
      assert now == if results[n].passed then before + {n} else before;
    }
  }

  /** The same constraints evaluated at both stages. */
  ghost predicate SameNames(raw: seq<Result>, reranked: seq<Result>) {
    |raw| == |reranked| && forall i | 0 <= i < |raw| :: raw[i].name == reranked[i].name
  }

  lemma {:induction false} SameNamesSameKeys(raw: seq<Result>, reranked: seq<Result>)
    requires SameNames(raw, reranked)
    ensures ByName(raw).Keys == ByName(reranked).Keys
  {
    if raw != [] { SameNamesSameKeys(raw[..|raw| - 1], reranked[..|reranked| - 1]); }
  }

  /** How many names changed their verdict from not `a` to `b`. */
  lemma EffectsAreDifferences(raw: seq<Result>, reranked: seq<Result>)
    requires SameNames(raw, reranked)
    ensures var a, b := ByName(raw), ByName(reranked);
      && Elements(With(Names(raw), a, b, Improved)) == PassedNames(b) - PassedNames(a)
      && Elements(With(Names(raw), a, b, Degraded)) == PassedNames(a) - PassedNames(b)
      && |With(Names(raw), a, b, Improved)| == |PassedNames(b) - PassedNames(a)|
      && |With(Names(raw), a, b, Degraded)| == |PassedNames(a) - PassedNames(b)|
  {
    var a, b := ByName(raw), ByName(reranked);
    NamesAreKeys(raw);
    SameNamesSameKeys(raw, reranked);
    WithIsFilter(Names(raw), a, b, Improved);
    WithIsFilter(Names(raw), a, b, Degraded);
    assert forall n :: n in b <==> n in a;
    forall n ensures n in With(Names(raw), a, b, Improved) <==> n in PassedNames(b) - PassedNames(a) {}
    forall n ensures n in With(Names(raw), a, b, Degraded) <==> n in PassedNames(a) - PassedNames(b) {}
  }

  lemma DifferencesBalance(p: set<string>, q: set<string>)
    ensures |q - p| + |p| == |p - q| + |q|
  {
    assert p == (p - q) + (p * q);
    assert q == (q - p) + (p * q);
  }

  /** Improved, degraded and neutral partition the constraint names. */
  lemma EffectsPartition(raw: seq<Result>, reranked: seq<Result>, n: string)
    requires SameNames(raw, reranked)
    ensures var a, b := ByName(raw), ByName(reranked);
      var improved, degraded, neutral :=
        With(Names(raw), a, b, Improved), With(Names(raw), a, b, Degraded), With(Names(raw), a, b, Neutral);
      && (n in a <==> n in improved || n in degraded || n in neutral)
      && !(n in improved && n in degraded) && !(n in improved && n in neutral) && !(n in degraded && n in neutral)
      && (n in neutral <==> n in a && n in b && a[n] == b[n])
  {
    var a, b := ByName(raw), ByName(reranked);
    NamesAreKeys(raw);
    SameNamesSameKeys(raw, reranked);
    WithIsFilter(Names(raw), a, b, Improved);
    WithIsFilter(Names(raw), a, b, Degraded);
    WithIsFilter(Names(raw), a, b, Neutral);
    assert n in b <==> n in a;
  }

  /** Conservation: improved minus degraded is the change in the stage's `constraints_passed`
      counter exactly when reused names hide equally many passes at both stages -- in particular
      whenever constraint names are unique. */
  lemma {:induction false} EffectsAreConserved(raw: seq<Result>, reranked: seq<Result>)
    requires SameNames(raw, reranked)
    ensures var a, b := ByName(raw), ByName(reranked);
      |With(Names(raw), a, b, Improved)| + CountPassed(raw)
        == |With(Names(raw), a, b, Degraded)| + CountPassed(reranked)
      <==> Shadowed(raw) == Shadowed(reranked)
    ensures (forall i, j | 0 <= i < j < |raw| :: raw[i].name != raw[j].name) ==> Shadowed(raw) == Shadowed(reranked)
  {
    EffectsAreDifferences(raw, reranked);
    DifferencesBalance(PassedNames(ByName(raw)), PassedNames(ByName(reranked)));
    CountIsPassedPlusShadowed(raw);
    CountIsPassedPlusShadowed(reranked);
    if forall i, j | 0 <= i < j < |raw| :: raw[i].name != raw[j].name {
      DistinctNamesShadowNothing(raw);
      DistinctNamesShadowNothing(reranked);
    }
  }

  /** It does fail when a name is reused: of two constraints called alike the first passes on raw
      scores only and the second never does.  The stage counter falls by one and no effect is
      reported. */
  lemma ReusedNamesBreakTheBalance()
    returns (first: Constraint, second: Constraint, rawScores: map<string, real>, rerankedScores: map<string, real>)
    ensures Evaluate(first, rawScores).Some? && Evaluate(second, rawScores).Some?
    ensures Evaluate(first, rerankedScores).Some? && Evaluate(second, rerankedScores).Some?
    ensures var raw := [Evaluate(first, rawScores).value, Evaluate(second, rawScores).value];
      var reranked := [Evaluate(first, rerankedScores).value, Evaluate(second, rerankedScores).value];
      && SameNames(raw, reranked)
      && CountPassed(raw) == 1 && CountPassed(reranked) == 0
      && With(Names(raw), ByName(raw), ByName(reranked), Improved) == []
      && With(Names(raw), ByName(raw), ByName(reranked), Degraded) == []
  {
    first, second := Constraint("c", "x", "y", 0.0, false), Constraint("c", "y", "x", 0.0, false);
    rawScores, rerankedScores := map["x" := 1.0, "y" := 0.0], map["x" := 0.0, "y" := 0.0];
    var raw := [Evaluate(first, rawScores).value, Evaluate(second, rawScores).value];
    var reranked := [Evaluate(first, rerankedScores).value, Evaluate(second, rerankedScores).value];
    TwoOfAName(raw[0], raw[1]);
    TwoOfAName(reranked[0], reranked[1]);
    assert ByName(raw) == map["c" := false] == ByName(reranked);
    assert ["c"][..0] == [];
  }

  lemma TwoOfAName(a: Result, b: Result)
    requires a.name == b.name
    ensures ByName([a, b]) == map[a.name := b.passed] && Names([a, b]) == [a.name]
    ensures CountPassed([a, b]) == (if a.passed then 1 else 0) + if b.passed then 1 else 0
  {
    assert [a, b][..1] == [a] && [a][..0] == [];
    assert ByName([a]) == map[a.name := a.passed] && Names([a]) == [] + [a.name];
    assert CountPassed([a]) == if a.passed then 1 else 0;
  }

  // ----- the policy verdict -----

  datatype Scenario = Scenario(raw: seq<Result>, reranked: seq<Result>)

  function Degradations(s: Scenario): seq<string> {
    With(Names(s.raw), ByName(s.raw), ByName(s.reranked), Degraded)
  }

  function TotalDegraded(scenarios: seq<Scenario>): nat {
    if scenarios == [] then 0
    else TotalDegraded(scenarios[..|scenarios| - 1]) + |Degradations(scenarios[|scenarios| - 1])|
  }

  lemma {:induction false} NoneDegraded(scenarios: seq<Scenario>)
    ensures TotalDegraded(scenarios) == 0 <==> forall i | 0 <= i < |scenarios| :: Degradations(scenarios[i]) == []
  {
    if scenarios != [] { NoneDegraded(scenarios[..|scenarios| - 1]); }
  }

  /** The reranker policy report passes exactly when, in every scenario, every constraint name that
      passed on raw scores still passes after reranking. */
  lemma {:induction false} PolicyPassesIff(scenarios: seq<Scenario>)
    requires forall i | 0 <= i < |scenarios| :: SameNames(scenarios[i].raw, scenarios[i].reranked)
    ensures TotalDegraded(scenarios) == 0 <==>
      forall i | 0 <= i < |scenarios| ::
        PassedNames(ByName(scenarios[i].raw)) <= PassedNames(ByName(scenarios[i].reranked))
  {
    NoneDegraded(scenarios);
    forall i | 0 <= i < |scenarios|
      ensures Degradations(scenarios[i]) == [] <==>
        PassedNames(ByName(scenarios[i].raw)) <= PassedNames(ByName(scenarios[i].reranked))
    {
      var s := scenarios[i];
      EffectsAreDifferences(s.raw, s.reranked);
      var p, q := PassedNames(ByName(s.raw)), PassedNames(ByName(s.reranked));
      if p - q == {} {
        forall n | n in p ensures n in q { assert n !in p - q; }
      } else {
        var n :| n in p - q;
        assert n in p && n !in q;
      }
      assert Degradations(s) == [] <==> |Degradations(s)| == 0;
    }
  }
}
