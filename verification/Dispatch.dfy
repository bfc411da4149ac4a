/** The dispatch scoring engine in exact arithmetic (backend/dispatch/scoring.go). `same` decides whether
    two skill or make names are the same up to case; the texts of the reasons are not modelled. */
module Dispatch {
  import opened Wrappers
  import opened Text
  import opened Sorting

  datatype Candidate = Candidate(id: Uuid, etaMinutes: int, skills: seq<string>, makes: seq<string>, available: bool,
                                 hasEquipment: bool, hasParts: bool, acceptanceRate: real, completionRate: real,
                                 rating: real, declinedLast: bool)

  datatype Job = Job(skills: seq<string>, make: string, parts: seq<string>)

  datatype Weights = Weights(technicalFit: real, proximity: real, availability: real, equipment: real, parts: real, performance: real)

  datatype Factor = Factor(weight: real, normalized: real)

  datatype Score = Score(id: Uuid, total: real, factors: seq<Factor>)

  type Same = (string, string) -> bool

  // ----- rounding -----

  function Clamp01(x: real): real { if x <= 0.0 then 0.0 else if x >= 1.0 then 1.0 else x }

  /** math.Round: half away from zero. */
  function Round(x: real): int { if x >= 0.0 then (x + 0.5).Floor else -((0.5 - x).Floor) }

  const ROUND_UNIT: real := 10000.0

  function Round4(x: real): real { Round(x * ROUND_UNIT) as real / ROUND_UNIT }

  lemma Round4Monotone(x: real, y: real)
    requires x <= y
    ensures Round4(x) <= Round4(y)
  {
    var a, b := x * ROUND_UNIT, y * ROUND_UNIT;
    assert Round(a) <= Round(b);
    assert Round(a) as real <= Round(b) as real;
  }

  /** Rounding keeps [0, 1], and brings back to 1 what exceeds it by less than half a unit. */
  lemma Round4Range(x: real)
    requires 0.0 <= x < 1.00005
    ensures 0.0 <= Round4(x) <= 1.0
  {
    assert 0 <= Round(x * ROUND_UNIT) <= 10000;
  }

  // ----- the factors -----

  predicate ContainsFold(list: seq<string>, needle: string, same: Same) {
    exists i :: 0 <= i < |list| && same(list[i], needle)
  }

  function Matched(required: seq<string>, held: seq<string>, same: Same): nat {
    if required == [] then 0
    else Matched(required[..|required| - 1], held, same) + if ContainsFold(held, required[|required| - 1], same) then 1 else 0
  }

  const MAKE_MISMATCH_BONUS: real := 0.5
  const PARTS_PARTIAL_CREDIT: real := 0.5
  const DECLINED_LAST_PENALTY: real := 0.5
  const ETA_SCALE_MINUTES: real := 30.0
  const RATING_SCALE: real := 5.0

  function SkillRatio(c: Candidate, j: Job, same: Same): real {
    if |j.skills| == 0 then 1.0 else Matched(j.skills, c.skills, same) as real / |j.skills| as real
  }

  predicate MakeFits(c: Candidate, j: Job, same: Same) { j.make == "" || ContainsFold(c.makes, j.make, same) }

  function TechnicalFit(c: Candidate, j: Job, same: Same): real {
    Round4(Clamp01(SkillRatio(c, j, same) * if MakeFits(c, j, same) then 1.0 else MAKE_MISMATCH_BONUS))
  }

  function Eta(c: Candidate): nat { if c.etaMinutes < 0 then 0 else c.etaMinutes }

  function Proximity(c: Candidate): real {
    if !c.available then 0.0 else Round4(1.0 / (1.0 + Eta(c) as real / ETA_SCALE_MINUTES))
  }

  function Availability(c: Candidate): real {
    if !c.available then 0.0 else if c.declinedLast then DECLINED_LAST_PENALTY else 1.0
  }

  function Equipment(c: Candidate): real { if c.hasEquipment then 1.0 else 0.0 }

  function Parts(c: Candidate, j: Job): real {
    if |j.parts| == 0 || c.hasParts then 1.0 else PARTS_PARTIAL_CREDIT
  }

  function Performance(c: Candidate): real {
    var rating := (if c.rating < 0.0 then 0.0 else if c.rating > RATING_SCALE then RATING_SCALE else c.rating) / RATING_SCALE;
    Round4(Clamp01(0.4 * Clamp01(c.completionRate) + 0.4 * rating + 0.2 * Clamp01(c.acceptanceRate)))
  }

  function Factors(c: Candidate, j: Job, w: Weights, same: Same): seq<Factor> {
    [Factor(w.technicalFit, TechnicalFit(c, j, same)), Factor(w.proximity, Proximity(c)),
     Factor(w.availability, Availability(c)), Factor(w.equipment, Equipment(c)),
     Factor(w.parts, Parts(c, j)), Factor(w.performance, Performance(c))]
  }

  function Sum(factors: seq<Factor>): real {
    if factors == [] then 0.0
    else Sum(factors[..|factors| - 1]) + factors[|factors| - 1].weight * factors[|factors| - 1].normalized
  }

  function Total(c: Candidate, j: Job, w: Weights, same: Same): real { Round4(Sum(Factors(c, j, w, same))) }

  function ScoreOf(c: Candidate, j: Job, w: Weights, same: Same): Score { Score(c.id, Total(c, j, w, same), Factors(c, j, w, same)) }

  const WEIGHTS_SUM_TOLERANCE: real := 0.000000001

  /** Weights.Validate. */
  predicate Valid(w: Weights) {
    && w.technicalFit >= 0.0 && w.proximity >= 0.0 && w.availability >= 0.0 && w.equipment >= 0.0 && w.parts >= 0.0 && w.performance >= 0.0
    && var sum := w.technicalFit + w.proximity + w.availability + w.equipment + w.parts + w.performance;
       -WEIGHTS_SUM_TOLERANCE <= sum - 1.0 <= WEIGHTS_SUM_TOLERANCE
  }

  // ----- range -----

  predicate Unit(x: real) { 0.0 <= x <= 1.0 }

  lemma {:induction false} MatchedBound(required: seq<string>, held: seq<string>, same: Same)
    ensures Matched(required, held, same) <= |required|
  {
    if required != [] {
      MatchedBound(required[..|required| - 1], held, same);
    }
  }

  lemma ClampedRange(x: real)
    ensures Unit(Round4(Clamp01(x)))
  {
    Round4Range(Clamp01(x));
  }

  lemma ProximityRange(c: Candidate)
    ensures Unit(Proximity(c))
  {
    if c.available {
      var d := 1.0 + Eta(c) as real / ETA_SCALE_MINUTES;
      assert d >= 1.0;
      Reciprocal(1.0, d);
      Round4Range(1.0 / d);
    }
  }

  lemma Reciprocal(a: real, b: real)
    requires 0.0 < a <= b
    ensures 0.0 < 1.0 / b <= 1.0 / a
  {
    assert 1.0 / b * b == 1.0 && 1.0 / a * a == 1.0;
    if 1.0 / b > 1.0 / a {
      Scale(b, 1.0 / a, 1.0 / b);
      Scale(1.0 / a, a, b);
    }
  }

  lemma Scale(w: real, x: real, y: real)
    requires w >= 0.0 && x <= y
    ensures w * x <= w * y
  {
  }

  lemma FactorsRange(c: Candidate, j: Job, w: Weights, same: Same)
    ensures forall i :: 0 <= i < 6 ==> Unit(Factors(c, j, w, same)[i].normalized)
  {
    ClampedRange(SkillRatio(c, j, same) * if MakeFits(c, j, same) then 1.0 else MAKE_MISMATCH_BONUS);
    ProximityRange(c);
    var rating := (if c.rating < 0.0 then 0.0 else if c.rating > RATING_SCALE then RATING_SCALE else c.rating) / RATING_SCALE;
    ClampedRange(0.4 * Clamp01(c.completionRate) + 0.4 * rating + 0.2 * Clamp01(c.acceptanceRate));
  }

  function WeightSum(factors: seq<Factor>): real {
    if factors == [] then 0.0 else WeightSum(factors[..|factors| - 1]) + factors[|factors| - 1].weight
  }

  predicate NonNegative(factors: seq<Factor>) { forall i :: 0 <= i < |factors| ==> factors[i].weight >= 0.0 }

  lemma Weighted(w: real, x: real)
    requires w >= 0.0 && Unit(x)
    ensures 0.0 <= w * x <= w
  {
    Scale(w, 0.0, x);
    Scale(w, x, 1.0);
  }

  lemma {:induction false} SumBounded(f: seq<Factor>)
    requires NonNegative(f) && forall i :: 0 <= i < |f| ==> Unit(f[i].normalized)
    ensures 0.0 <= Sum(f) <= WeightSum(f)
  {
    if f != [] {
      var init, last := f[..|f| - 1], f[|f| - 1];
      SumBounded(init);
      BoundStep(Sum(init), WeightSum(init), last.weight, last.normalized);
    }
  }

  lemma BoundStep(sum: real, weights: real, w: real, x: real)
    requires 0.0 <= sum <= weights && w >= 0.0 && Unit(x)
    ensures 0.0 <= sum + w * x <= weights + w
  {
    Weighted(w, x);
  }

  lemma WeightsAddUp(c: Candidate, j: Job, w: Weights, same: Same)
    ensures WeightSum(Factors(c, j, w, same)) == w.technicalFit + w.proximity + w.availability + w.equipment + w.parts + w.performance
  {
    var f := Factors(c, j, w, same);
    assert f[..5][..4] == f[..4] && f[..4][..3] == f[..3] && f[..3][..2] == f[..2] && f[..2][..1] == f[..1] && f[..1][..0] == [];
    assert WeightSum(f[..1]) == f[0].weight;
    assert WeightSum(f[..2]) == WeightSum(f[..1]) + f[1].weight;
    assert WeightSum(f[..3]) == WeightSum(f[..2]) + f[2].weight;
    assert WeightSum(f[..4]) == WeightSum(f[..3]) + f[3].weight;
    assert WeightSum(f[..5]) == WeightSum(f[..4]) + f[4].weight;
  }

  /** With valid weights every total is in [0, 1]. */
  lemma TotalRange(c: Candidate, j: Job, w: Weights, same: Same)
    requires Valid(w)
    ensures Unit(Total(c, j, w, same))
  {
    var f := Factors(c, j, w, same);
    FactorsRange(c, j, w, same);
    SumBounded(f);
    WeightsAddUp(c, j, w, same);
    Round4Range(Sum(f));
  }

  // ----- monotonicity -----

  /** c is at least as good as d in every input the engine reads. */
  predicate AtLeastAsGood(c: Candidate, d: Candidate, j: Job, same: Same) {
    && (forall i :: 0 <= i < |j.skills| && ContainsFold(d.skills, j.skills[i], same) ==> ContainsFold(c.skills, j.skills[i], same))
    && (MakeFits(d, j, same) ==> MakeFits(c, j, same))
    && c.etaMinutes <= d.etaMinutes
    && (d.available ==> c.available) && (c.declinedLast ==> d.declinedLast)
    && (d.hasEquipment ==> c.hasEquipment) && (d.hasParts ==> c.hasParts)
    && c.acceptanceRate >= d.acceptanceRate && c.completionRate >= d.completionRate && c.rating >= d.rating
  }

  lemma {:induction false} MatchedMonotone(required: seq<string>, more: seq<string>, less: seq<string>, same: Same)
    requires forall i :: 0 <= i < |required| && ContainsFold(less, required[i], same) ==> ContainsFold(more, required[i], same)
    ensures Matched(required, less, same) <= Matched(required, more, same)
  {
    if required != [] {
      MatchedMonotone(required[..|required| - 1], more, less, same);
    }
  }

  lemma TechnicalFitMonotone(c: Candidate, d: Candidate, j: Job, same: Same)
    requires AtLeastAsGood(c, d, j, same)
    ensures TechnicalFit(c, j, same) >= TechnicalFit(d, j, same)
  {
    var a, b := SkillRatio(c, j, same), SkillRatio(d, j, same);
    SkillRatioMonotone(c, d, j, same);
    var p := if MakeFits(c, j, same) then 1.0 else MAKE_MISMATCH_BONUS;
    var q := if MakeFits(d, j, same) then 1.0 else MAKE_MISMATCH_BONUS;
    Scale(a, q, p);
    Scale(q, b, a);
    assert b * q <= a * p;
    Round4Monotone(Clamp01(b * q), Clamp01(a * p));
  }

  lemma SkillRatioMonotone(c: Candidate, d: Candidate, j: Job, same: Same)
    requires AtLeastAsGood(c, d, j, same)
    ensures 0.0 <= SkillRatio(d, j, same) <= SkillRatio(c, j, same)
  {
    if |j.skills| > 0 {
      MatchedMonotone(j.skills, c.skills, d.skills, same);
      Ratio(Matched(j.skills, d.skills, same), Matched(j.skills, c.skills, same), |j.skills|);
    }
  }

  lemma Ratio(m: nat, n: nat, d: nat)
    requires m <= n && d > 0
    ensures 0.0 <= m as real / d as real <= n as real / d as real
  {
  }

  lemma ProximityMonotone(c: Candidate, d: Candidate)
    requires (d.available ==> c.available) && c.etaMinutes <= d.etaMinutes
    ensures Proximity(c) >= Proximity(d)
  {
    if d.available {
      var x, y := 1.0 + Eta(c) as real / ETA_SCALE_MINUTES, 1.0 + Eta(d) as real / ETA_SCALE_MINUTES;
      assert 1.0 <= x <= y;
      Reciprocal(x, y);
      Round4Monotone(1.0 / y, 1.0 / x);
    } else {
      ProximityRange(c);
    }
  }

  lemma ClampMonotone(x: real, y: real)
    requires x <= y
    ensures Clamp01(x) <= Clamp01(y)
  {
  }

  lemma ScaleMonotone(x: real, y: real)
    requires x <= y
    ensures x / RATING_SCALE <= y / RATING_SCALE
  {
  }

  lemma PerformanceMonotone(c: Candidate, d: Candidate)
    requires c.acceptanceRate >= d.acceptanceRate && c.completionRate >= d.completionRate && c.rating >= d.rating
    ensures Performance(c) >= Performance(d)
  {
    var r := (if c.rating < 0.0 then 0.0 else if c.rating > RATING_SCALE then RATING_SCALE else c.rating) / RATING_SCALE;
    var s := (if d.rating < 0.0 then 0.0 else if d.rating > RATING_SCALE then RATING_SCALE else d.rating) / RATING_SCALE;
    ScaleMonotone(if d.rating < 0.0 then 0.0 else if d.rating > RATING_SCALE then RATING_SCALE else d.rating,
                  if c.rating < 0.0 then 0.0 else if c.rating > RATING_SCALE then RATING_SCALE else c.rating);
    var x := 0.4 * Clamp01(c.completionRate) + 0.4 * r + 0.2 * Clamp01(c.acceptanceRate);
    var y := 0.4 * Clamp01(d.completionRate) + 0.4 * s + 0.2 * Clamp01(d.acceptanceRate);
    ClampMonotone(d.completionRate, c.completionRate);
    ClampMonotone(d.acceptanceRate, c.acceptanceRate);
    ClampMonotone(y, x);
    Round4Monotone(Clamp01(y), Clamp01(x));
  }

  lemma {:induction false} SumMonotone(f: seq<Factor>, g: seq<Factor>)
    requires |f| == |g| && NonNegative(f)
    requires forall i :: 0 <= i < |f| ==> f[i].weight == g[i].weight && f[i].normalized >= g[i].normalized
    ensures Sum(f) >= Sum(g)
  {
    if f != [] {
      var last := |f| - 1;
      SumMonotone(f[..last], g[..last]);
      Scale(f[last].weight, g[last].normalized, f[last].normalized);
    }
  }

  /** A candidate at least as good in every input never gets a lower total. */
  lemma TotalMonotone(c: Candidate, d: Candidate, j: Job, w: Weights, same: Same)
    requires Valid(w) && AtLeastAsGood(c, d, j, same)
    ensures Total(c, j, w, same) >= Total(d, j, w, same)
  {
    var f, g := Factors(c, j, w, same), Factors(d, j, w, same);
    TechnicalFitMonotone(c, d, j, same);
    ProximityMonotone(c, d);
    PerformanceMonotone(c, d);
    SumMonotone(f, g);
    Round4Monotone(Sum(g), Sum(f));
  }

  // ----- ranking -----

  predicate RanksAbove(s: Score, t: Score) {
    if s.total != t.total then s.total > t.total else Less(s.id, t.id)
  }

  lemma RanksAboveIsStrict()
    ensures StrictOrder(RanksAbove)
  {
    forall s, t, u
      ensures !RanksAbove(s, s)
      ensures RanksAbove(s, t) && RanksAbove(t, u) ==> RanksAbove(s, u)
      ensures RanksAbove(s, u) ==> RanksAbove(s, t) || RanksAbove(t, u)
    {
      LessIrreflexive(s.id);
      if Less(s.id, t.id) && Less(t.id, u.id) {
        LessTransitive(s.id, t.id, u.id);
      }
      LessWeak(s.id, t.id, u.id);
    }
  }

  lemma LessWeak(a: string, b: string, c: string)
    ensures Less(a, c) ==> Less(a, b) || Less(b, c)
  {
    LessTotal(a, b);
    if Less(a, c) && Less(b, a) {
      LessTransitive(b, a, c);
    }
  }

  function Scores(cs: seq<Candidate>, j: Job, w: Weights, same: Same): seq<Score> {
    if cs == [] then [] else Scores(cs[..|cs| - 1], j, w, same) + [ScoreOf(cs[|cs| - 1], j, w, same)]
  }

  function Ranking(cs: seq<Candidate>, j: Job, w: Weights, same: Same): seq<Score> { Sort(RanksAbove, Scores(cs, j, w, same)) }

  /** The ranking is a permutation of the scores, total descending, ties by technician id. */
  lemma RankingSorted(cs: seq<Candidate>, j: Job, w: Weights, same: Same)
    ensures multiset(Ranking(cs, j, w, same)) == multiset(Scores(cs, j, w, same))
    ensures var r := Ranking(cs, j, w, same);
            forall i, k :: 0 <= i < k < |r| ==>
              r[i].total > r[k].total || (r[i].total == r[k].total && (r[i].id == r[k].id || Less(r[i].id, r[k].id)))
  {
    RanksAboveIsStrict();
    SortPermutes(RanksAbove, Scores(cs, j, w, same));
    SortSorts(RanksAbove, Scores(cs, j, w, same));
    var r := Ranking(cs, j, w, same);
    forall i, k | 0 <= i < k < |r|
      ensures r[i].total > r[k].total || (r[i].total == r[k].total && (r[i].id == r[k].id || Less(r[i].id, r[k].id)))
    {
      assert !RanksAbove(r[k], r[i]);
      LessTotal(r[i].id, r[k].id);
    }
  }

  predicate DistinctIds(cs: seq<Candidate>) { forall i, k :: 0 <= i < k < |cs| ==> cs[i].id != cs[k].id }

  lemma {:induction false} ScoresAt(cs: seq<Candidate>, j: Job, w: Weights, same: Same)
    ensures |Scores(cs, j, w, same)| == |cs|
    ensures forall i :: 0 <= i < |cs| ==> Scores(cs, j, w, same)[i] == ScoreOf(cs[i], j, w, same)
  {
    if cs != [] {
      ScoresAt(cs[..|cs| - 1], j, w, same);
    }
  }

  lemma {:induction false} ScoresPlus(cs: seq<Candidate>, ds: seq<Candidate>, j: Job, w: Weights, same: Same)
    ensures Scores(cs + ds, j, w, same) == Scores(cs, j, w, same) + Scores(ds, j, w, same)
    decreases |ds|
  {
    if ds == [] {
      assert cs + ds == cs;
    } else {
      var init := ds[..|ds| - 1];
      assert (cs + ds)[..|cs + ds| - 1] == cs + init;
      ScoresPlus(cs, init, j, w, same);
    }
  }

  lemma ScoresWithout(cs: seq<Candidate>, j: Job, w: Weights, same: Same, k: nat)
    requires k < |cs|
    ensures multiset(Scores(cs, j, w, same)) == multiset(Scores(cs[..k] + cs[k + 1..], j, w, same)) + multiset{ScoreOf(cs[k], j, w, same)}
  {
    var head, one, tail := cs[..k], [cs[k]], cs[k + 1..];
    assert cs == head + one + tail;
    ScoresPlus(head + one, tail, j, w, same);
    ScoresPlus(head, one, j, w, same);
    ScoresPlus(head, tail, j, w, same);
    assert one[..0] == [];
    assert Scores(one, j, w, same) == [ScoreOf(cs[k], j, w, same)];
  }

  lemma {:induction false} ScoresPermute(cs: seq<Candidate>, ds: seq<Candidate>, j: Job, w: Weights, same: Same)
    requires multiset(cs) == multiset(ds)
    ensures multiset(Scores(cs, j, w, same)) == multiset(Scores(ds, j, w, same))
    decreases |cs|
  {
    assert |multiset(cs)| == |cs| && |multiset(ds)| == |ds|;
    if cs != [] {
      var last := |cs| - 1;
      assert cs[last] in multiset(ds);
      var k :| 0 <= k < |ds| && ds[k] == cs[last];
      var rest := ds[..k] + ds[k + 1..];
      assert ds == ds[..k] + [ds[k]] + ds[k + 1..];
      assert cs == cs[..last] + [cs[last]];
      assert multiset(rest) == multiset(ds) - multiset{ds[k]};
      assert multiset(cs[..last]) == multiset(cs) - multiset{cs[last]};
      ScoresPermute(cs[..last], rest, j, w, same);
      ScoresWithout(ds, j, w, same, k);
    }
  }

  lemma RankingDistinguishes(cs: seq<Candidate>, j: Job, w: Weights, same: Same)
    requires DistinctIds(cs)
    ensures Distinguishes(RanksAbove, Ranking(cs, j, w, same))
  {
    ScoresAt(cs, j, w, same);
    var s, r := Scores(cs, j, w, same), Ranking(cs, j, w, same);
    SortPermutes(RanksAbove, s);
    forall i, k | 0 <= i < k < |r| ensures RanksAbove(r[i], r[k]) || RanksAbove(r[k], r[i]) {
      LessTotal(r[i].id, r[k].id);
      DifferentScores(s, r, i, k);
    }
  }

  lemma DifferentScores(s: seq<Score>, r: seq<Score>, i: nat, k: nat)
    requires multiset(s) == multiset(r) && i < k < |r|
    requires forall a, b :: 0 <= a < b < |s| ==> s[a].id != s[b].id
    ensures r[i].id != r[k].id
  {
    assert r[i] in multiset(s) && r[k] in multiset(s);
    var a :| 0 <= a < |s| && s[a] == r[i];
    var b :| 0 <= b < |s| && s[b] == r[k];
    if r[i] == r[k] {
      Repeats(r, i, k);
    }
    OnceEach(s, r[i]);
  }

  /** For distinct technicians the order of the candidates does not matter. */
  lemma RankingIgnoresOrder(cs: seq<Candidate>, ds: seq<Candidate>, j: Job, w: Weights, same: Same)
    requires DistinctIds(cs) && multiset(cs) == multiset(ds)
    ensures Ranking(cs, j, w, same) == Ranking(ds, j, w, same)
  {
    RanksAboveIsStrict();
    ScoresPermute(cs, ds, j, w, same);
    SortPermutes(RanksAbove, Scores(cs, j, w, same));
    SortPermutes(RanksAbove, Scores(ds, j, w, same));
    SortSorts(RanksAbove, Scores(cs, j, w, same));
    SortSorts(RanksAbove, Scores(ds, j, w, same));
    RankingDistinguishes(cs, j, w, same);
    SortedUnique(RanksAbove, Ranking(cs, j, w, same), Ranking(ds, j, w, same));
  }

  // ----- the engine -----

  method SplitSkills(required: seq<string>, held: seq<string>, same: Same) returns (matched: seq<string>, missing: seq<string>)
    ensures |matched| == Matched(required, held, same)
    ensures forall s :: s in matched <==> s in required && ContainsFold(held, s, same)
    ensures forall s :: s in missing <==> s in required && !ContainsFold(held, s, same)
    ensures multiset(matched) + multiset(missing) == multiset(required)
  {
    matched, missing := [], [];
    for i := 0 to |required|
      invariant |matched| == Matched(required[..i], held, same)
      invariant forall s :: s in matched <==> s in required[..i] && ContainsFold(held, s, same)
      invariant forall s :: s in missing <==> s in required[..i] && !ContainsFold(held, s, same)
      invariant multiset(matched) + multiset(missing) == multiset(required[..i])
    {
      assert required[..i + 1] == required[..i] + [required[i]];
      if ContainsFold(held, required[i], same) {
        matched := matched + [required[i]];
      } else {
        missing := missing + [required[i]];
      }
    }
    assert required[..|required|] == required;
  }

  method ScoreTechnicalFit(c: Candidate, j: Job, same: Same) returns (x: real)
    ensures x == TechnicalFit(c, j, same)
  {
    var matched, _ := SplitSkills(j.skills, c.skills, same);
    var ratio := 1.0;
    if |j.skills| > 0 {
      ratio := |matched| as real / |j.skills| as real;
    }
    assert ratio == SkillRatio(c, j, same);
    var bonus := if MakeFits(c, j, same) then 1.0 else MAKE_MISMATCH_BONUS;
    x := Round4(Clamp01(ratio * bonus));
  }

  method ScoreCandidate(c: Candidate, j: Job, w: Weights, same: Same) returns (score: Score)
    ensures score == ScoreOf(c, j, w, same)
  {
    var technical := ScoreTechnicalFit(c, j, same);
    var factors := [Factor(w.technicalFit, technical), Factor(w.proximity, Proximity(c)),
                    Factor(w.availability, Availability(c)), Factor(w.equipment, Equipment(c)),
                    Factor(w.parts, Parts(c, j)), Factor(w.performance, Performance(c))];
    assert factors == Factors(c, j, w, same);
    var total := AddUp(factors);
    score := Score(c.id, Round4(total), factors);
  }

  method AddUp(factors: seq<Factor>) returns (total: real)
    ensures total == Sum(factors)
  {
    total := 0.0;
    for i := 0 to |factors|
      invariant total == Sum(factors[..i])
    {
      assert factors[..i + 1][..i] == factors[..i];
      total := total + factors[i].weight * factors[i].normalized;
    }
    assert factors[..|factors|] == factors;
  }

  method ScoreCandidates(candidates: seq<Candidate>, j: Job, w: Weights, same: Same) returns (scores: seq<Score>)
    ensures scores == Ranking(candidates, j, w, same)
  {
    scores := [];
    for i := 0 to |candidates|
      invariant scores == Scores(candidates[..i], j, w, same)
    {
      assert candidates[..i + 1][..i] == candidates[..i];
      var score := ScoreCandidate(candidates[i], j, w, same);
      scores := scores + [score];
    }
    assert candidates[..|candidates|] == candidates;
    scores := Sort(RanksAbove, scores);
  }

  // ----- reasons -----

  /** What a factor adds to the total; nothing beyond the last factor. */
  function Contribution(factors: seq<Factor>, i: nat): real {
    if i < |factors| then factors[i].weight * factors[i].normalized else 0.0
  }

  predicate Outranks(factors: seq<Factor>, a: nat, b: nat) {
    Contribution(factors, a) > Contribution(factors, b) || (Contribution(factors, a) == Contribution(factors, b) && a < b)
  }

  function Indices(n: nat): seq<nat> { seq(n, i requires 0 <= i < n => i) }

  lemma OutranksIsStrict(factors: seq<Factor>, above: (nat, nat) -> bool)
    requires forall a: nat, b: nat :: above(a, b) <==> Outranks(factors, a, b)
    ensures StrictOrder(above)
  {
  }

  /** The positions of at most n factors that moved the score, biggest contribution first, ties in factor
      order; one that moved the score is left out only behind n others that outrank it. */
  method TopReasons(factors: seq<Factor>, n: int) returns (top: seq<nat>)
    ensures n <= 0 ==> top == []
    ensures forall i :: 0 <= i < |top| ==> top[i] < |factors| && Contribution(factors, top[i]) > 0.0
    ensures forall i, k :: 0 <= i < k < |top| ==> Outranks(factors, top[i], top[k])
    ensures n > 0 ==> |top| <= n
    ensures n > 0 ==> forall f :: 0 <= f < |factors| && Contribution(factors, f) > 0.0 && f !in top ==>
                        |top| == n && forall i :: 0 <= i < |top| ==> Outranks(factors, top[i], f)
  {
    top := [];
    if n <= 0 || |factors| == 0 {
      return;
    }
    var order := ByContribution(factors);
    var k := 0;
    while k < |order| && |top| < n
      invariant 0 <= k <= |order| && |top| <= n
      invariant forall i :: 0 <= i < |top| ==> top[i] in order[..k] && top[i] < |factors| && Contribution(factors, top[i]) > 0.0
      invariant forall i, j :: 0 <= i < j < |top| ==> Outranks(factors, top[i], top[j])
      invariant forall f :: f in order[..k] && Contribution(factors, f) > 0.0 ==> f in top
    {
      assert order[..k + 1] == order[..k] + [order[k]];
      if Contribution(factors, order[k]) > 0.0 {
        BehindIsOutranked(factors, order, k, order[k]);
        top := top + [order[k]];
      }
      k := k + 1;
    }
    forall f | 0 <= f < |factors| && Contribution(factors, f) > 0.0 && f !in top
      ensures |top| == n && forall i :: 0 <= i < |top| ==> Outranks(factors, top[i], f)
    {
      assert f in order;
      BehindIsOutranked(factors, order, k, f);
    }
  }

  /** Every position, each outranking those after it. */
  ghost predicate Ranked(factors: seq<Factor>, order: seq<nat>) {
    && (forall i, j :: 0 <= i < j < |order| ==> Outranks(factors, order[i], order[j]))
    && (forall f: nat :: f in order <==> f < |factors|)
  }

  method ByContribution(factors: seq<Factor>) returns (order: seq<nat>)
    ensures Ranked(factors, order)
  {
    var above: (nat, nat) -> bool := (a: nat, b: nat) => Outranks(factors, a, b);
    order := Sort<nat>(above, Indices(|factors|));
    OutranksIsStrict(factors, above);
    SortSorts<nat>(above, Indices(|factors|));
    SortPermutes<nat>(above, Indices(|factors|));
    OrderIsFull(|factors|, order);
    forall i, j | 0 <= i < j < |order| ensures Outranks(factors, order[i], order[j]) {
      assert !above(order[j], order[i]) && order[i] != order[j];
    }
  }

  lemma BehindIsOutranked(factors: seq<Factor>, order: seq<nat>, k: nat, f: nat)
    requires Ranked(factors, order) && k <= |order| && f in order
    ensures f in order[..k] || (k < |order| && forall g :: g in order[..k] ==> Outranks(factors, g, f))
    ensures k < |order| && f == order[k] ==> forall g :: g in order[..k] ==> Outranks(factors, g, f)
  {
    var j :| 0 <= j < |order| && order[j] == f;
    if j < k {
      assert order[..k][j] == f;
    }
  }

  lemma OrderIsFull(n: nat, order: seq<nat>)
    requires multiset(order) == multiset(Indices(n))
    ensures forall f: nat :: f in order <==> f < n
    ensures forall i, j :: 0 <= i < j < |order| ==> order[i] != order[j]
  {
    var all := Indices(n);
    forall f: nat ensures f in order <==> f < n {
      assert f in order <==> f in multiset(order);
      assert f < n ==> all[f] == f;
    }
    forall i, j | 0 <= i < j < |order| ensures order[i] != order[j] {
      if order[i] == order[j] {
        Repeats(order, i, j);
      }
      OnceEach(all, order[i]);
    }
  }
}
