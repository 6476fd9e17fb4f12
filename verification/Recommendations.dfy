/** The eight findings, what fixing an active one would save, and their ranking. */
module Findings {
  import opened Grouping
  import opened MetricsEngine

  datatype MetricKey =
    | CacheMiss
    | Rework
    | ThinkOvercode
    | Bloat
    | ColdRestart
    | PremiumWaste
    | RetryLoop
    | HighCost
    | OtherKey(name: string)

  const FINDINGS: seq<MetricKey> :=
    [CacheMiss, Rework, ThinkOvercode, Bloat, ColdRestart, PremiumWaste, RetryLoop, HighCost]

  predicate Triggers(key: MetricKey, m: Metrics) {
    match key
    case CacheMiss => m.cacheHitRatio < 0.40
    case Rework => m.reworkRatio > 0.20
    case ThinkOvercode => m.thinkToCodeRatio > 0.50
    case Bloat => m.contextBloatShare > 0.20
    case ColdRestart => m.coldRestartShare > 0.10
    case PremiumWaste => m.premiumWasteShare > 0.25
    case RetryLoop => m.retryShare > 0.15
    case HighCost => m.costUsd > 50.0
    case OtherKey(_) => false
  }

  function Active(keys: seq<MetricKey>, m: Metrics): seq<MetricKey> {
    if keys == [] then []
    else if Triggers(Last(keys), m) then Active(Front(keys), m) + [Last(keys)]
    else Active(Front(keys), m)
  }

  method ActiveFindings(m: Metrics) returns (active: seq<MetricKey>)
    ensures active == Active(FINDINGS, m)
  {
    active := [];
    for i := 0 to |FINDINGS|
      invariant active == Active(FINDINGS[..i], m)
    {
      Snoc(FINDINGS, i);
      if Triggers(FINDINGS[i], m) {
        active := active + [FINDINGS[i]];
      }
    }
    assert FINDINGS[..|FINDINGS|] == FINDINGS;
  }

  /** The thresholds in whole numbers: below two fifths; above a fifth, a half, a fifth, a tenth, a quarter and three
      twentieths; above fifty dollars. A key that is no finding is never active. */
  lemma {:induction false} ThresholdsMean(m: Metrics, name: string)
    ensures Triggers(CacheMiss, m) <==> 5.0 * m.cacheHitRatio < 2.0
    ensures Triggers(Rework, m) <==> 5.0 * m.reworkRatio > 1.0
    ensures Triggers(ThinkOvercode, m) <==> 2.0 * m.thinkToCodeRatio > 1.0
    ensures Triggers(Bloat, m) <==> 5.0 * m.contextBloatShare > 1.0
    ensures Triggers(ColdRestart, m) <==> 10.0 * m.coldRestartShare > 1.0
    ensures Triggers(PremiumWaste, m) <==> 4.0 * m.premiumWasteShare > 1.0
    ensures Triggers(RetryLoop, m) <==> 20.0 * m.retryShare > 3.0
    ensures Triggers(HighCost, m) <==> m.costUsd > 50.0
    ensures !Triggers(OtherKey(name), m)
  {
  }

  lemma {:induction false} ActiveMembers(keys: seq<MetricKey>, m: Metrics)
    ensures forall k :: k in Active(keys, m) <==> k in keys && Triggers(k, m)
    ensures Distinct(keys) ==> Distinct(Active(keys, m))
  {
    if keys == [] {
    } else {
      assert keys == Front(keys) + [Last(keys)];
      ActiveMembers(Front(keys), m);
      var before := Active(Front(keys), m);
      assert forall i :: 0 <= i < |before| ==> before[i] in before && before[i] in Front(keys);
    }
  }
}

module Recommendations {
  import opened GoArithmetic
  import opened Grouping
  import opened MapSums
  import opened Sorting
  import opened MetricsEngine
  import opened Findings

  datatype Target = Target(metric: MetricKey, goal: real)

  datatype Evidence = Evidence(currentValue: real, goalValue: real, savingsUsd: real)

  datatype Recommendation = Recommendation(key: MetricKey, priority: int, target: Target, evidence: Evidence)

  datatype PotentialBill = PotentialBill(totalSavingsUsd: real, sessions: int, days: int)

  datatype BlendedRates = BlendedRates(inputRate: real, outputRate: real)

  const NO_RATES := BlendedRates(0.0, 0.0)

  function HalfTokens(m: Metrics, models: set<string>): map<string, int> {
    map x | x in models && x in m.byModel :: TruncDiv(m.byModel[x].tokens, 2)
  }

  function Costs(m: Metrics, models: set<string>): map<string, real> {
    map x | x in models && x in m.byModel :: m.byModel[x].costUsd
  }

  /** Cost per token over all models; half of each model's tokens count as input and half as output. */
  ghost function Blended(m: Metrics): BlendedRates {
    var half := SumMap(HalfTokens(m, m.byModel.Keys));
    if m.spendTokens == 0 || half == 0 then NO_RATES
    else
      var rate := SumMapReal(Costs(m, m.byModel.Keys)) / (half + half) as real;
      BlendedRates(rate, rate)
  }

  /** The sums of the blending loop over some of the models. */
  datatype Blend = Blend(input: int, output: int, cost: real)

  ghost function BlendOver(m: Metrics, models: set<string>): Blend {
    var half := SumMap(HalfTokens(m, models));
    Blend(half, half, SumMapReal(Costs(m, models)))
  }

  method AddModel(m: Metrics, x: string, b: Blend, ghost models: set<string>) returns (r: Blend)
    requires x !in models && x in m.byModel && b == BlendOver(m, models)
    ensures r == BlendOver(m, models + {x})
  {
    var bd := m.byModel[x];
    ghost var halves, costs := HalfTokens(m, models + {x}), Costs(m, models + {x});
    SumMapPick(halves, x);
    SumMapRealPick(costs, x);
    assert halves - {x} == HalfTokens(m, models);
    assert costs - {x} == Costs(m, models);
    r := Blend(b.input + TruncDiv(bd.tokens, 2), b.output + TruncDiv(bd.tokens, 2), b.cost + bd.costUsd);
  }

  lemma {:induction false} NoModels(m: Metrics)
    ensures BlendOver(m, {}) == Blend(0, 0, 0.0)
  {
    assert HalfTokens(m, {}).Keys == {} && Costs(m, {}).Keys == {};
  }

  method ComputeBlendedRates(m: Metrics) returns (rates: BlendedRates)
    ensures rates == Blended(m)
  {
    if m.spendTokens == 0 {
      return NO_RATES;
    }
    var b := SumModels(m);
    if b.input == 0 {
      return NO_RATES;
    }
    var rate := b.cost / (b.input + b.output) as real;
    return BlendedRates(rate, rate);
  }

  /** The loop over the models, in any order. */
  method SumModels(m: Metrics) returns (b: Blend)
    ensures b == BlendOver(m, m.byModel.Keys)
  {
    b := Blend(0, 0, 0.0);
    var todo := m.byModel.Keys;
    ghost var done: set<string> := {};
    NoModels(m);
    while todo != {}
      invariant todo !! done && todo + done == m.byModel.Keys
      invariant b == BlendOver(m, done)
      decreases |todo|
    {
      var x :| x in todo;
      b := AddModel(m, x, b, done);
      todo, done := todo - {x}, done + {x};
    }
    assert done == m.byModel.Keys;
  }

  function SavingsUsd(avoidable: int, blended: BlendedRates, days: int): real {
    if days == 0 then 0.0
    else avoidable as real * ((blended.inputRate + blended.outputRate) / 2.0) * 30.0 / days as real
  }

  /** The cold-restart case divides by the share; only an active finding gets there, and its share is not zero. */
  predicate CanEnrich(key: MetricKey, m: Metrics) {
    key == ColdRestart ==> m.coldRestartShare != 0.0
  }

  /** The tokens of `whole` by which one share of it exceeds another. */
  function Excess(whole: int, ratio: real, goal: real): int {
    Truncate(whole as real * (ratio - goal))
  }

  /** The tokens of `part`, a share of something else, that the share is above a goal. */
  function ExcessOfShare(part: int, share: real, goal: real): int
    requires share != 0.0
  {
    Truncate(part as real * (1.0 - goal / share))
  }

  function Avoidable(key: MetricKey, m: Metrics): int
    requires CanEnrich(key, m)
  {
    match key
    case CacheMiss =>
      var avoidable := Excess(m.spendTokens, 0.60, m.cacheHitRatio);
      if avoidable < 0 then 0 else avoidable
    case Rework => Excess(m.spendTokens, m.reworkRatio, 0.10)
    case PremiumWaste => Excess(m.spendTokens, m.premiumWasteShare, 0.10)
    case ColdRestart => ExcessOfShare(m.coldRestartTokens, m.coldRestartShare, 0.05)
    case Bloat => TruncDiv(m.spendTokens, 10)
    case ThinkOvercode => TruncDiv(m.spendTokens, 20)
    case RetryLoop => TruncDiv(m.retryTokens, 2)
    case HighCost => 0
    case OtherKey(_) => 0
  }

  function Goal(key: MetricKey): real {
    match key
    case CacheMiss => 0.60
    case Rework => 0.10
    case PremiumWaste => 0.10
    case ColdRestart => 0.05
    case Bloat => 0.10
    case ThinkOvercode => 0.30
    case RetryLoop => 0.05
    case HighCost => 0.0
    case OtherKey(_) => 0.0
  }

  function MetricValue(key: MetricKey, m: Metrics): real {
    match key
    case CacheMiss => m.cacheHitRatio
    case Rework => m.reworkRatio
    case PremiumWaste => m.premiumWasteShare
    case ColdRestart => m.coldRestartShare
    case Bloat => m.contextBloatShare
    case ThinkOvercode => m.thinkToCodeRatio
    case RetryLoop => m.retryShare
    case HighCost => m.costUsd
    case OtherKey(_) => 0.0
  }

  function Savings(key: MetricKey, m: Metrics, blended: BlendedRates, days: int): real
    requires CanEnrich(key, m)
  {
    if key == HighCost then m.costUsd * 0.20 else SavingsUsd(Avoidable(key, m), blended, days)
  }

  function EnrichOne(key: MetricKey, m: Metrics, blended: BlendedRates, days: int): Recommendation
    requires CanEnrich(key, m) && !key.OtherKey?
  {
    Recommendation(key, 0, Target(key, Goal(key)),
          Evidence(MetricValue(key, m), Goal(key), Savings(key, m, blended, days)))
  }

  function KeyOf(r: Recommendation): MetricKey { r.key }

  function SavingsOf(r: Recommendation): real { r.evidence.savingsUsd }

  function KeysOf(recs: seq<Recommendation>): seq<MetricKey> {
    if recs == [] then [] else KeysOf(Front(recs)) + [Last(recs).key]
  }

  predicate SavesMore(a: Recommendation, b: Recommendation) {
    SavingsOf(a) >= SavingsOf(b)
  }

  /** One recommendation per active finding, each as enriched, in order of savings and numbered from one. */
  ghost predicate IsRanked(recs: seq<Recommendation>, m: Metrics, days: int) {
    && multiset(KeysOf(recs)) == multiset(Active(FINDINGS, m))
    && (forall i :: 0 <= i < |recs| ==>
          && Triggers(recs[i].key, m) && CanEnrich(recs[i].key, m)
          && recs[i] == EnrichOne(recs[i].key, m, Blended(m), days).(priority := i + 1))
    && (forall i, j :: 0 <= i < j < |recs| ==> SavingsOf(recs[i]) >= SavingsOf(recs[j]))
  }

  method Enrich(m: Metrics, days: int) returns (recs: seq<Recommendation>, bill: PotentialBill)
    ensures IsRanked(recs, m, days)
    ensures bill == PotentialBill(SumReal(recs, SavingsOf), m.sessions, days)
  {
    var blended := ComputeBlendedRates(m);
    var active := ActiveFindings(m);
    var unsorted := EnrichEach(m, active, blended, days);
    SavesMoreRanks();
    var sorted := Sort(unsorted, SavesMore);
    SameKeys(sorted, unsorted);
    SameMembers(sorted, unsorted);
    var total;
    recs, total := Number(sorted);
    NumberedIsRanked(recs, sorted, m, days);
    bill := PotentialBill(total, m.sessions, days);
  }

  /** The loop over the active findings. */
  method EnrichEach(m: Metrics, active: seq<MetricKey>, blended: BlendedRates, days: int)
    returns (recs: seq<Recommendation>)
    requires active == Active(FINDINGS, m) && blended == Blended(m)
    ensures KeysOf(recs) == active
    ensures forall r :: r in recs ==> IsEnriched(r, m, days)
  {
    ActiveMembers(FINDINGS, m);
    recs := [];
    for i := 0 to |active|
      invariant KeysOf(recs) == active[..i]
      invariant forall r :: r in recs ==> IsEnriched(r, m, days)
    {
      assert active[i] in active;
      Snoc(active, i);
      var r := EnrichOne(active[i], m, blended, days);
      assert Front(recs + [r]) == recs;
      recs := recs + [r];
    }
    assert active[..|active|] == active;
  }

  ghost predicate IsEnriched(r: Recommendation, m: Metrics, days: int) {
    && Triggers(r.key, m) && CanEnrich(r.key, m)
    && r == EnrichOne(r.key, m, Blended(m), days)
  }

  ghost predicate IsNumbered(recs: seq<Recommendation>, sorted: seq<Recommendation>) {
    |recs| == |sorted| && forall k :: 0 <= k < |recs| ==> recs[k] == sorted[k].(priority := k + 1)
  }

  /** Priorities and the total, by the loop over the sorted list. */
  method Number(sorted: seq<Recommendation>) returns (recs: seq<Recommendation>, total: real)
    ensures IsNumbered(recs, sorted)
    ensures total == SumReal(recs, SavingsOf)
  {
    recs, total := sorted, 0.0;
    for i := 0 to |sorted|
      invariant |recs| == |sorted|
      invariant forall k :: 0 <= k < |recs| ==> recs[k] == if k < i then sorted[k].(priority := k + 1) else sorted[k]
      invariant total == SumReal(recs[..i], SavingsOf)
    {
      ghost var before := recs[..i];
      recs := recs[i := recs[i].(priority := i + 1)];
      assert recs[..i] == before;
      Snoc(recs, i);
      total := total + SavingsOf(recs[i]);
    }
    assert recs[..|recs|] == recs;
  }

  lemma {:induction false} NumberedIsRanked(recs: seq<Recommendation>, sorted: seq<Recommendation>, m: Metrics,
                                            days: int)
    requires IsNumbered(recs, sorted)
    requires Sorted(sorted, SavesMore)
    requires forall r :: r in sorted ==> IsEnriched(r, m, days)
    requires multiset(KeysOf(sorted)) == multiset(Active(FINDINGS, m))
    ensures IsRanked(recs, m, days)
  {
    SameKeysAt(recs, sorted);
    forall i | 0 <= i < |recs|
      ensures Triggers(recs[i].key, m) && CanEnrich(recs[i].key, m)
      ensures recs[i] == EnrichOne(recs[i].key, m, Blended(m), days).(priority := i + 1)
    {
      assert sorted[i] in sorted;
    }
    forall i, j | 0 <= i < j < |recs|
      ensures SavingsOf(recs[i]) >= SavingsOf(recs[j])
    {
      assert SavesMore(sorted[i], sorted[j]);
    }
  }

  lemma {:induction false} SameKeysAt(xs: seq<Recommendation>, ys: seq<Recommendation>)
    requires |xs| == |ys| && forall i :: 0 <= i < |xs| ==> xs[i].key == ys[i].key
    ensures KeysOf(xs) == KeysOf(ys)
  {
    if xs == [] {
    } else {
      SameKeysAt(Front(xs), Front(ys));
    }
  }

  lemma {:induction false} KeysOfAppend(xs: seq<Recommendation>, ys: seq<Recommendation>)
    ensures KeysOf(xs + ys) == KeysOf(xs) + KeysOf(ys)
  {
    if ys == [] {
      assert xs + ys == xs;
    } else {
      assert Front(xs + ys) == xs + Front(ys);
      KeysOfAppend(xs, Front(ys));
    }
  }

  lemma {:induction false} SameKeys(xs: seq<Recommendation>, ys: seq<Recommendation>)
    requires multiset(xs) == multiset(ys)
    ensures multiset(KeysOf(xs)) == multiset(KeysOf(ys))
  {
    if xs == [] {
      assert |multiset(ys)| == 0;
    } else {
      var j := TakeOut(xs, ys);
      SameKeys(Front(xs), ys[..j] + ys[j + 1..]);
      KeysTakeOut(ys, j);
    }
  }

  lemma {:induction false} KeysTakeOut(ys: seq<Recommendation>, j: nat)
    requires j < |ys|
    ensures multiset(KeysOf(ys)) == multiset(KeysOf(ys[..j] + ys[j + 1..])) + multiset{ys[j].key}
  {
    assert ys == ys[..j] + ([ys[j]] + ys[j + 1..]);
    KeysOfAppend(ys[..j], [ys[j]] + ys[j + 1..]);
    KeysOfAppend([ys[j]], ys[j + 1..]);
    KeysOfAppend(ys[..j], ys[j + 1..]);
    assert Front([ys[j]]) == [];
    assert KeysOf([ys[j]]) == [ys[j].key];
  }

  lemma {:induction false} SavesMoreRanks()
    ensures IsRanking(SavesMore)
  {
  }

  /* Never negative */

  ghost predicate NonNegativeMetrics(m: Metrics) {
    && m.spendTokens >= 0 && m.retryTokens >= 0 && m.coldRestartTokens >= 0
    && forall x :: x in m.byModel ==> m.byModel[x].tokens >= 0 && m.byModel[x].costUsd >= 0.0
  }

  lemma {:induction false} SumMapNonNegative(m: map<string, int>, r: map<string, real>)
    requires forall x :: x in m ==> m[x] >= 0
    requires forall x :: x in r ==> r[x] >= 0.0
    ensures SumMap(m) >= 0 && SumMapReal(r) >= 0.0
    decreases |m.Keys|, |r.Keys|
  {
    if m.Keys != {} {
      var k :| k in m.Keys;
      SumMapPick(m, k);
      SumMapNonNegative(m - {k}, r);
    } else if r.Keys != {} {
      var k :| k in r.Keys;
      SumMapRealPick(r, k);
      SumMapNonNegative(m, r - {k});
    }
  }

  lemma {:induction false} RatesNonNegative(m: Metrics)
    requires NonNegativeMetrics(m)
    ensures Blended(m).inputRate >= 0.0 && Blended(m).outputRate >= 0.0
  {
    SumMapNonNegative(HalfTokens(m, m.byModel.Keys), Costs(m, m.byModel.Keys));
  }

  lemma {:induction false} ProductNonNegative(a: real, b: real)
    requires a >= 0.0 && b >= 0.0
    ensures a * b >= 0.0
  {
  }

  /** The threshold of a finding leaves a non-negative amount above its goal, and a positive divisor. */
  lemma {:induction false} AvoidableNonNegative(key: MetricKey, m: Metrics)
    requires NonNegativeMetrics(m) && Triggers(key, m)
    ensures CanEnrich(key, m) && Avoidable(key, m) >= 0
  {
    match key
    case Rework => ProductNonNegative(m.spendTokens as real, m.reworkRatio - 0.10);
    case PremiumWaste => ProductNonNegative(m.spendTokens as real, m.premiumWasteShare - 0.10);
    case ColdRestart =>
      var q := 0.05 / m.coldRestartShare;
      assert q * m.coldRestartShare == 0.05;
      assert q <= 1.0;
      ProductNonNegative(m.coldRestartTokens as real, 1.0 - q);
    case _ =>
  }

  /** Savings from a non-negative amount at non-negative rates are negative exactly when the days are
      and neither is zero. */
  lemma {:induction false} SavingsSign(avoidable: int, blended: BlendedRates, days: int)
    requires avoidable >= 0 && blended.inputRate >= 0.0 && blended.outputRate >= 0.0
    ensures SavingsUsd(avoidable, blended, days) >= 0.0
       <==> days >= 0 || avoidable == 0 || blended.inputRate + blended.outputRate == 0.0
  {
    var rate := (blended.inputRate + blended.outputRate) / 2.0;
    ProductNonNegative(avoidable as real, rate);
    ProductIsZero(avoidable as real, rate);
    if days != 0 {
      QuotientSign(avoidable as real * rate * 30.0, days as real);
    }
  }

  lemma {:induction false} ProductIsZero(a: real, b: real)
    ensures a * b == 0.0 <==> a == 0.0 || b == 0.0
  {
  }

  lemma {:induction false} QuotientSign(x: real, d: real)
    requires x >= 0.0 && d != 0.0
    ensures x / d >= 0.0 <==> d > 0.0 || x == 0.0
  {
    var q := x / d;
    assert q * d == x;
  }

  /** Whether the savings of a finding depend on the days, at all. */
  ghost predicate DependsOnDays(key: MetricKey, m: Metrics)
    requires CanEnrich(key, m)
  {
    key != HighCost && Avoidable(key, m) != 0 && Blended(m).inputRate + Blended(m).outputRate != 0.0
  }

  lemma {:induction false} OneSaves(r: Recommendation, m: Metrics, days: int)
    requires NonNegativeMetrics(m) && Triggers(r.key, m) && CanEnrich(r.key, m)
    requires SavingsOf(r) == Savings(r.key, m, Blended(m), days)
    ensures SavingsOf(r) >= 0.0 <==> days >= 0 || !DependsOnDays(r.key, m)
  {
    if r.key != HighCost {
      AvoidableNonNegative(r.key, m);
      RatesNonNegative(m);
      SavingsSign(Avoidable(r.key, m), Blended(m), days);
    }
  }

  /** No recommendation saves less than nothing exactly when the days are not negative or no active finding's savings
      depend on them; without negative days the bill is not negative either. */
  lemma {:induction false} SavingsNonNegative(recs: seq<Recommendation>, m: Metrics, days: int)
    requires NonNegativeMetrics(m) && IsRanked(recs, m, days)
    ensures (forall r :: r in recs ==> SavingsOf(r) >= 0.0)
       <==> days >= 0 || forall k :: Triggers(k, m) && CanEnrich(k, m) ==> !DependsOnDays(k, m)
    ensures days >= 0 ==> SumReal(recs, SavingsOf) >= 0.0
  {
    forall i | 0 <= i < |recs|
      ensures CanEnrich(recs[i].key, m)
      ensures SavingsOf(recs[i]) >= 0.0 <==> days >= 0 || !DependsOnDays(recs[i].key, m)
    {
      OneSaves(recs[i], m, days);
    }
    KeysAreActive(recs, m);
    forall k | Triggers(k, m)
      ensures exists i :: 0 <= i < |recs| && recs[i].key == k
    {
      KeyHasRecommendation(recs, k);
    }
    if days >= 0 {
      SumRealNonNegative(recs);
    }
  }

  lemma {:induction false} KeyHasRecommendation(recs: seq<Recommendation>, k: MetricKey)
    requires k in KeysOf(recs)
    ensures exists i :: 0 <= i < |recs| && recs[i].key == k
  {
    KeysOfAt(recs);
    var i :| 0 <= i < |KeysOf(recs)| && KeysOf(recs)[i] == k;
    assert KeyOf(recs[i]) == k;
  }

  lemma {:induction false} SumRealNonNegative(recs: seq<Recommendation>)
    requires forall r :: r in recs ==> SavingsOf(r) >= 0.0
    ensures SumReal(recs, SavingsOf) >= 0.0
  {
    if recs == [] {
    } else {
      assert recs == Front(recs) + [Last(recs)];
      SumRealNonNegative(Front(recs));
    }
  }

  /** The recommendations are the active findings, each once, with priorities from one up. */
  lemma {:induction false} RankedIsPermutation(recs: seq<Recommendation>, m: Metrics, days: int)
    requires IsRanked(recs, m, days)
    ensures DistinctKeys(recs, KeyOf)
    ensures forall k :: Triggers(k, m) <==> k in KeysOf(recs)
    ensures forall i :: 0 <= i < |recs| ==> recs[i].priority == i + 1
  {
    KeysAreActive(recs, m);
    KeysOfAt(recs);
  }

  lemma {:induction false} KeysAreActive(recs: seq<Recommendation>, m: Metrics)
    requires multiset(KeysOf(recs)) == multiset(Active(FINDINGS, m))
    ensures Distinct(KeysOf(recs))
    ensures forall k :: Triggers(k, m) <==> k in KeysOf(recs)
  {
    ActiveMembers(FINDINGS, m);
    DistinctPermutes(Active(FINDINGS, m), KeysOf(recs));
    SameMembers(KeysOf(recs), Active(FINDINGS, m));
    forall k: MetricKey
      ensures k in FINDINGS || k.OtherKey?
    {
      FindingsAreAll(k);
    }
  }

  lemma {:induction false} FindingsAreAll(k: MetricKey)
    ensures k in FINDINGS <==> !k.OtherKey?
  {
    assert FINDINGS[0] == CacheMiss && FINDINGS[1] == Rework && FINDINGS[2] == ThinkOvercode && FINDINGS[3] == Bloat;
    assert FINDINGS[4] == ColdRestart && FINDINGS[5] == PremiumWaste && FINDINGS[6] == RetryLoop;
    assert FINDINGS[7] == HighCost;
  }

  lemma {:induction false} KeysOfAt(recs: seq<Recommendation>)
    ensures |KeysOf(recs)| == |recs|
    ensures forall i :: 0 <= i < |recs| ==> KeysOf(recs)[i] == KeyOf(recs[i])
  {
    if recs == [] {
    } else {
      KeysOfAt(Front(recs));
    }
  }
}

/** Recommendations made from the metrics of a log. */
module SavingsLaws {
  import opened GoArithmetic
  import opened Grouping
  import opened Usage
  import opened Pricing
  import opened MetricsEngine
  import opened MetricsLaws
  import opened Findings
  import opened Recommendations

  ghost predicate PricesNonNegative(pricing: PricingService) {
    forall p :: p in pricing.prices ==> p.input >= 0.0 && p.output >= 0.0 && p.cacheRead >= 0.0 && p.cacheWrite >= 0.0
  }

  lemma {:induction false} TermNonNegative(tokens: int, price: real)
    requires tokens >= 0 && price >= 0.0
    ensures tokens as real * price / 1000000.0 >= 0.0
  {
    ProductNonNegative(tokens as real, price);
  }

  lemma {:induction false} UsdNonNegative(pricing: PricingService, e: Event)
    requires PricesNonNegative(pricing) && NonNegative([e])
    ensures pricing.Usd(e) >= 0.0
  {
    assert e in [e];
    match pricing.PriceOf(e.model)
    case None =>
    case Some(p) =>
      assert p in pricing.prices;
      TermNonNegative(e.inputTokens, p.input);
      TermNonNegative(e.outputTokens, p.output);
      TermNonNegative(e.cacheReadTokens, p.cacheRead);
      TermNonNegative(e.cacheCreationTokens, p.cacheWrite);
  }

  lemma {:induction false} CostNonNegative(pricing: PricingService, events: seq<Event>)
    requires PricesNonNegative(pricing) && NonNegative(events)
    ensures SumReal(events, pricing.Usd) >= 0.0
  {
    if events == [] {
    } else {
      assert events == Front(events) + [Last(events)];
      CostNonNegative(pricing, Front(events));
      UsdNonNegative(pricing, Last(events));
    }
  }

  /** The metrics of a log without negative tokens meet what ranking asks of them. */
  lemma {:induction false} MetricsAreNonNegative(engine: Engine, events: seq<Event>)
    requires PricesNonNegative(engine.pricing) && NonNegative(events)
    ensures NonNegativeMetrics(MetricsOf(engine, events))
  {
    if events != [] {
      DerivedTotalBounds(engine, events);
      forall x | x in Keys(events, ModelOf)
        ensures ModelBreakdownOf(engine, events, x).tokens >= 0 && ModelBreakdownOf(engine, events, x).costUsd >= 0.0
      {
        GroupNonNegative(events, ModelOf, x);
        CostNonNegative(engine.pricing, Select(events, ModelOf, x));
      }
    }
  }

  /** So with the recommendations made from any such log. */
  lemma {:induction false} SavingsFromLog(engine: Engine, events: seq<Event>, recs: seq<Recommendation>, days: int)
    requires PricesNonNegative(engine.pricing) && NonNegative(events)
    requires IsRanked(recs, MetricsOf(engine, events), days)
    ensures
      var m := MetricsOf(engine, events);
      (forall r :: r in recs ==> SavingsOf(r) >= 0.0)
      <==> days >= 0 || forall k :: Triggers(k, m) && CanEnrich(k, m) ==> !DependsOnDays(k, m)
    ensures days >= 0 ==> SumReal(recs, SavingsOf) >= 0.0
  {
    MetricsAreNonNegative(engine, events);
    SavingsNonNegative(recs, MetricsOf(engine, events), days);
  }

  /* The avoidable tokens are those above the goal */

  /** `part` without the avoidable tokens is the goal's share of `whole`, to within a token. */
  predicate ReachesGoal(part: int, avoidable: int, whole: int, goal: real) {
    goal * whole as real <= (part - avoidable) as real < goal * whole as real + 1.0
  }

  lemma {:induction false} TruncatedExcess(part: int, whole: int, goal: real)
    requires part as real >= goal * whole as real
    ensures ReachesGoal(part, Truncate(part as real - goal * whole as real), whole, goal)
  {
  }

  lemma {:induction false} ExcessOfRatio(part: int, whole: int, goal: real)
    requires whole != 0
    ensures whole as real * (Ratio(part, whole) - goal) == part as real - goal * whole as real
  {
    assert Ratio(part, whole) * whole as real == part as real;
  }

  lemma {:induction false} AboveGoal(part: int, whole: int, goal: real)
    requires whole >= 0 && Ratio(part, whole) > goal >= 0.0
    ensures whole > 0 && part as real >= goal * whole as real
  {
    ExcessOfRatio(part, whole, goal);
    ProductNonNegative(whole as real, Ratio(part, whole) - goal);
  }

  lemma {:induction false} RatioReachesGoal(part: int, whole: int, ratio: real, goal: real)
    requires whole >= 0 && ratio == Ratio(part, whole) && ratio > goal >= 0.0
    ensures ReachesGoal(part, Excess(whole, ratio, goal), whole, goal)
  {
    AboveGoal(part, whole, goal);
    ExcessOfRatio(part, whole, goal);
    TruncatedExcess(part, whole, goal);
  }

  lemma {:induction false} ShareOfPart(part: int, whole: int, goal: real)
    requires whole != 0 && part != 0
    ensures part as real * (1.0 - goal / Ratio(part, whole)) == part as real - goal * whole as real
  {
    var r := Ratio(part, whole);
    assert r * whole as real == part as real;
    assert r != 0.0;
    var q := goal / r;
    assert q * r == goal;
    assert q * part as real == q * (r * whole as real) == (q * r) * whole as real;
  }

  lemma {:induction false} ShareReachesGoal(part: int, whole: int, share: real, goal: real)
    requires whole >= 0 && share == Ratio(part, whole) && share > goal >= 0.0
    ensures share != 0.0 && ReachesGoal(part, ExcessOfShare(part, share, goal), whole, goal)
  {
    AboveGoal(part, whole, goal);
    ShareOfPart(part, whole, goal);
    TruncatedExcess(part, whole, goal);
  }

  /** The waste ratios are those of the token counts beside them. */
  ghost predicate HasWasteRatios(m: Metrics, input: int, premium: int) {
    && m.spendTokens >= 0 && input >= 0
    && m.reworkRatio == Ratio(m.retryTokens, m.spendTokens)
    && m.premiumWasteShare == Ratio(premium, m.spendTokens)
    && m.coldRestartShare == Ratio(m.coldRestartTokens, input)
  }

  lemma {:induction false} MetricsHaveWasteRatios(engine: Engine, events: seq<Event>)
    requires NonNegative(events)
    ensures HasWasteRatios(MetricsOf(engine, events), Sum(events, Input),
                           if events == [] then 0 else |Keys(events, SessionOf)| * Sum(events, engine.PremiumTokens))
  {
    if events != [] {
      DerivedTotalBounds(engine, events);
      PremiumWasteIsMultiplied(engine, events);
      SpendOverSessions(engine, events);
    }
  }

  /** Avoiding what the rework finding calls avoidable brings the retry tokens down to the goal. */
  lemma {:induction false} ReworkReachesGoal(m: Metrics)
    requires m.spendTokens >= 0 && m.reworkRatio == Ratio(m.retryTokens, m.spendTokens) && Triggers(Rework, m)
    ensures ReachesGoal(m.retryTokens, Avoidable(Rework, m), m.spendTokens, 0.10)
  {
    RatioReachesGoal(m.retryTokens, m.spendTokens, m.reworkRatio, 0.10);
  }

  /** Likewise the premium tokens, which are counted once per session. */
  lemma {:induction false} PremiumReachesGoal(m: Metrics, premium: int)
    requires m.spendTokens >= 0 && m.premiumWasteShare == Ratio(premium, m.spendTokens) && Triggers(PremiumWaste, m)
    ensures ReachesGoal(premium, Avoidable(PremiumWaste, m), m.spendTokens, 0.10)
  {
    RatioReachesGoal(premium, m.spendTokens, m.premiumWasteShare, 0.10);
  }

  /** Likewise the cold-restart tokens, whose finding divides by their share of the input. */
  lemma {:induction false} ColdRestartReachesGoal(m: Metrics, input: int)
    requires input >= 0 && m.coldRestartShare == Ratio(m.coldRestartTokens, input) && Triggers(ColdRestart, m)
    ensures CanEnrich(ColdRestart, m)
    ensures ReachesGoal(m.coldRestartTokens, Avoidable(ColdRestart, m), input, 0.05)
  {
    ShareReachesGoal(m.coldRestartTokens, input, m.coldRestartShare, 0.05);
  }
}
