/** What the recommendations and their savings say, in numbers that can be checked against the log. */
module SavingsMeaning {
  import opened GoArithmetic
  import opened Grouping
  import opened MapSums
  import opened MetricsEngine
  import opened Findings
  import opened Recommendations

  /* What a recommendation says */

  /** The goal and the evidence are those of the finding: where its metric stands, and where it should. */
  lemma {:induction false} EvidenceMeans(recs: seq<Recommendation>, m: Metrics, days: int, i: nat)
    requires IsRanked(recs, m, days) && i < |recs|
    ensures
      var r := recs[i];
      && r.target.metric == r.key && r.target.goal == r.evidence.goalValue == Goal(r.key)
      && r.evidence.currentValue == MetricValue(r.key, m)
  {
  }

  /** No finding is active at its own goal. */
  lemma {:induction false} GoalIsInactive(key: MetricKey, m: Metrics)
    requires MetricValue(key, m) == Goal(key)
    ensures !Triggers(key, m)
  {
  }

  /** Monthly savings, multiplied out: thirty days of what the avoidable tokens cost, of a window of `days` in which
      `tokens` cost `cost`. */
  predicate AreSavings(savings: real, avoidable: int, days: int, tokens: int, cost: real) {
    savings * days as real * tokens as real == avoidable as real * 30.0 * cost
  }

  lemma {:induction false} SavingsTimesDays(avoidable: int, rate: real, days: int)
    requires days != 0
    ensures SavingsUsd(avoidable, BlendedRates(rate, rate), days) * days as real == avoidable as real * rate * 30.0
  {
    var monthly := avoidable as real * ((rate + rate) / 2.0) * 30.0;
    assert (rate + rate) / 2.0 == rate;
    assert monthly / days as real * days as real == monthly;
  }

  lemma {:induction false} RateMultipliedOut(savings: real, rate: real, avoidable: int, days: int, tokens: int,
                                             cost: real)
    requires savings * days as real == avoidable as real * rate * 30.0 && rate * tokens as real == cost
    ensures AreSavings(savings, avoidable, days, tokens, cost)
  {
    var a, t := avoidable as real, tokens as real;
    assert savings * days as real * t == (a * rate * 30.0) * t == a * 30.0 * (rate * t);
  }

  /** The tokens that the rates are blended over, and what they cost. */
  ghost function BlendedTokens(m: Metrics): int {
    SumMap(HalfTokens(m, m.byModel.Keys)) + SumMap(HalfTokens(m, m.byModel.Keys))
  }

  ghost function BlendedCost(m: Metrics): real {
    SumMapReal(Costs(m, m.byModel.Keys))
  }

  /** Of each model half its tokens count as input and half as output, an odd one lost, at the model's whole cost. */
  lemma {:induction false} HalvesMean(m: Metrics, x: string)
    requires x in m.byModel && m.byModel[x].tokens >= 0
    ensures x in HalfTokens(m, m.byModel.Keys) && x in Costs(m, m.byModel.Keys)
    ensures 0 <= m.byModel[x].tokens - 2 * HalfTokens(m, m.byModel.Keys)[x] <= 1
    ensures Costs(m, m.byModel.Keys)[x] == m.byModel[x].costUsd
  {
  }

  lemma {:induction false} BlendedRate(m: Metrics)
    ensures Blended(m).inputRate == Blended(m).outputRate
    ensures if m.spendTokens == 0 || BlendedTokens(m) == 0 then Blended(m) == NO_RATES
            else Blended(m).inputRate * BlendedTokens(m) as real == BlendedCost(m)
  {
  }

  /** So the savings fall as the window grows, and saving every blended token over thirty days saves what all models
      cost. */
  lemma {:induction false} SavingsMean(avoidable: int, m: Metrics, days: int)
    requires days != 0 && m.spendTokens != 0 && BlendedTokens(m) != 0
    ensures AreSavings(SavingsUsd(avoidable, Blended(m), days), avoidable, days, BlendedTokens(m), BlendedCost(m))
  {
    BlendedRate(m);
    var rate := Blended(m).inputRate;
    assert Blended(m) == BlendedRates(rate, rate);
    SavingsTimesDays(avoidable, rate, days);
    RateMultipliedOut(SavingsUsd(avoidable, Blended(m), days), rate, avoidable, days, BlendedTokens(m), BlendedCost(m));
  }

  /** There are no savings over no days, or without tokens that were paid for. */
  lemma {:induction false} NoSavings(avoidable: int, m: Metrics, days: int)
    requires days == 0 || m.spendTokens == 0 || BlendedTokens(m) == 0
    ensures SavingsUsd(avoidable, Blended(m), days) == 0.0
  {
    if days != 0 {
      BlendedRate(m);
      NothingSaved(avoidable, days);
    }
  }

  lemma {:induction false} NothingSaved(avoidable: int, days: int)
    ensures SavingsUsd(avoidable, NO_RATES, days) == 0.0
  {
  }

  /** The savings of every recommendation: a fifth of a high cost, and for the others those of the finding's avoidable
      tokens. */
  lemma {:induction false} RankedSavingsMean(recs: seq<Recommendation>, m: Metrics, days: int, i: nat)
    requires IsRanked(recs, m, days) && i < |recs|
    ensures recs[i].key == HighCost ==> SavingsOf(recs[i]) * 5.0 == m.costUsd
    ensures
      recs[i].key != HighCost ==>
        if days == 0 || m.spendTokens == 0 || BlendedTokens(m) == 0 then SavingsOf(recs[i]) == 0.0
        else AreSavings(SavingsOf(recs[i]), Avoidable(recs[i].key, m), days, BlendedTokens(m), BlendedCost(m))
  {
    var key := recs[i].key;
    if key == HighCost {
    } else if days == 0 || m.spendTokens == 0 || BlendedTokens(m) == 0 {
      NoSavings(Avoidable(key, m), m, days);
    } else {
      SavingsMean(Avoidable(key, m), m, days);
    }
  }

  /** The amounts that are rough shares, and that of the cache: the whole tokens that a hit ratio of 0.60 would add. */
  lemma {:induction false} RoughAmounts(m: Metrics)
    requires m.spendTokens >= 0 && m.retryTokens >= 0
    ensures 0 <= m.spendTokens - 10 * Avoidable(Bloat, m) < 10
    ensures 0 <= m.spendTokens - 20 * Avoidable(ThinkOvercode, m) < 20
    ensures 0 <= m.retryTokens - 2 * Avoidable(RetryLoop, m) < 2
  {
  }

  lemma {:induction false} CacheAmount(m: Metrics)
    requires m.spendTokens >= 0 && Triggers(CacheMiss, m)
    ensures IsWholePart(Avoidable(CacheMiss, m), m.spendTokens as real * (0.60 - m.cacheHitRatio))
  {
    WholePartOfExcess(m.spendTokens, 0.60, m.cacheHitRatio);
  }

  predicate IsWholePart(n: int, x: real) {
    0 <= n && n as real <= x < n as real + 1.0
  }

  lemma {:induction false} WholePartOfExcess(whole: int, ratio: real, goal: real)
    requires whole >= 0 && ratio >= goal
    ensures IsWholePart(Excess(whole, ratio, goal), whole as real * (ratio - goal))
  {
    ProductNonNegative(whole as real, ratio - goal);
    TruncateMeans(Excess(whole, ratio, goal), whole as real * (ratio - goal));
  }

  lemma {:induction false} TruncateMeans(n: int, x: real)
    requires x >= 0.0 && n == Truncate(x)
    ensures IsWholePart(n, x)
  {
  }
}
