/** What holds of the metrics of every log. */
module MetricsLaws {
  import opened Wrappers
  import opened Grouping
  import opened MapSums
  import opened Usage
  import opened Pricing
  import opened MetricsEngine

  /* Only each session's own order matters */

  lemma {:induction false} AnyEstimatedMembers(engine: Engine, events: seq<Event>)
    ensures engine.AnyEstimated(events) <==> exists e :: e in events && engine.IsEstimated(e)
  {
    if events == [] {
    } else {
      assert events == Front(events) + [Last(events)];
      AnyEstimatedMembers(engine, Front(events));
    }
  }

  lemma {:induction false} TotalsPermute(engine: Engine, xs: seq<Event>, ys: seq<Event>)
    requires multiset(xs) == multiset(ys)
    ensures TotalsOf(engine, xs) == TotalsOf(engine, ys)
  {
    assert |xs| == |multiset(xs)| == |multiset(ys)| == |ys|;
    SumPermutation(xs, ys, Input);
    SumPermutation(xs, ys, CacheRead);
    SumPermutation(xs, ys, CacheCreation);
    SumRealPermutation(xs, ys, engine.pricing.Usd);
    SumPermutation(xs, ys, engine.pricing.Unpriced);
    AnyEstimatedMembers(engine, xs);
    AnyEstimatedMembers(engine, ys);
    assert forall e :: e in xs <==> e in multiset(xs);
    assert forall e :: e in ys <==> e in multiset(ys);
  }

  lemma {:induction false} GroupsPermute<K>(engine: Engine, xs: seq<Event>, ys: seq<Event>, key: Event -> K, k: K)
    requires multiset(xs) == multiset(ys)
    ensures GroupSpend(xs, key, k) == GroupSpend(ys, key, k)
    ensures GroupCost(engine, xs, key, k) == GroupCost(engine, ys, key, k)
  {
    SelectPermutation(xs, ys, key, k);
    SumPermutation(Select(xs, key, k), Select(ys, key, k), Spend);
    SumRealPermutation(Select(xs, key, k), Select(ys, key, k), engine.pricing.Usd);
  }

  lemma {:induction false} KeysPermute<K(!new)>(xs: seq<Event>, ys: seq<Event>, key: Event -> K)
    requires multiset(xs) == multiset(ys)
    ensures Keys(xs, key) == Keys(ys, key)
  {
    forall k
      ensures k in Keys(xs, key) <==> k in Keys(ys, key)
    {
      KeyOccurs(xs, key, k);
      KeyOccurs(ys, key, k);
      SelectPermutation(xs, ys, key, k);
      assert |Select(xs, key, k)| == |multiset(Select(xs, key, k))| == |Select(ys, key, k)|;
    }
  }

  lemma {:induction false} BreakdownsPermute(engine: Engine, xs: seq<Event>, ys: seq<Event>)
    requires multiset(xs) == multiset(ys)
    ensures ActivityBreakdowns(engine, xs) == ActivityBreakdowns(engine, ys)
    ensures ModelBreakdowns(engine, xs) == ModelBreakdowns(engine, ys)
  {
    SumPermutation(xs, ys, Spend);
    KeysPermute(xs, ys, ModelOf);
    forall a | a in ACTIVITIES
      ensures ActivityBreakdownOf(engine, xs, a) == ActivityBreakdownOf(engine, ys, a)
    {
      GroupsPermute(engine, xs, ys, ActivityOf, a);
    }
    forall m | m in Keys(xs, ModelOf)
      ensures ModelBreakdownOf(engine, xs, m) == ModelBreakdownOf(engine, ys, m)
    {
      GroupsPermute(engine, xs, ys, ModelOf, m);
    }
  }

  /** Two logs that interleave the same sessions have the same metrics. */
  lemma {:induction false} InterleavingDoesNotMatter(engine: Engine, xs: seq<Event>, ys: seq<Event>)
    requires SameGroups(xs, ys, SessionOf)
    ensures MetricsOf(engine, xs) == MetricsOf(engine, ys)
  {
    SameGroupsPermute(xs, ys, SessionOf);
    assert |xs| == |multiset(xs)| == |multiset(ys)| == |ys|;
    TotalsPermute(engine, xs, ys);
    BreakdownsPermute(engine, xs, ys);
    GroupsPermute(engine, xs, ys, ActivityOf, Thinking);
    GroupsPermute(engine, xs, ys, ActivityOf, Coding);
    SumPermutation(xs, ys, engine.PremiumTokens);
    assert PerSession(engine, xs, Keys(xs, SessionOf)) == PerSession(engine, ys, Keys(ys, SessionOf));
  }

  /* Bounds */

  lemma {:induction false} WasteWithinSpend(engine: Engine, turns: seq<Event>)
    requires NonNegative(turns)
    ensures 0 <= RetryTokens(turns) <= Sum(turns, Spend)
    ensures 0 <= engine.ColdTokens(turns) <= Sum(turns, Input)
    ensures 0 <= Sum(turns, engine.PremiumTokens) <= Sum(turns, Spend)
  {
    if turns == [] {
    } else {
      assert turns == Front(turns) + [Last(turns)];
      WasteWithinSpend(engine, Front(turns));
    }
  }

  lemma {:induction false} DerivedBounds(m: map<string, Derived>, input: map<string, int>)
    requires m.Keys == input.Keys
    requires forall s :: s in m ==>
      0 <= m[s].retry <= m[s].spend && 0 <= m[s].cold <= input[s] && 0 <= m[s].bloat <= m[s].long
    ensures 0 <= SumDerived(m).retry <= SumDerived(m).spend
    ensures 0 <= SumDerived(m).cold <= SumMap(input)
    ensures 0 <= SumDerived(m).bloat <= SumDerived(m).long
    decreases |m.Keys|
  {
    if m.Keys == {} {
    } else {
      var k :| k in m.Keys;
      SumDerivedPick(m, k);
      SumMapPick(input, k);
      DerivedBounds(m - {k}, input - {k});
    }
  }

  lemma {:induction false} GroupNonNegative<K>(events: seq<Event>, key: Event -> K, k: K)
    requires NonNegative(events)
    ensures NonNegative(Select(events, key, k))
    ensures Sum(Select(events, key, k), Spend) >= 0
  {
    SelectMembers(events, key, k);
    SumNonNegative(Select(events, key, k));
  }

  lemma {:induction false} SumNonNegative(events: seq<Event>)
    requires NonNegative(events)
    ensures Sum(events, Input) >= 0 && Sum(events, CacheRead) >= 0 && Sum(events, CacheCreation) >= 0
    ensures Sum(events, Spend) >= 0
  {
    if events == [] {
    } else {
      assert events == Front(events) + [Last(events)];
      SumNonNegative(Front(events));
    }
  }

  lemma {:induction false} DerivedTotalBounds(engine: Engine, events: seq<Event>)
    requires NonNegative(events)
    ensures
      var d := DerivedTotal(engine, events);
      0 <= d.retry <= d.spend && 0 <= d.cold <= Sum(events, Input) && 0 <= d.bloat <= d.long
  {
    var m := PerSession(engine, events, Keys(events, SessionOf));
    forall s | s in m
      ensures 0 <= m[s].retry <= m[s].spend && 0 <= m[s].cold <= GroupTotals(events, SessionOf, Input)[s]
    {
      GroupNonNegative(events, SessionOf, s);
      WasteWithinSpend(engine, Select(events, SessionOf, s));
    }
    DerivedBounds(m, GroupTotals(events, SessionOf, Input));
    Partition(events, SessionOf, Input);
  }

  predicate InUnit(r: real) { 0.0 <= r <= 1.0 }

  lemma {:induction false} SignOfProduct(p: real, y: real)
    requires y > 0.0
    ensures p * y >= 0.0 <==> p >= 0.0
  {
  }

  /** A quotient by a positive number compares to zero and one as its dividend does to zero and the divisor. */
  lemma {:induction false} QuotientCompares(x: real, y: real)
    requires y > 0.0
    ensures x / y >= 0.0 <==> x >= 0.0
    ensures x / y <= 1.0 <==> x <= y
  {
    var q := x / y;
    assert q * y == x;
    assert (1.0 - q) * y == y - x;
    SignOfProduct(q, y);
    SignOfProduct(1.0 - q, y);
  }

  lemma {:induction false} RatioInUnit(a: int, b: int)
    requires 0 <= a <= b
    ensures InUnit(Ratio(a, b))
  {
    if b != 0 {
      QuotientCompares(a as real, b as real);
    }
  }

  /** The numbers below and above each fraction line. */
  ghost predicate FractionsOrdered(engine: Engine, events: seq<Event>) {
    var t, d := TotalsOf(engine, events), DerivedTotal(engine, events);
    var think, code := GroupSpend(events, ActivityOf, Thinking), GroupSpend(events, ActivityOf, Coding);
    && 0 <= t.cacheReadTokens <= t.inputTokens + t.cacheReadTokens + t.cacheCreationTokens
    && 0 <= d.retry <= d.spend
    && 0 <= think <= think + code
    && 0 <= d.bloat <= d.long
    && 0 <= d.cold <= t.inputTokens
  }

  lemma {:induction false} FractionsAreOrdered(engine: Engine, events: seq<Event>)
    requires NonNegative(events)
    ensures FractionsOrdered(engine, events)
  {
    SumNonNegative(events);
    DerivedTotalBounds(engine, events);
    GroupNonNegative(events, ActivityOf, Thinking);
    GroupNonNegative(events, ActivityOf, Coding);
  }

  lemma {:induction false} SummaryOfShares(t: Totals, sessions: nat, d: Derived, think: int, code: int,
                                           byActivity: map<Activity, ActivityBreakdown>,
                                           byModel: map<string, ModelBreakdown>)
    requires 0 <= t.cacheReadTokens <= t.inputTokens + t.cacheReadTokens + t.cacheCreationTokens
    requires 0 <= d.retry <= d.spend && 0 <= think <= think + code
    requires 0 <= d.bloat <= d.long && 0 <= d.cold <= t.inputTokens
    ensures AreShares(Summary(t, sessions, d, think, code, byActivity, byModel))
  {
    RatioInUnit(t.cacheReadTokens, t.inputTokens + t.cacheReadTokens + t.cacheCreationTokens);
    RatioInUnit(d.retry, d.spend);
    RatioInUnit(think, think + code);
    RatioInUnit(d.bloat, d.long);
    RatioInUnit(d.cold, t.inputTokens);
  }

  /** A group spends part of the whole. */
  lemma {:induction false} GroupWithinSpend<K>(events: seq<Event>, key: Event -> K, k: K)
    requires NonNegative(events)
    ensures 0 <= GroupSpend(events, key, k) <= Sum(events, Spend)
  {
    if events == [] {
    } else {
      var before, e := Front(events), Last(events);
      assert events == before + [e];
      GroupWithinSpend(before, key, k);
      GroupTotalStep(before, e, key, Spend, k);
    }
  }

  lemma {:induction false} BreakdownsAreShares(engine: Engine, events: seq<Event>)
    requires NonNegative(events)
    ensures forall a :: a in ActivityBreakdowns(engine, events) ==> InUnit(ActivityBreakdowns(engine, events)[a].share)
    ensures forall x :: x in ModelBreakdowns(engine, events) ==> InUnit(ModelBreakdowns(engine, events)[x].share)
  {
    forall a | a in ACTIVITIES
      ensures InUnit(ActivityBreakdownOf(engine, events, a).share)
    {
      GroupWithinSpend(events, ActivityOf, a);
      RatioInUnit(GroupSpend(events, ActivityOf, a), Sum(events, Spend));
    }
    forall x | x in Keys(events, ModelOf)
      ensures InUnit(ModelBreakdownOf(engine, events, x).share)
    {
      GroupWithinSpend(events, ModelOf, x);
      RatioInUnit(GroupSpend(events, ModelOf, x), Sum(events, Spend));
    }
  }

  ghost predicate AreShares(m: Metrics) {
    && InUnit(m.cacheHitRatio) && InUnit(m.reworkRatio) && InUnit(m.thinkToCodeRatio)
    && InUnit(m.contextBloatShare) && InUnit(m.coldRestartShare) && InUnit(m.retryShare)
  }

  /** Every ratio but premium waste is a share, and so is that of every activity and every model. */
  lemma {:induction false} RatiosAreShares(engine: Engine, events: seq<Event>)
    requires NonNegative(events)
    ensures AreShares(MetricsOf(engine, events))
    ensures
      var m := MetricsOf(engine, events);
      && (forall a :: a in m.byActivity ==> InUnit(m.byActivity[a].share))
      && (forall x :: x in m.byModel ==> InUnit(m.byModel[x].share))
  {
    BreakdownsAreShares(engine, events);
    if events != [] {
      FractionsAreOrdered(engine, events);
      SummaryOfShares(TotalsOf(engine, events), |Keys(events, SessionOf)|, DerivedTotal(engine, events),
                      GroupSpend(events, ActivityOf, Thinking), GroupSpend(events, ActivityOf, Coding),
                      ActivityBreakdowns(engine, events), ModelBreakdowns(engine, events));
    }
  }

  /* What the numbers are */

  const SIX: set<Activity> := {Thinking, Exploration, Coding, Testing, Shipping, Conversation}

  /** `r` is the part over the whole, or zero over nothing. */
  predicate IsFraction(r: real, part: int, whole: int) {
    if whole == 0 then r == 0.0 else r * whole as real == part as real
  }

  lemma {:induction false} RatioIsFraction(r: real, part: int, whole: int)
    requires r == Ratio(part, whole)
    ensures IsFraction(r, part, whole)
  {
  }

  /** For parts that are not negative the fraction, times both parts, is the first. */
  lemma {:induction false} FractionOfBoth(r: real, part: int, rest: int)
    requires IsFraction(r, part, part + rest) && part >= 0 && rest >= 0
    ensures r * (part + rest) as real == part as real
  {
  }

  /** The sessions of a log that have some property of their turns. */
  ghost function SessionsWith(events: seq<Event>, has: seq<Event> -> bool): set<string> {
    set s | s in Keys(events, SessionOf) && has(Select(events, SessionOf, s))
  }

  predicate HasTenTurns(turns: seq<Event>) {
    |turns| >= 10
  }

  function ContextOf(e: Event): int { e.inputTokens + e.cacheReadTokens }

  /** In whole numbers: the later turns' contexts average at least twice what the earlier ones', which is positive. */
  predicate Doubles(early: int, late: int, earlyCount: nat, lateCount: nat) {
    early > 0 && late * earlyCount >= 2 * early * lateCount
  }

  /** Ten turns or more, of which the second half has at least twice the context a turn of the first. */
  predicate ContextGrows(turns: seq<Event>) {
    var mid := |turns| / 2;
    HasTenTurns(turns) && Doubles(Sum(turns[..mid], ContextOf), Sum(turns[mid..], ContextOf), mid, |turns| - mid)
  }

  /** One average over another, multiplied out. */
  lemma {:induction false} QuotientOfMeans(early: int, late: int, earlyCount: nat, lateCount: nat)
    requires earlyCount > 0 && lateCount > 0
    ensures early as real / earlyCount as real > 0.0 <==> early > 0
    ensures
      early > 0 ==>
        var growth := (late as real / lateCount as real) / (early as real / earlyCount as real);
        && growth * (early * lateCount) as real == (late * earlyCount) as real
        && (growth >= 2.0 <==> Doubles(early, late, earlyCount, lateCount))
  {
    var e, l := early as real / earlyCount as real, late as real / lateCount as real;
    assert e * earlyCount as real == early as real && l * lateCount as real == late as real;
    MeanIsPositive(early, earlyCount);
    if early > 0 {
      GrowthMultipliedOut(e, l, early, late, earlyCount, lateCount);
    }
  }

  lemma {:induction false} MeanIsPositive(sum: int, count: nat)
    requires count > 0
    ensures sum as real / count as real > 0.0 <==> sum > 0
  {
    var mean := sum as real / count as real;
    assert -mean * count as real == -(sum as real);
    SignOfProduct(-mean, count as real);
  }

  lemma {:induction false} GrowthMultipliedOut(e: real, l: real, early: int, late: int, earlyCount: nat, lateCount: nat)
    requires earlyCount > 0 && lateCount > 0 && early > 0 && e > 0.0
    requires e * earlyCount as real == early as real && l * lateCount as real == late as real
    ensures (l / e) * (early * lateCount) as real == (late * earlyCount) as real
    ensures l / e >= 2.0 <==> Doubles(early, late, earlyCount, lateCount)
  {
    var growth := l / e;
    assert growth * e == l;
    ProductOfMeans(growth, e, l, early, late, earlyCount, lateCount);
    TwiceCompares(growth, early * lateCount, late * earlyCount);
  }

  lemma {:induction false} ProductOfMeans(growth: real, e: real, l: real, early: int, late: int, p: nat, q: nat)
    requires growth * e == l && e * p as real == early as real && l * q as real == late as real
    ensures growth * (early * q) as real == (late * p) as real
  {
    var pr, qr := p as real, q as real;
    assert (early * q) as real == early as real * qr == e * pr * qr;
    assert growth * (e * pr * qr) == (growth * e) * qr * pr == l * qr * pr == late as real * pr;
    assert (late * p) as real == late as real * pr;
  }

  lemma {:induction false} TwiceCompares(growth: real, base: int, product: int)
    requires base > 0 && growth * base as real == product as real
    ensures growth >= 2.0 <==> product >= 2 * base
  {
    SignOfProduct(growth - 2.0, base as real);
    assert (growth - 2.0) * base as real == product as real - 2.0 * base as real;
  }

  lemma {:induction false} ContextsOfTurns(turns: seq<Event>)
    ensures |Contexts(turns)| == |turns| && Sum(Contexts(turns), Id) == Sum(turns, ContextOf)
  {
    if turns == [] {
    } else {
      ContextsOfTurns(Front(turns));
      assert Front(Contexts(turns)) == Contexts(Front(turns));
    }
  }

  lemma {:induction false} ContextsAppend(xs: seq<Event>, ys: seq<Event>)
    ensures Contexts(xs + ys) == Contexts(xs) + Contexts(ys)
  {
    if ys == [] {
      assert xs + ys == xs;
    } else {
      assert Front(xs + ys) == xs + Front(ys);
      ContextsAppend(xs, Front(ys));
    }
  }

  lemma {:induction false} HalvesOfContexts(turns: seq<Event>, mid: nat)
    requires mid <= |turns|
    ensures |Contexts(turns)| == |turns|
    ensures |Contexts(turns)[..mid]| == mid && Sum(Contexts(turns)[..mid], Id) == Sum(turns[..mid], ContextOf)
    ensures |Contexts(turns)[mid..]| == |turns| - mid && Sum(Contexts(turns)[mid..], Id) == Sum(turns[mid..], ContextOf)
  {
    assert turns == turns[..mid] + turns[mid..];
    ContextsAppend(turns[..mid], turns[mid..]);
    ContextsOfTurns(turns);
    ContextsOfTurns(turns[..mid]);
    ContextsOfTurns(turns[mid..]);
    assert Contexts(turns)[..mid] == Contexts(turns[..mid]) && Contexts(turns)[mid..] == Contexts(turns[mid..]);
  }

  /** The engine flags a session as bloated exactly when its context grows so. */
  lemma {:induction false} BloatedMeans(turns: seq<Event>)
    ensures IsBloated(turns) == if ContextGrows(turns) then 1 else 0
  {
    if HasTenTurns(turns) {
      var mid := |turns| / 2;
      HalvesOfContexts(turns, mid);
      QuotientOfMeans(Sum(turns[..mid], ContextOf), Sum(turns[mid..], ContextOf), mid, |turns| - mid);
    }
  }

  lemma {:induction false} SumOfFlags(m: map<string, int>, flagged: set<string>)
    requires flagged <= m.Keys && forall k :: k in m ==> m[k] == if k in flagged then 1 else 0
    ensures SumMap(m) == |flagged|
    decreases |m.Keys|
  {
    if m.Keys == {} {
    } else {
      var k :| k in m.Keys;
      SumMapPick(m, k);
      SumOfFlags(m - {k}, flagged - {k});
      assert k in flagged ==> |flagged| == |flagged - {k}| + 1;
      assert k !in flagged ==> flagged - {k} == flagged;
    }
  }

  function LongOf(d: Derived): int { d.long }

  function BloatOf(d: Derived): int { d.bloat }

  function RetryOf(d: Derived): int { d.retry }

  function ColdOf(d: Derived): int { d.cold }

  /** Long and bloated sessions are counted once each. */
  lemma {:induction false} SessionsAreCounted(engine: Engine, events: seq<Event>)
    ensures DerivedTotal(engine, events).long == |SessionsWith(events, HasTenTurns)|
    ensures DerivedTotal(engine, events).bloat == |SessionsWith(events, ContextGrows)|
  {
    var m, sessions := PerSession(engine, events, Keys(events, SessionOf)), Keys(events, SessionOf);
    var longs, bloats := GroupMap(events, SessionOf, IsLong), GroupMap(events, SessionOf, IsBloated);
    PartsAddUp(m, longs, LongOf);
    PartsAddUp(m, bloats, BloatOf);
    SumOfFlags(longs, SessionsWith(events, HasTenTurns));
    forall s | s in sessions
      ensures bloats[s] == if s in SessionsWith(events, ContextGrows) then 1 else 0
    {
      BloatedMeans(Select(events, SessionOf, s));
    }
    SumOfFlags(bloats, SessionsWith(events, ContextGrows));
  }

  /* Waste, turn by turn over the whole log */

  /** The turns of the session of a turn, before it. */
  function Earlier(before: seq<Event>, e: Event): seq<Event> {
    Select(before, SessionOf, e.sessionId)
  }

  /** A turn that is no error right after one of its session that is. */
  predicate Retries(before: seq<Event>, e: Event) {
    !e.isError && Earlier(before, e) != [] && Last(Earlier(before, e)).isError
  }

  /** A turn more than five minutes after the one before it in its session, which has an instant. */
  predicate ComesBack(engine: Engine, before: seq<Event>, e: Event) {
    && Earlier(before, e) != [] && engine.Time(Last(Earlier(before, e))) != 0
    && engine.Time(e) > engine.Time(Last(Earlier(before, e))) + 300_000_000_000
  }

  function RetriedTokens(events: seq<Event>): int {
    if events == [] then 0
    else
      var before, e := Front(events), Last(events);
      RetriedTokens(before) + if Retries(before, e) then e.inputTokens + e.outputTokens else 0
  }

  function RestartedTokens(engine: Engine, events: seq<Event>): int {
    if events == [] then 0
    else
      var before, e := Front(events), Last(events);
      RestartedTokens(engine, before) + if ComesBack(engine, before, e) then e.inputTokens else 0
  }

  /** One turn more changes the sum over sessions by what it changes in its own. */
  lemma {:induction false} OverSessionsSnoc(before: seq<Event>, e: Event, f: seq<Event> -> int)
    requires f([]) == 0
    ensures SumMap(GroupMap(before + [e], SessionOf, f))
         == SumMap(GroupMap(before, SessionOf, f)) + f(Earlier(before, e) + [e]) - f(Earlier(before, e))
  {
    GroupMapStep(before, e, SessionOf, f);
    KeyOccurs(before, SessionOf, e.sessionId);
    SumMapUpdate(GroupMap(before, SessionOf, f), e.sessionId, f(Earlier(before, e) + [e]));
  }

  lemma {:induction false} RetriesAddUp(events: seq<Event>)
    ensures SumMap(GroupMap(events, SessionOf, RetryTokens)) == RetriedTokens(events)
  {
    if events == [] {
      assert GroupMap(events, SessionOf, RetryTokens).Keys == {};
    } else {
      var before, e := Front(events), Last(events);
      assert events == before + [e];
      RetriesAddUp(before);
      OverSessionsSnoc(before, e, RetryTokens);
      assert Front(Earlier(before, e) + [e]) == Earlier(before, e);
    }
  }

  lemma {:induction false} RestartsAddUp(engine: Engine, events: seq<Event>)
    ensures SumMap(GroupMap(events, SessionOf, engine.ColdTokens)) == RestartedTokens(engine, events)
  {
    if events == [] {
      assert GroupMap(events, SessionOf, engine.ColdTokens).Keys == {};
    } else {
      var before, e := Front(events), Last(events);
      assert events == before + [e];
      RestartsAddUp(engine, before);
      OverSessionsSnoc(before, e, engine.ColdTokens);
      assert Front(Earlier(before, e) + [e]) == Earlier(before, e);
    }
  }

  /** Exact waste: the retry tokens are the spend of the turns that retry, the cold-restart tokens the input of those
      that come back, summed over the log as it is, sessions interleaved. */
  lemma {:induction false} WasteIsExact(engine: Engine, events: seq<Event>)
    ensures MetricsOf(engine, events).retryTokens == RetriedTokens(events)
    ensures MetricsOf(engine, events).coldRestartTokens == RestartedTokens(engine, events)
  {
    var m := PerSession(engine, events, Keys(events, SessionOf));
    PartsAddUp(m, GroupMap(events, SessionOf, RetryTokens), RetryOf);
    PartsAddUp(m, GroupMap(events, SessionOf, engine.ColdTokens), ColdOf);
    RetriesAddUp(events);
    RestartsAddUp(engine, events);
  }

  /** The counts of a log's metrics. */
  lemma {:induction false} CountsMean(engine: Engine, events: seq<Event>)
    ensures
      var m := MetricsOf(engine, events);
      && m.events == |events| && m.sessions == |Keys(events, SessionOf)|
      && m.spendTokens == Sum(events, Input) + Sum(events, Output)
      && m.cacheReadTokens == Sum(events, CacheRead) && m.cacheCreationTokens == Sum(events, CacheCreation)
      && m.totalLongSessions == |SessionsWith(events, HasTenTurns)|
      && m.bloatSessions == |SessionsWith(events, ContextGrows)|
  {
    SpendOverSessions(engine, events);
    SpendIsInputAndOutput(events);
    SessionsAreCounted(engine, events);
    if events == [] {
      assert SessionsWith(events, HasTenTurns) == {} && SessionsWith(events, ContextGrows) == {};
    }
  }

  lemma {:induction false} SpendIsInputAndOutput(events: seq<Event>)
    ensures Sum(events, Spend) == Sum(events, Input) + Sum(events, Output)
  {
    if events == [] {
    } else {
      SpendIsInputAndOutput(Front(events));
    }
  }

  /** The spend of the turns of one activity. */
  function SpentOn(events: seq<Event>, a: Activity): int {
    if events == [] then 0
    else SpentOn(Front(events), a) + if Last(events).activity == a then Spend(Last(events)) else 0
  }

  lemma {:induction false} SpentOnIsGroup(events: seq<Event>, a: Activity)
    ensures SpentOn(events, a) == GroupSpend(events, ActivityOf, a)
  {
    if events == [] {
    } else {
      assert events == Front(events) + [Last(events)];
      SpentOnIsGroup(Front(events), a);
      GroupTotalStep(Front(events), Last(events), ActivityOf, Spend, a);
    }
  }

  /** Each ratio is that of its own two numbers: the cache reads over all that was read or put in, the retried tokens
      over the spend, the thinking over thinking and coding, the sessions that grow over the long ones, and the
      tokens of the turns that come back over the input. Premium waste has a law of its own. */
  ghost predicate HasRatios(m: Metrics, input: int, think: int, code: int) {
    && IsFraction(m.cacheHitRatio, m.cacheReadTokens, input + m.cacheReadTokens + m.cacheCreationTokens)
    && IsFraction(m.reworkRatio, m.retryTokens, m.spendTokens) && m.retryShare == m.reworkRatio
    && IsFraction(m.thinkToCodeRatio, think, think + code)
    && IsFraction(m.contextBloatShare, m.bloatSessions, m.totalLongSessions)
    && IsFraction(m.coldRestartShare, m.coldRestartTokens, input)
  }

  lemma {:induction false} SummaryHasRatios(t: Totals, sessions: nat, d: Derived, think: int, code: int,
                                            byActivity: map<Activity, ActivityBreakdown>,
                                            byModel: map<string, ModelBreakdown>)
    ensures HasRatios(Summary(t, sessions, d, think, code, byActivity, byModel), t.inputTokens, think, code)
  {
    var m := Summary(t, sessions, d, think, code, byActivity, byModel);
    RatioIsFraction(m.cacheHitRatio, t.cacheReadTokens, t.inputTokens + t.cacheReadTokens + t.cacheCreationTokens);
    RatioIsFraction(m.reworkRatio, d.retry, d.spend);
    RatioIsFraction(m.thinkToCodeRatio, think, think + code);
    RatioIsFraction(m.contextBloatShare, d.bloat, d.long);
    RatioIsFraction(m.coldRestartShare, d.cold, t.inputTokens);
  }

  lemma {:induction false} RatiosMean(engine: Engine, events: seq<Event>)
    ensures HasRatios(MetricsOf(engine, events), Sum(events, Input), SpentOn(events, Thinking), SpentOn(events, Coding))
  {
    SpentOnIsGroup(events, Thinking);
    SpentOnIsGroup(events, Coding);
    if events == [] {
    } else {
      SummaryHasRatios(TotalsOf(engine, events), |Keys(events, SessionOf)|, DerivedTotal(engine, events),
                       SpentOn(events, Thinking), SpentOn(events, Coding),
                       ActivityBreakdowns(engine, events), ModelBreakdowns(engine, events));
    }
  }

  /** Each of the six activities has a breakdown, of its own spend. */
  lemma {:induction false} ActivityBreakdownMeans(engine: Engine, events: seq<Event>, a: Activity)
    ensures a in ActivityBreakdowns(engine, events) <==> a in SIX
    ensures
      a in SIX ==>
        var b := ActivityBreakdowns(engine, events)[a];
        b.activity == a && b.tokens == SpentOn(events, a) && IsFraction(b.share, SpentOn(events, a), Sum(events, Spend))
  {
    SpentOnIsGroup(events, a);
    RatioIsFraction(Ratio(SpentOn(events, a), Sum(events, Spend)), SpentOn(events, a), Sum(events, Spend));
  }

  /** Each model of the log has a breakdown, of the spend of its own turns. */
  lemma {:induction false} ModelBreakdownMeans(engine: Engine, events: seq<Event>, x: string)
    ensures x in ModelBreakdowns(engine, events) <==> exists e :: e in events && e.model == x
    ensures
      x in ModelBreakdowns(engine, events) ==>
        var b, spent := ModelBreakdowns(engine, events)[x], Sum(Select(events, ModelOf, x), Spend);
        b.model == x && b.tokens == spent && IsFraction(b.share, spent, Sum(events, Spend))
  {
    KeysMembers(events, ModelOf);
    var spent := Sum(Select(events, ModelOf, x), Spend);
    RatioIsFraction(Ratio(spent, Sum(events, Spend)), spent, Sum(events, Spend));
  }

  /** They are the breakdowns of the metrics. */
  lemma {:induction false} BreakdownsAreThose(engine: Engine, events: seq<Event>)
    ensures MetricsOf(engine, events).byModel == ModelBreakdowns(engine, events)
    ensures events != [] ==> MetricsOf(engine, events).byActivity == ActivityBreakdowns(engine, events)
  {
    if events == [] {
      assert NO_METRICS.byModel == map[];
      assert ModelBreakdowns(engine, events) == map[];
    }
  }

  /** Premium waste is the spend of turns with a session, on exploration or conversation, by a model whose name holds
      one of the premium names. */
  lemma {:induction false} PremiumTokensMean(engine: Engine, e: Event)
    ensures
      var counts :=
        e.sessionId != "" && e.activity in {Exploration, Conversation} && NamesPremium(engine.pricing, e.model);
      engine.PremiumTokens(e) == if counts then e.inputTokens + e.outputTokens else 0
  {
    PremiumNames(engine.pricing, e.model);
  }

  ghost predicate NamesPremium(pricing: PricingService, model: string) {
    exists k, before, after ::
      0 <= k < |PREMIUM_PREFIXES| && pricing.lower(model) == Around(before, pricing.lower(PREMIUM_PREFIXES[k]), after)
  }

  function Around(before: string, part: string, after: string): string {
    before + part + after
  }

  lemma {:induction false} PremiumNames(pricing: PricingService, model: string)
    ensures pricing.IsPremiumModel(model) <==> NamesPremium(pricing, model)
  {
    var name := pricing.lower(model);
    if pricing.IsPremiumModel(model) {
      var k :| 0 <= k < |PREMIUM_PREFIXES| && Strings.Contains(name, pricing.lower(PREMIUM_PREFIXES[k]));
      var part := pricing.lower(PREMIUM_PREFIXES[k]);
      var i := Strings.ContainsPosition(name, part);
      assert name == Around(name[..i], part, name[i + |part|..]);
    }
    if NamesPremium(pricing, model) {
      var k, before, after :| 0 <= k < |PREMIUM_PREFIXES|
        && name == Around(before, pricing.lower(PREMIUM_PREFIXES[k]), after);
      Strings.ContainsAfter(before, pricing.lower(PREMIUM_PREFIXES[k]), after);
    }
  }

  /* Premium waste */

  lemma {:induction false} PremiumPerSession(m: map<string, Derived>, premium: int)
    requires forall s :: s in m ==> m[s].premiumWaste == premium
    ensures SumDerived(m).premiumWaste == |m.Keys| * premium
    decreases |m.Keys|
  {
    if m.Keys == {} {
    } else {
      var k :| k in m.Keys;
      SumDerivedPick(m, k);
      PremiumPerSession(m - {k}, premium);
      var rest := |(m - {k}).Keys|;
      assert (m - {k}).Keys == m.Keys - {k} && |m.Keys| == rest + 1;
      OnceMore(rest, premium);
    }
  }

  lemma {:induction false} OnceMore(n: nat, x: int)
    ensures (n + 1) * x == n * x + x
  {
  }

  /** Premium waste counts the premium spend of the whole log once per session. */
  lemma {:induction false} PremiumWasteIsMultiplied(engine: Engine, events: seq<Event>)
    requires events != []
    ensures MetricsOf(engine, events).premiumWasteShare
         == Ratio(|Keys(events, SessionOf)| * Sum(events, engine.PremiumTokens), Sum(events, Spend))
  {
    SpendOverSessions(engine, events);
    var m := PerSession(engine, events, Keys(events, SessionOf));
    PremiumPerSession(m, Sum(events, engine.PremiumTokens));
    assert m.Keys == Keys(events, SessionOf);
  }

  /** So it is a share exactly when the premium spend, once per session, stays within the whole spend. */
  lemma {:induction false} PremiumWasteIsAShareExactlyWhen(engine: Engine, events: seq<Event>)
    requires NonNegative(events)
    ensures InUnit(MetricsOf(engine, events).premiumWasteShare)
       <==> |Keys(events, SessionOf)| * Sum(events, engine.PremiumTokens) <= Sum(events, Spend)
  {
    WasteWithinSpend(engine, events);
    if events == [] {
    } else {
      PremiumWasteIsMultiplied(engine, events);
      RatioOfMultiple(|Keys(events, SessionOf)|, Sum(events, engine.PremiumTokens), Sum(events, Spend));
    }
  }

  lemma {:induction false} RatioOfMultiple(n: nat, a: int, b: int)
    requires 0 <= a <= b
    ensures InUnit(Ratio(n * a, b)) <==> n * a <= b
  {
    var x := n * a;
    assert x >= 0;
    if b == 0 {
      assert x == 0;
    } else {
      QuotientCompares(x as real, b as real);
    }
  }

  function PremiumTurn(session: string): Event {
    Event("codex", session, session, "p", "", "o1", [], Exploration, "", 1, 0, 0, 0, false)
  }

  const AS_IS: string -> string := (s: string) => s

  lemma {:induction false} PremiumTurnWaste(engine: Engine, session: string)
    requires engine.pricing.lower == AS_IS && session != ""
    ensures engine.PremiumTokens(PremiumTurn(session)) == 1
  {
    assert PREMIUM_PREFIXES[2] == "o1" && Strings.Contains("o1", "o1");
    assert engine.pricing.IsPremiumModel("o1");
  }

  /** Two sessions that only explore with a premium model: the share is 2. */
  lemma {:induction false} PremiumWasteCanExceedOne(parse: string -> Option<int>)
    ensures
      var engine := Engine(PricingService(PRICES, AS_IS), parse);
      MetricsOf(engine, [PremiumTurn("a"), PremiumTurn("b")]).premiumWasteShare == 2.0
  {
    var engine := Engine(PricingService(PRICES, AS_IS), parse);
    var a, b := PremiumTurn("a"), PremiumTurn("b");
    PremiumTurnWaste(engine, "a");
    PremiumTurnWaste(engine, "b");
    TwoTurns(a, b, Spend);
    TwoTurns(a, b, engine.PremiumTokens);
    assert "a" != "b";
    PremiumWasteIsMultiplied(engine, [a, b]);
    assert Ratio(4, 2) == 2.0;
  }

  lemma {:induction false} TwoTurns(a: Event, b: Event, weight: Event -> int)
    ensures Sum([a, b], weight) == weight(a) + weight(b)
    ensures Keys([a, b], SessionOf) == {a.sessionId, b.sessionId}
  {
    assert Front([a, b]) == [a] && Front([a]) == [];
    assert Sum([a], weight) == weight(a) && Keys([a], SessionOf) == {a.sessionId};
  }

  /* Breakdowns and cost */

  function ModelTokens(m: Metrics): map<string, int> {
    map x | x in m.byModel :: m.byModel[x].tokens
  }

  function ModelCosts(m: Metrics): map<string, real> {
    map x | x in m.byModel :: m.byModel[x].costUsd
  }

  lemma {:induction false} ModelTokensAreGroups(engine: Engine, events: seq<Event>)
    ensures ModelTokens(MetricsOf(engine, events)) == GroupTotals(events, ModelOf, Spend)
  {
    if events == [] {
      assert ModelTokens(NO_METRICS) == map[];
    }
  }

  lemma {:induction false} ModelCostsAreGroups(engine: Engine, events: seq<Event>)
    ensures ModelCosts(MetricsOf(engine, events)) == GroupTotalsReal(events, ModelOf, engine.pricing.Usd)
  {
    if events == [] {
      assert ModelCosts(NO_METRICS) == map[];
    }
  }

  /** Tokens and cost by model add up to the totals. */
  lemma {:induction false} ModelsAddUp(engine: Engine, events: seq<Event>)
    ensures SumMap(ModelTokens(MetricsOf(engine, events))) == MetricsOf(engine, events).spendTokens
    ensures SumMapReal(ModelCosts(MetricsOf(engine, events))) == MetricsOf(engine, events).costUsd
  {
    ModelTokensAreGroups(engine, events);
    ModelCostsAreGroups(engine, events);
    Partition(events, ModelOf, Spend);
    PartitionReal(events, ModelOf, engine.pricing.Usd);
    SpendOverSessions(engine, events);
  }

  /** The cost of a model is the price of its summed tokens. */
  lemma {:induction false} ModelCostIsPriceOfTokens(engine: Engine, events: seq<Event>, model: string)
    requires model in MetricsOf(engine, events).byModel
    ensures MetricsOf(engine, events).byModel[model].costUsd
         == SummedCost(engine.pricing, Select(events, ModelOf, model), model).usd
  {
    SelectMembers(events, ModelOf, model);
    assert forall e :: e in Select(events, ModelOf, model) ==> ModelOf(e) == model;
    CostOfSums(engine.pricing, Select(events, ModelOf, model), model);
  }

  /** What each model's summed tokens cost at its price. */
  function PricedByModel(engine: Engine, events: seq<Event>): map<string, real> {
    map x | x in Keys(events, ModelOf) :: SummedCost(engine.pricing, Select(events, ModelOf, x), x).usd
  }

  lemma {:induction false} PricedAreGroups(engine: Engine, events: seq<Event>)
    ensures PricedByModel(engine, events) == GroupTotalsReal(events, ModelOf, engine.pricing.Usd)
  {
    forall x | x in Keys(events, ModelOf)
      ensures SummedCost(engine.pricing, Select(events, ModelOf, x), x).usd
           == SumReal(Select(events, ModelOf, x), engine.pricing.Usd)
    {
      SelectMembers(events, ModelOf, x);
      assert forall e :: e in Select(events, ModelOf, x) ==> ModelOf(e) == x;
      CostOfSums(engine.pricing, Select(events, ModelOf, x), x);
    }
  }

  /** The total cost, added up turn by turn, is the sum over models of the price of the model's summed tokens. */
  lemma {:induction false} TotalCostIsPricedByModel(engine: Engine, events: seq<Event>)
    ensures MetricsOf(engine, events).costUsd == SumMapReal(PricedByModel(engine, events))
  {
    PartitionReal(events, ModelOf, engine.pricing.Usd);
    PricedAreGroups(engine, events);
  }

  /** The events whose activity is none of the six. */
  function UnlistedSpend(e: Event): int {
    if e.activity.OtherActivity? then Spend(e) else 0
  }

  function UnlistedCost(engine: Engine, events: seq<Event>): real {
    if events == [] then 0.0
    else
      UnlistedCost(engine, Front(events)) +
      if Last(events).activity.OtherActivity? then engine.pricing.Usd(Last(events)) else 0.0
  }

  lemma {:induction false} SixAddUp(engine: Engine, events: seq<Event>)
    ensures GroupSpend(events, ActivityOf, Thinking) + GroupSpend(events, ActivityOf, Exploration) +
            GroupSpend(events, ActivityOf, Coding) + GroupSpend(events, ActivityOf, Testing) +
            GroupSpend(events, ActivityOf, Shipping) + GroupSpend(events, ActivityOf, Conversation) +
            Sum(events, UnlistedSpend) == Sum(events, Spend)
  {
    if events == [] {
    } else {
      var before, e := Front(events), Last(events);
      assert events == before + [e];
      SixAddUp(engine, before);
      forall a: Activity
        ensures GroupSpend(events, ActivityOf, a)
             == GroupSpend(before, ActivityOf, a) + if e.activity == a then Spend(e) else 0
      {
        GroupTotalStep(before, e, ActivityOf, Spend, a);
      }
    }
  }

  lemma {:induction false} SixCostsAddUp(engine: Engine, events: seq<Event>)
    ensures GroupCost(engine, events, ActivityOf, Thinking) + GroupCost(engine, events, ActivityOf, Exploration) +
            GroupCost(engine, events, ActivityOf, Coding) + GroupCost(engine, events, ActivityOf, Testing) +
            GroupCost(engine, events, ActivityOf, Shipping) + GroupCost(engine, events, ActivityOf, Conversation) +
            UnlistedCost(engine, events) == SumReal(events, engine.pricing.Usd)
  {
    if events == [] {
    } else {
      var before, e := Front(events), Last(events);
      assert events == before + [e];
      SixCostsAddUp(engine, before);
      OneActivityGrows(engine, before, e, Thinking);
      OneActivityGrows(engine, before, e, Exploration);
      OneActivityGrows(engine, before, e, Coding);
      OneActivityGrows(engine, before, e, Testing);
      OneActivityGrows(engine, before, e, Shipping);
      OneActivityGrows(engine, before, e, Conversation);
    }
  }

  lemma {:induction false} OneActivityGrows(engine: Engine, before: seq<Event>, e: Event, a: Activity)
    ensures GroupCost(engine, before + [e], ActivityOf, a)
         == GroupCost(engine, before, ActivityOf, a) + if e.activity == a then engine.pricing.Usd(e) else 0.0
  {
    GroupTotalRealStep(before, e, ActivityOf, engine.pricing.Usd, a);
  }

  lemma {:induction false} SumOfSix(m: map<Activity, int>)
    requires m.Keys == SIX
    ensures SumMap(m) == m[Thinking] + m[Exploration] + m[Coding] + m[Testing] + m[Shipping] + m[Conversation]
  {
    SumMapPick(m, Thinking);
    SumMapPick(m - {Thinking}, Exploration);
    SumMapPick(m - {Thinking} - {Exploration}, Coding);
    SumMapPick(m - {Thinking} - {Exploration} - {Coding}, Testing);
    SumMapPick(m - {Thinking} - {Exploration} - {Coding} - {Testing}, Shipping);
    SumMapPick(m - {Thinking} - {Exploration} - {Coding} - {Testing} - {Shipping}, Conversation);
    assert (m - {Thinking} - {Exploration} - {Coding} - {Testing} - {Shipping} - {Conversation}).Keys == {};
  }

  lemma {:induction false} SumOfSixReal(m: map<Activity, real>)
    requires m.Keys == SIX
    ensures SumMapReal(m) == m[Thinking] + m[Exploration] + m[Coding] + m[Testing] + m[Shipping] + m[Conversation]
  {
    SumMapRealPick(m, Thinking);
    SumMapRealPick(m - {Thinking}, Exploration);
    SumMapRealPick(m - {Thinking} - {Exploration}, Coding);
    SumMapRealPick(m - {Thinking} - {Exploration} - {Coding}, Testing);
    SumMapRealPick(m - {Thinking} - {Exploration} - {Coding} - {Testing}, Shipping);
    SumMapRealPick(m - {Thinking} - {Exploration} - {Coding} - {Testing} - {Shipping}, Conversation);
    assert (m - {Thinking} - {Exploration} - {Coding} - {Testing} - {Shipping} - {Conversation}).Keys == {};
  }

  function ActivityTokens(acts: map<Activity, ActivityBreakdown>): map<Activity, int> {
    map a | a in acts :: acts[a].tokens
  }

  function ActivityCosts(acts: map<Activity, ActivityBreakdown>): map<Activity, real> {
    map a | a in acts :: acts[a].costUsd
  }

  lemma {:induction false} ActivityTokensAddUp(engine: Engine, events: seq<Event>)
    ensures ActivityBreakdowns(engine, events).Keys == SIX
    ensures SumMap(ActivityTokens(ActivityBreakdowns(engine, events)))
         == Sum(events, Spend) - Sum(events, UnlistedSpend)
  {
    assert ActivityBreakdowns(engine, events).Keys == SIX;
    SixAddUp(engine, events);
    SumOfSix(ActivityTokens(ActivityBreakdowns(engine, events)));
  }

  lemma {:induction false} ActivityCostsAddUp(engine: Engine, events: seq<Event>)
    ensures SumMapReal(ActivityCosts(ActivityBreakdowns(engine, events)))
         == SumReal(events, engine.pricing.Usd) - UnlistedCost(engine, events)
  {
    assert ActivityBreakdowns(engine, events).Keys == SIX;
    SixCostsAddUp(engine, events);
    SumOfSixReal(ActivityCosts(ActivityBreakdowns(engine, events)));
  }

  /** Tokens and cost by activity add up to the totals less what carries another activity's name,
      so to the totals when every activity is one of the six. */
  lemma {:induction false} ActivitiesAddUp(engine: Engine, events: seq<Event>)
    requires events != []
    ensures MetricsOf(engine, events).byActivity.Keys == SIX
    ensures SumMap(ActivityTokens(MetricsOf(engine, events).byActivity))
         == MetricsOf(engine, events).spendTokens - Sum(events, UnlistedSpend)
    ensures SumMapReal(ActivityCosts(MetricsOf(engine, events).byActivity))
         == MetricsOf(engine, events).costUsd - UnlistedCost(engine, events)
  {
    SpendOverSessions(engine, events);
    ActivityTokensAddUp(engine, events);
    ActivityCostsAddUp(engine, events);
  }

  lemma {:induction false} NothingUnlisted(engine: Engine, events: seq<Event>)
    requires forall e :: e in events ==> !e.activity.OtherActivity?
    ensures Sum(events, UnlistedSpend) == 0 && UnlistedCost(engine, events) == 0.0
  {
    if events == [] {
    } else {
      assert events == Front(events) + [Last(events)];
      NothingUnlisted(engine, Front(events));
    }
  }
}
