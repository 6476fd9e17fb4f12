/** The metrics engine and the session analyzer read the same log twice, on their own; what they say agrees. */
module AnalyzersAgree {
  import opened Wrappers
  import opened Grouping
  import opened MapSums
  import opened Usage
  import opened Pricing
  import E = MetricsEngine
  import opened SessionAnalyzer
  import L = MetricsLaws

  /* Which turns the two flag as cold restarts */

  /** Both read the timestamp alike: to the same instant, or not at all.
      The engine takes a final Z off and puts one on. */
  predicate ReadAlike(parse: string -> Option<int>, e: Event) {
    parse(E.TrimZ(e.ts) + "Z") == parse(e.ts)
  }

  ghost predicate AllReadAlike(parse: string -> Option<int>, events: seq<Event>) {
    forall e :: e in events ==> ReadAlike(parse, e)
  }

  /** Timestamps as the event contract has them, in UTC with a Z, are read alike whether they parse or not. */
  lemma {:induction false} ZStampsAreReadAlike(parse: string -> Option<int>, e: Event)
    requires e.ts != "" && Last(e.ts) == 'Z'
    ensures ReadAlike(parse, e)
  {
    assert E.TrimZ(e.ts) + "Z" == e.ts;
  }

  /** The turn at place `i` of a session is a cold restart to the engine. */
  predicate EngineFlags(engine: E.Engine, turns: seq<Event>, i: nat)
    requires i < |turns|
  {
    i > 0 && engine.IsCold(turns[i - 1], turns[i])
  }

  /** It is one to the analyzer: it has an instant, and resumes after the last turn before it that has one. */
  predicate AnalyzerFlags(an: Analyzer, turns: seq<Event>, i: nat)
    requires i < |turns|
  {
    var before, t := an.Stamps(turns[..i]), an.parse(turns[i].ts);
    before != [] && t.Some? && Resumes(Last(before), Stamp(t.value, AllTokens(turns[i])))
  }

  /** The flags are what both count, turn by turn. */
  lemma {:induction false} FlagsAreCounted(engine: E.Engine, an: Analyzer, before: seq<Event>, e: Event)
    ensures engine.ColdTokens(before + [e])
         == engine.ColdTokens(before) + if EngineFlags(engine, before + [e], |before|) then e.inputTokens else 0
    ensures ColdTokens(an.Stamps(before + [e]))
         == ColdTokens(an.Stamps(before)) + if AnalyzerFlags(an, before + [e], |before|) then AllTokens(e) else 0
    ensures ColdTurns(an.Stamps(before + [e]))
         == ColdTurns(an.Stamps(before)) + if AnalyzerFlags(an, before + [e], |before|) then 1 else 0
  {
    assert Front(before + [e]) == before && (before + [e])[..|before|] == before;
    var stamps := an.Stamps(before);
    if an.parse(e.ts).Some? {
      var s := Stamp(an.parse(e.ts).value, AllTokens(e));
      assert an.Stamps(before + [e]) == stamps + [s] && Front(stamps + [s]) == stamps;
    }
  }

  /** A gap behind a turn without an instant: the turn right before has none, the engine has forgotten the one before
      it, and the analyzer resumes from it. */
  predicate HidesColdRestart(an: Analyzer, turns: seq<Event>, i: nat)
    requires i < |turns|
  {
    i > 0 && an.parse(turns[i - 1].ts).None? && AnalyzerFlags(an, turns, i)
  }

  /** A turn without an instant right after one that lies more than five minutes before Go's zero time, which the engine
      takes the turn's own instant to be. RFC 3339 has such instants in the year 0. */
  predicate InventsColdRestart(an: Analyzer, turns: seq<Event>, i: nat)
    requires i < |turns|
  {
    && i > 0 && an.parse(turns[i].ts).None?
    && an.parse(turns[i - 1].ts).Some? && an.parse(turns[i - 1].ts).value < -COLD_RESTART_GAP
  }

  /** Turn by turn, the two disagree exactly at such turns. */
  lemma {:induction false} FlagsAgreeExactlyWhen(engine: E.Engine, an: Analyzer, turns: seq<Event>, i: nat)
    requires an.parse == engine.parse && AllReadAlike(an.parse, turns) && i < |turns|
    ensures (EngineFlags(engine, turns, i) <==> AnalyzerFlags(an, turns, i))
       <==> !HidesColdRestart(an, turns, i) && !InventsColdRestart(an, turns, i)
    ensures HidesColdRestart(an, turns, i) ==> AnalyzerFlags(an, turns, i) && !EngineFlags(engine, turns, i)
    ensures InventsColdRestart(an, turns, i) ==> EngineFlags(engine, turns, i) && !AnalyzerFlags(an, turns, i)
  {
    assert ReadAlike(an.parse, turns[i]);
    if i > 0 {
      assert ReadAlike(an.parse, turns[i - 1]);
      Snoc(turns, i - 1);
    } else {
      assert turns[..0] == [];
    }
  }

  /** A session is read alike throughout exactly when no turn of it hides or invents a cold restart. */
  lemma {:induction false} SameFlagsExactlyWhen(engine: E.Engine, an: Analyzer, turns: seq<Event>)
    requires an.parse == engine.parse && AllReadAlike(an.parse, turns)
    ensures (forall i :: 0 <= i < |turns| ==> (EngineFlags(engine, turns, i) <==> AnalyzerFlags(an, turns, i)))
       <==> (forall i :: 0 <= i < |turns| ==> !HidesColdRestart(an, turns, i) && !InventsColdRestart(an, turns, i))
  {
    forall i | 0 <= i < |turns|
      ensures (EngineFlags(engine, turns, i) <==> AnalyzerFlags(an, turns, i))
         <==> !HidesColdRestart(an, turns, i) && !InventsColdRestart(an, turns, i)
    {
      FlagsAgreeExactlyWhen(engine, an, turns, i);
    }
  }

  /** Every turn has an instant, the same for both. */
  ghost predicate WellStamped(parse: string -> Option<int>, events: seq<Event>) {
    AllReadAlike(parse, events) && forall e :: e in events ==> parse(e.ts).Some?
  }

  /** So both flag the same turns as cold restarts when every turn has an instant. */
  lemma {:induction false} SameColdTurns(engine: E.Engine, an: Analyzer, turns: seq<Event>, i: nat)
    requires WellStamped(engine.parse, turns) && an.parse == engine.parse && i < |turns|
    ensures EngineFlags(engine, turns, i) <==> AnalyzerFlags(an, turns, i)
  {
    FlagsAgreeExactlyWhen(engine, an, turns, i);
    assert turns[i] in turns && (i > 0 ==> turns[i - 1] in turns);
  }

  /** No instant lies before Go's zero time. */
  ghost predicate NoInstantBeforeZero(parse: string -> Option<int>, events: seq<Event>) {
    forall e :: e in events && parse(e.ts).Some? ==> parse(e.ts).value >= 0
  }

  lemma {:induction false} ColdTokensCompare(engine: E.Engine, an: Analyzer, turns: seq<Event>)
    requires an.parse == engine.parse && AllReadAlike(an.parse, turns) && NoInstantBeforeZero(an.parse, turns)
    requires NonNegative(turns)
    ensures engine.ColdTokens(turns) <= ColdTokens(an.Stamps(turns))
  {
    if turns == [] {
    } else {
      var before, e := Front(turns), Last(turns);
      assert turns == before + [e];
      ColdTokensCompare(engine, an, before);
      FlagsAreCounted(engine, an, before, e);
      FlagsAgreeExactlyWhen(engine, an, turns, |before|);
      assert |before| > 0 ==> turns[|before| - 1] in turns;
    }
  }

  /* Sums over sessions, in first-seen order and over the map */

  lemma {:induction false} SumAlong<T>(order: seq<string>, xs: seq<T>, m: map<string, int>, weight: T -> int)
    requires |order| == |xs| && Distinct(order) && forall k :: k in order <==> k in m.Keys
    requires forall i :: 0 <= i < |order| ==> m[order[i]] == weight(xs[i])
    ensures Sum(xs, weight) == SumMap(m)
  {
    if order == [] {
      assert m.Keys == {};
    } else {
      var k := Last(order);
      assert order == Front(order) + [k];
      SumMapPick(m, k);
      SumAlong(Front(order), Front(xs), m - {k}, weight);
    }
  }

  lemma {:induction false} SumRealAlong<T>(order: seq<string>, xs: seq<T>, m: map<string, real>, weight: T -> real)
    requires |order| == |xs| && Distinct(order) && forall k :: k in order <==> k in m.Keys
    requires forall i :: 0 <= i < |order| ==> m[order[i]] == weight(xs[i])
    ensures SumReal(xs, weight) == SumMapReal(m)
  {
    if order == [] {
      assert m.Keys == {};
    } else {
      var k := Last(order);
      assert order == Front(order) + [k];
      SumMapRealPick(m, k);
      SumRealAlong(Front(order), Front(xs), m - {k}, weight);
    }
  }

  function StatSpend(s: SessionStat): int { s.spendTokens }

  function StatTurns(s: SessionStat): int { s.turns }

  function StatCost(s: SessionStat): real { s.costUsd }

  function StatCold(s: SessionStat): int { s.coldRestartTokens }

  function StatLong(s: SessionStat): int { if IsContextHeavy(s) then 1 else 0 }

  lemma {:induction false} OrderCovers(events: seq<Event>)
    ensures Distinct(FirstSeen(events, SessionOf))
    ensures forall k :: k in FirstSeen(events, SessionOf) <==> k in Keys(events, SessionOf)
  {
    FirstSeenKeys(events, SessionOf);
  }

  lemma {:induction false} SpendAlong(an: Analyzer, events: seq<Event>, stats: seq<SessionStat>)
    requires AreStats(an, events, stats)
    ensures Sum(stats, StatSpend) == Sum(events, AllTokens)
  {
    OrderCovers(events);
    SumAlong(FirstSeen(events, SessionOf), stats, GroupTotals(events, SessionOf, AllTokens), StatSpend);
    Partition(events, SessionOf, AllTokens);
  }

  lemma {:induction false} TurnsAlong(an: Analyzer, events: seq<Event>, stats: seq<SessionStat>)
    requires AreStats(an, events, stats)
    ensures Sum(stats, StatTurns) == |events|
  {
    OrderCovers(events);
    var order := FirstSeen(events, SessionOf);
    forall i | 0 <= i < |order|
      ensures GroupTotals(events, SessionOf, One)[order[i]] == StatTurns(stats[i])
    {
      CountIsLength(Select(events, SessionOf, order[i]));
    }
    SumAlong(order, stats, GroupTotals(events, SessionOf, One), StatTurns);
    Partition(events, SessionOf, One);
    CountIsLength(events);
  }

  lemma {:induction false} EngineTokens(engine: E.Engine, events: seq<Event>)
    ensures
      var m := E.MetricsOf(engine, events);
      m.spendTokens + m.cacheReadTokens + m.cacheCreationTokens == Sum(events, AllTokens)
  {
    AllTokensSplit(events);
    E.SpendOverSessions(engine, events);
  }

  /** The turns of the stats are the events; their tokens are the engine's spend and both cache totals. */
  lemma {:induction false} TokensAgree(engine: E.Engine, an: Analyzer, events: seq<Event>, stats: seq<SessionStat>)
    requires AreStats(an, events, stats)
    ensures Sum(stats, StatTurns) == |events|
    ensures
      var m := E.MetricsOf(engine, events);
      Sum(stats, StatSpend) == m.spendTokens + m.cacheReadTokens + m.cacheCreationTokens
  {
    TurnsAlong(an, events, stats);
    SpendAlong(an, events, stats);
    EngineTokens(engine, events);
  }

  lemma {:induction false} AllTokensSplit(events: seq<Event>)
    ensures Sum(events, AllTokens) == Sum(events, Spend) + Sum(events, CacheRead) + Sum(events, CacheCreation)
  {
    if events == [] {
    } else {
      AllTokensSplit(Front(events));
    }
  }

  /** Session counts and costs agree. */
  lemma {:induction false} CostsAgree(engine: E.Engine, an: Analyzer, events: seq<Event>, stats: seq<SessionStat>)
    requires AreStats(an, events, stats) && an.pricing == engine.pricing
    ensures |stats| == E.MetricsOf(engine, events).sessions
    ensures SumReal(stats, StatCost) == E.MetricsOf(engine, events).costUsd
  {
    FirstSeenKeys(events, SessionOf);
    OrderCovers(events);
    SumRealAlong(FirstSeen(events, SessionOf), stats, GroupTotalsReal(events, SessionOf, engine.pricing.Usd), StatCost);
    PartitionReal(events, SessionOf, engine.pricing.Usd);
  }

  function LongPart(d: E.Derived): int { d.long }

  function ColdPart(d: E.Derived): int { d.cold }

  lemma {:induction false} HeavyCount(stats: seq<SessionStat>)
    ensures Sum(stats, StatLong) == |Filter(stats, IsContextHeavy)|
  {
    if stats == [] {
    } else {
      HeavyCount(Front(stats));
    }
  }

  /** The engine's long sessions are the analyzer's context-heavy ones. */
  lemma {:induction false} LongSessionsAgree(engine: E.Engine, an: Analyzer, events: seq<Event>,
                                             stats: seq<SessionStat>)
    requires AreStats(an, events, stats)
    ensures |Filter(stats, IsContextHeavy)| == E.MetricsOf(engine, events).totalLongSessions
  {
    LongPartIsCount(engine, events);
    LongCountAlong(an, events, stats);
    HeavyCount(stats);
    if events == [] {
      assert GroupMap(events, SessionOf, E.IsLong).Keys == {};
    }
  }

  lemma {:induction false} LongPartIsCount(engine: E.Engine, events: seq<Event>)
    ensures E.DerivedTotal(engine, events).long == SumMap(GroupMap(events, SessionOf, E.IsLong))
  {
    E.PartsAddUp(E.PerSession(engine, events, Keys(events, SessionOf)), GroupMap(events, SessionOf, E.IsLong),
          LongPart);
  }

  lemma {:induction false} LongCountAlong(an: Analyzer, events: seq<Event>, stats: seq<SessionStat>)
    requires AreStats(an, events, stats)
    ensures Sum(stats, StatLong) == SumMap(GroupMap(events, SessionOf, E.IsLong))
  {
    OrderCovers(events);
    var order, longs := FirstSeen(events, SessionOf), GroupMap(events, SessionOf, E.IsLong);
    forall i | 0 <= i < |order|
      ensures longs[order[i]] == StatLong(stats[i])
    {
      assert IsStat(an, order[i], Select(events, SessionOf, order[i]), stats[i]);
    }
    SumAlong(order, stats, longs, StatLong);
  }

  /* Context growth */

  /** What a growth is, multiplied out: from ten parsed turns with a positive earlier half on, late tokens times the
      earlier turns are the growth times early tokens times the later turns; it is zero otherwise. */
  ghost predicate IsGrowth(growth: real, stamps: seq<Stamp>) {
    var mid := |stamps| / 2;
    var early, late := Sum(stamps[..mid], Tok), Sum(stamps[mid..], Tok);
    if |stamps| >= 10 && early > 0 then growth * (early * (|stamps| - mid)) as real == (late * mid) as real
    else growth == 0.0
  }

  /** And it is two or more exactly when the later half averages at least double. */
  lemma {:induction false} GrowthMeans(stamps: seq<Stamp>)
    ensures IsGrowth(ContextGrowth(stamps), stamps)
    ensures ContextGrowth(stamps) >= 2.0 <==> StampsDouble(stamps)
  {
    if |stamps| >= 10 {
      var mid := |stamps| / 2;
      L.QuotientOfMeans(Sum(stamps[..mid], Tok), Sum(stamps[mid..], Tok), mid, |stamps| - mid);
    }
  }

  predicate StampsDouble(stamps: seq<Stamp>) {
    var mid := |stamps| / 2;
    |stamps| >= 10 && L.Doubles(Sum(stamps[..mid], Tok), Sum(stamps[mid..], Tok), mid, |stamps| - mid)
  }

  /** So the growth of every statistic is that of its session's parsed turns. */
  lemma {:induction false} StatGrowthMeans(an: Analyzer, sid: string, turns: seq<Event>, s: SessionStat)
    requires IsStat(an, sid, turns, s)
    ensures IsGrowth(s.contextGrowth, an.Stamps(turns))
    ensures IsBloatTrend(s) <==> StampsDouble(an.Stamps(turns))
  {
    TrendMeans(s, an.Stamps(turns));
  }

  lemma {:induction false} TrendMeans(s: SessionStat, stamps: seq<Stamp>)
    requires s.contextGrowth == ContextGrowth(stamps)
    ensures IsGrowth(s.contextGrowth, stamps)
    ensures IsBloatTrend(s) <==> StampsDouble(stamps)
  {
    GrowthMeans(stamps);
  }

  /** Every turn parses and is context only: no output, nothing put into the cache. */
  ghost predicate ContextOnly(parse: string -> Option<int>, events: seq<Event>) {
    forall e :: e in events ==> parse(e.ts).Some? && e.outputTokens == 0 && e.cacheCreationTokens == 0
  }

  lemma {:induction false} StampsAreContexts(an: Analyzer, turns: seq<Event>)
    requires ContextOnly(an.parse, turns)
    ensures |an.Stamps(turns)| == |turns|
    ensures Sum(an.Stamps(turns), Tok) == Sum(turns, L.ContextOf)
  {
    if turns == [] {
    } else {
      assert turns == Front(turns) + [Last(turns)];
      StampsAreContexts(an, Front(turns));
      assert Front(an.Stamps(turns)) == an.Stamps(Front(turns));
    }
  }

  lemma {:induction false} StampsAppend(an: Analyzer, xs: seq<Event>, ys: seq<Event>)
    ensures an.Stamps(xs + ys) == an.Stamps(xs) + an.Stamps(ys)
  {
    if ys == [] {
      assert xs + ys == xs;
    } else {
      assert Front(xs + ys) == xs + Front(ys);
      StampsAppend(an, xs, Front(ys));
    }
  }

  lemma {:induction false} HalvesOfStamps(an: Analyzer, turns: seq<Event>, mid: nat)
    requires ContextOnly(an.parse, turns) && mid <= |turns|
    ensures |an.Stamps(turns)| == |turns|
    ensures Sum(an.Stamps(turns)[..mid], Tok) == Sum(turns[..mid], L.ContextOf)
    ensures Sum(an.Stamps(turns)[mid..], Tok) == Sum(turns[mid..], L.ContextOf)
  {
    var early, late := turns[..mid], turns[mid..];
    assert turns == early + late;
    StampsAreContexts(an, early);
    StampsAreContexts(an, late);
    StampsAppend(an, early, late);
    assert an.Stamps(turns)[..mid] == an.Stamps(early) && an.Stamps(turns)[mid..] == an.Stamps(late);
  }

  lemma {:induction false} BloatAgrees(an: Analyzer, turns: seq<Event>)
    requires ContextOnly(an.parse, turns)
    ensures StampsDouble(an.Stamps(turns)) <==> L.ContextGrows(turns)
  {
    HalvesOfStamps(an, turns, |turns| / 2);
  }

  function StatBloat(s: SessionStat): int { if IsBloatTrend(s) then 1 else 0 }

  lemma {:induction false} BloatCount(stats: seq<SessionStat>)
    ensures Sum(stats, StatBloat) == |Filter(stats, IsBloatTrend)|
  {
    if stats == [] {
    } else {
      BloatCount(Front(stats));
    }
  }

  lemma {:induction false} BloatAlong(an: Analyzer, events: seq<Event>, stats: seq<SessionStat>)
    requires AreStats(an, events, stats) && ContextOnly(an.parse, events)
    ensures Sum(stats, StatBloat) == SumMap(GroupMap(events, SessionOf, E.IsBloated))
  {
    OrderCovers(events);
    var order, bloats := FirstSeen(events, SessionOf), GroupMap(events, SessionOf, E.IsBloated);
    forall i | 0 <= i < |order|
      ensures bloats[order[i]] == StatBloat(stats[i])
    {
      var turns := Select(events, SessionOf, order[i]);
      SelectMembers(events, SessionOf, order[i]);
      StatGrowthMeans(an, order[i], turns, stats[i]);
      BloatAgrees(an, turns);
      L.BloatedMeans(turns);
    }
    SumAlong(order, stats, bloats, StatBloat);
  }

  /** On logs of parsed turns that are context only, a session has a bloat trend exactly when its context grows as the
      engine's bloated sessions' do. */
  lemma {:induction false} SameBloatedSessions(an: Analyzer, events: seq<Event>, stats: seq<SessionStat>, i: nat)
    requires AreStats(an, events, stats) && ContextOnly(an.parse, events) && i < |stats|
    ensures IsBloatTrend(stats[i]) <==> stats[i].sessionId in L.SessionsWith(events, L.ContextGrows)
  {
    OrderCovers(events);
    var sid := FirstSeen(events, SessionOf)[i];
    var turns := Select(events, SessionOf, sid);
    SelectMembers(events, SessionOf, sid);
    StatGrowthMeans(an, sid, turns, stats[i]);
    BloatAgrees(an, turns);
  }

  /** So there are as many. */
  lemma {:induction false} BloatSessionsAgree(engine: E.Engine, an: Analyzer, events: seq<Event>,
                                              stats: seq<SessionStat>)
    requires AreStats(an, events, stats) && ContextOnly(an.parse, events)
    ensures |Filter(stats, IsBloatTrend)| == E.MetricsOf(engine, events).bloatSessions
  {
    var bloats := GroupMap(events, SessionOf, E.IsBloated);
    E.PartsAddUp(E.PerSession(engine, events, Keys(events, SessionOf)), bloats, L.BloatOf);
    BloatAlong(an, events, stats);
    BloatCount(stats);
    if events == [] {
      assert bloats.Keys == {};
    }
  }

  /** A gap of exactly five minutes is none, one of a nanosecond more is a cold restart, to both. */
  lemma {:induction false} FiveMinutesExactly(engine: E.Engine, a: Event, b: Event, t: int, tok: int)
    requires t != 0 && engine.Time(a) == t
    ensures engine.Time(b) == t + 300_000_000_000 ==> !engine.IsCold(a, b)
    ensures engine.Time(b) == t + 300_000_000_001 ==> engine.IsCold(a, b)
    ensures !Resumes(Stamp(t, tok), Stamp(t + 300_000_000_000, tok))
    ensures Resumes(Stamp(t, tok), Stamp(t + 300_000_000_001, tok))
  {
  }

  /** On logs that both read alike, with turns that have no instant or without, the engine's cold-restart tokens
      are within the analyzer's. */
  lemma {:induction false} ColdTokensAgree(engine: E.Engine, an: Analyzer, events: seq<Event>, stats: seq<SessionStat>)
    requires AreStats(an, events, stats) && an.parse == engine.parse
    requires AllReadAlike(an.parse, events) && NoInstantBeforeZero(an.parse, events) && NonNegative(events)
    ensures E.MetricsOf(engine, events).coldRestartTokens <= Sum(stats, StatCold)
  {
    var mine, theirs := GroupMap(events, SessionOf, engine.ColdTokens), AnalyzerCold(an, events);
    E.PartsAddUp(E.PerSession(engine, events, Keys(events, SessionOf)), mine, ColdPart);
    ColdAlong(an, events, stats);
    forall s | s in mine
      ensures mine[s] <= theirs[s]
    {
      SelectMembers(events, SessionOf, s);
      ColdTokensCompare(engine, an, Select(events, SessionOf, s));
    }
    SumMapBounds(mine, theirs);
    if events == [] {
      assert theirs.Keys == {};
    }
  }

  function AnalyzerCold(an: Analyzer, events: seq<Event>): map<string, int> {
    map s | s in Keys(events, SessionOf) :: ColdTokens(an.Stamps(Select(events, SessionOf, s)))
  }

  lemma {:induction false} ColdAlong(an: Analyzer, events: seq<Event>, stats: seq<SessionStat>)
    requires AreStats(an, events, stats)
    ensures Sum(stats, StatCold) == SumMap(AnalyzerCold(an, events))
  {
    OrderCovers(events);
    SumAlong(FirstSeen(events, SessionOf), stats, AnalyzerCold(an, events), StatCold);
  }

  function TurnAt(ts: string): Event {
    Event("codex", "s", ts, "p", "", "m", [], Coding, ts, 1, 0, 0, 0, false)
  }

  /** A turn whose timestamp does not parse makes them differ: the engine forgets the session's last instant,
      the analyzer keeps it. */
  lemma {:induction false} UnparsedTurnsDiffer(pricing: PricingService, parse: string -> Option<int>)
    requires parse("aZ") == Some(1) && parse("?Z") == None && parse("bZ") == Some(2 + COLD_RESTART_GAP)
    ensures
      var turns := [TurnAt("aZ"), TurnAt("?Z"), TurnAt("bZ")];
      && HidesColdRestart(Analyzer(pricing, parse), turns, 2)
      && E.Engine(pricing, parse).ColdTokens(turns) == 0
      && ColdTokens(Analyzer(pricing, parse).Stamps(turns)) == 1
  {
    var a, u, b := TurnAt("aZ"), TurnAt("?Z"), TurnAt("bZ");
    ZStampsAreReadAlike(parse, a);
    ZStampsAreReadAlike(parse, u);
    ZStampsAreReadAlike(parse, b);
    GapBehindUnparsed(E.Engine(pricing, parse), Analyzer(pricing, parse), a, u, b);
  }

  lemma {:induction false} GapBehindUnparsed(engine: E.Engine, an: Analyzer, a: Event, u: Event, b: Event)
    requires an.parse == engine.parse
    requires ReadAlike(an.parse, a) && ReadAlike(an.parse, u) && ReadAlike(an.parse, b)
    requires an.parse(a.ts).Some? && an.parse(u.ts).None? && an.parse(b.ts).Some?
    requires an.parse(a.ts).value > 0 && an.parse(b.ts).value - an.parse(a.ts).value > COLD_RESTART_GAP
    ensures HidesColdRestart(an, [a, u, b], 2)
    ensures engine.ColdTokens([a, u, b]) == 0 && ColdTokens(an.Stamps([a, u, b])) == AllTokens(b)
  {
    TwoTurns(engine, an, a, u);
    assert [a, u, b] == [a, u] + [b] && [a, u, b][..2] == [a, u];
    FlagsAreCounted(engine, an, [a, u], b);
  }

  lemma {:induction false} TwoTurns(engine: E.Engine, an: Analyzer, a: Event, b: Event)
    ensures engine.ColdTokens([a, b]) == if engine.IsCold(a, b) then b.inputTokens else 0
    ensures an.Stamps([a]) == if an.parse(a.ts).Some? then [Stamp(an.parse(a.ts).value, AllTokens(a))] else []
    ensures an.Stamps([a, b])
         == an.Stamps([a]) + if an.parse(b.ts).Some? then [Stamp(an.parse(b.ts).value, AllTokens(b))] else []
    ensures ColdTokens(an.Stamps([a, b]))
         == if an.parse(a.ts).Some? && an.parse(b.ts).Some?
              && Resumes(Last(an.Stamps([a])), Last(an.Stamps([a, b]))) then AllTokens(b) else 0
  {
    assert Front([a]) == [] && Front([a, b]) == [a] && Last([a, b]) == b;
    assert an.Stamps([]) == [];
    var stamps := an.Stamps([a, b]);
    assert |stamps| == 2 ==> Front(stamps) == an.Stamps([a]);
  }

  /** Timestamps with an offset, which the Claude Code reader keeps as they are: the engine's Z makes them unreadable
      to it, so that it sees no cold restart where the analyzer sees one, though every one of them parses. */
  lemma {:induction false} OffsetStampsDiffer(pricing: PricingService, parse: string -> Option<int>)
    requires parse("a+02:00") == Some(1) && parse("b+02:00") == Some(2 + COLD_RESTART_GAP)
    requires parse("a+02:00Z") == None && parse("b+02:00Z") == None
    ensures
      var turns := [TurnAt("a+02:00"), TurnAt("b+02:00")];
      && E.Engine(pricing, parse).ColdTokens(turns) == 0
      && ColdTokens(Analyzer(pricing, parse).Stamps(turns)) == 1
  {
    var engine := E.Engine(pricing, parse);
    var a, b := TurnAt("a+02:00"), TurnAt("b+02:00");
    assert E.TrimZ("a+02:00") == "a+02:00" && E.TrimZ("b+02:00") == "b+02:00";
    TwoTurns(engine, Analyzer(pricing, parse), a, b);
    assert "a+02:00" + "Z" == "a+02:00Z";
    assert engine.Time(a) == 0;
  }

  /** Timestamps without a zone: only the engine's Z makes them readable, and it alone sees the cold restart. */
  lemma {:induction false} ZonelessStampsDiffer(pricing: PricingService, parse: string -> Option<int>)
    requires parse("aZ") == Some(1) && parse("bZ") == Some(2 + COLD_RESTART_GAP)
    requires parse("a") == None && parse("b") == None
    ensures
      var turns := [TurnAt("a"), TurnAt("b")];
      && E.Engine(pricing, parse).ColdTokens(turns) == 1
      && ColdTokens(Analyzer(pricing, parse).Stamps(turns)) == 0
  {
    var engine := E.Engine(pricing, parse);
    var a, b := TurnAt("a"), TurnAt("b");
    assert E.TrimZ("a") == "a" && E.TrimZ("b") == "b" && "a" + "Z" == "aZ" && "b" + "Z" == "bZ";
    TwoTurns(engine, Analyzer(pricing, parse), a, b);
  }
}
