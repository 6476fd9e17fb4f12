/** Per-session behaviour: a second, independent reading of the same log, and the top lists made from it. */
module SessionAnalyzer {
  import opened Wrappers
  import opened GoArithmetic
  import opened Grouping
  import opened MapSums
  import opened Sorting
  import opened Usage
  import opened Pricing

  const COLD_RESTART_GAP := 300_000_000_000
  const MINUTE := 60_000_000_000
  const BLOAT_MIN_TURNS := 10
  const BLOAT_GROWTH_RATIO := 2.0
  const TOP_N := 8

  datatype SessionStat = SessionStat(
    sessionId: string,
    project: string,
    source: string,
    turns: nat,
    spendTokens: int,
    costUsd: real,
    errorTurns: int,
    fixIterations: nat,
    avgContextTokens: int,
    contextGrowth: real,
    coldRestartTurns: nat,
    coldRestartTokens: int,
    durationMin: int,
    dominant: Activity
  )

  /** A turn whose timestamp parsed. */
  datatype Stamp = Stamp(ts: int, tok: int)

  function Tok(s: Stamp): int { s.tok }

  function IsErrorTurn(e: Event): int { if e.isError then 1 else 0 }

  function One(e: Event): int { 1 }

  datatype Analyzer = Analyzer(pricing: PricingService, parse: string -> Option<int>) {
    /** The turns that have an instant, with everything they used. */
    function Stamps(turns: seq<Event>): seq<Stamp> {
      if turns == [] then []
      else
        match parse(Last(turns).ts)
        case None => Stamps(Front(turns))
        case Some(t) => Stamps(Front(turns)) + [Stamp(t, AllTokens(Last(turns)))]
    }
  }

  predicate Resumes(previous: Stamp, s: Stamp) {
    previous.ts != 0 && s.ts - previous.ts > COLD_RESTART_GAP
  }

  function ColdTurns(stamps: seq<Stamp>): nat {
    if |stamps| < 2 then 0
    else ColdTurns(Front(stamps)) + if Resumes(stamps[|stamps| - 2], Last(stamps)) then 1 else 0
  }

  function ColdTokens(stamps: seq<Stamp>): int {
    if |stamps| < 2 then 0
    else ColdTokens(Front(stamps)) + if Resumes(stamps[|stamps| - 2], Last(stamps)) then Last(stamps).tok else 0
  }

  /** Testing directly followed by coding. */
  function FixIterations(turns: seq<Event>): nat {
    if |turns| < 2 then 0
    else
      FixIterations(Front(turns)) +
      if turns[|turns| - 2].activity == Testing && Last(turns).activity == Coding then 1 else 0
  }

  function ContextGrowth(stamps: seq<Stamp>): real {
    if |stamps| < BLOAT_MIN_TURNS then 0.0
    else
      var mid := |stamps| / 2;
      var early := Sum(stamps[..mid], Tok) as real / mid as real;
      var late := Sum(stamps[mid..], Tok) as real / (|stamps| - mid) as real;
      if early > 0.0 then late / early else 0.0
  }

  function DurationMin(stamps: seq<Stamp>): int {
    if |stamps| < 2 then 0 else TruncDiv(Last(stamps).ts - stamps[0].ts, MINUTE)
  }

  function Count(turns: seq<Event>, a: Activity): int {
    Sum(Select(turns, ActivityOf, a), One)
  }

  /** One of the most frequent activities; the iteration order of the map decides between equals. */
  ghost predicate IsDominant(turns: seq<Event>, a: Activity) {
    Count(turns, a) > 0 && forall b :: Count(turns, b) <= Count(turns, a)
  }

  ghost predicate IsStat(an: Analyzer, sid: string, turns: seq<Event>, s: SessionStat) {
    && turns != []
    && s.sessionId == sid && s.project == turns[0].project && s.source == turns[0].source
    && s.turns == |turns|
    && s.spendTokens == Sum(turns, AllTokens)
    && s.costUsd == SumReal(turns, an.pricing.Usd)
    && s.errorTurns == Sum(turns, IsErrorTurn)
    && s.fixIterations == FixIterations(turns)
    && s.avgContextTokens == TruncDiv(s.spendTokens, |turns|)
    && s.contextGrowth == ContextGrowth(an.Stamps(turns))
    && s.coldRestartTurns == ColdTurns(an.Stamps(turns))
    && s.coldRestartTokens == ColdTokens(an.Stamps(turns))
    && s.durationMin == DurationMin(an.Stamps(turns))
    && IsDominant(turns, s.dominant)
  }

  /** One stat per session, in the order the sessions first occur. */
  ghost predicate AreStats(an: Analyzer, events: seq<Event>, stats: seq<SessionStat>) {
    var order := FirstSeen(events, SessionOf);
    && |stats| == |order|
    && forall i :: 0 <= i < |order| ==> IsStat(an, order[i], Select(events, SessionOf, order[i]), stats[i])
  }

  /* Grouping */

  datatype Accum = Accum(project: string, source: string, turns: seq<Event>, actCounts: map<Activity, int>)

  const NO_TURNS := Accum("", "", [], map[])

  function AccumOf(turns: seq<Event>): Accum {
    if turns == [] then NO_TURNS
    else Accum(turns[0].project, turns[0].source, turns, GroupTotals(turns, ActivityOf, One))
  }

  method AddTurn(acc: Accum, e: Event, ghost turns: seq<Event>) returns (acc': Accum)
    requires acc == if turns == [] then Accum(e.project, e.source, [], map[]) else AccumOf(turns)
    ensures acc' == AccumOf(turns + [e])
  {
    GroupTotalsStep(turns, e, ActivityOf, One);
    assert turns == [] ==> GroupTotals(turns, ActivityOf, One) == map[];
    acc' := acc.(turns := acc.turns + [e], actCounts := Add(acc.actCounts, e.activity, 1));
  }

  method GroupBySession(events: seq<Event>) returns (sessions: map<string, Accum>, order: seq<string>)
    ensures sessions == GroupMap(events, SessionOf, AccumOf)
    ensures order == FirstSeen(events, SessionOf)
  {
    sessions, order := map[], [];
    for i := 0 to |events|
      invariant sessions == GroupMap(events[..i], SessionOf, AccumOf)
      invariant order == FirstSeen(events[..i], SessionOf)
    {
      Snoc(events, i);
      var e := events[i];
      KeyOccurs(events[..i], SessionOf, e.sessionId);
      FirstSeenHas(events[..i], SessionOf, e.sessionId);
      var acc := Accum(e.project, e.source, [], map[]);
      if e.sessionId in sessions {
        acc := sessions[e.sessionId];
      } else {
        order := order + [e.sessionId];
      }
      acc := AddTurn(acc, e, Select(events[..i], SessionOf, e.sessionId));
      GroupMapStep(events[..i], e, SessionOf, AccumOf);
      sessions := sessions[e.sessionId := acc];
    }
    assert events[..|events|] == events;
  }

  method ComputeSessionStats(an: Analyzer, events: seq<Event>) returns (stats: seq<SessionStat>)
    ensures AreStats(an, events, stats)
  {
    var sessions, order := GroupBySession(events);
    stats := [];
    for i := 0 to |order|
      invariant |stats| == i
      invariant forall k :: 0 <= k < i ==> IsStat(an, order[k], Select(events, SessionOf, order[k]), stats[k])
    {
      FirstSeenHas(events, SessionOf, order[i]);
      KeyOccurs(events, SessionOf, order[i]);
      var stat := BuildStat(an, order[i], sessions[order[i]], Select(events, SessionOf, order[i]));
      stats := stats + [stat];
    }
  }

  method BuildStat(an: Analyzer, sid: string, acc: Accum, ghost grouped: seq<Event>) returns (stat: SessionStat)
    requires grouped != [] && acc == AccumOf(grouped)
    ensures IsStat(an, sid, grouped, stat)
  {
    var turns := acc.turns;
    var spendTok, errTurns, fixIter, totalCost := ScanTurns(an, turns);
    var tsSlice, coldTurns, coldTok := ScanStamps(an, turns);
    var growth := Growth(tsSlice);
    var dominant := Dominant(acc.actCounts, turns);
    stat := SessionStat(sid, acc.project, acc.source, |turns|, spendTok, totalCost, errTurns, fixIter,
                        TruncDiv(spendTok, |turns|), growth, coldTurns, coldTok, DurationMin(tsSlice), dominant);
  }

  /** The loop over the turns, as far as it does not need their instants. */
  method ScanTurns(an: Analyzer, turns: seq<Event>)
    returns (spendTok: int, errTurns: int, fixIter: nat, totalCost: real)
    ensures spendTok == Sum(turns, AllTokens)
    ensures errTurns == Sum(turns, IsErrorTurn)
    ensures fixIter == FixIterations(turns)
    ensures totalCost == SumReal(turns, an.pricing.Usd)
  {
    spendTok, errTurns, fixIter, totalCost := 0, 0, 0, 0.0;
    var prevActivity := OtherActivity("");
    for i := 0 to |turns|
      invariant spendTok == Sum(turns[..i], AllTokens)
      invariant errTurns == Sum(turns[..i], IsErrorTurn)
      invariant fixIter == FixIterations(turns[..i])
      invariant totalCost == SumReal(turns[..i], an.pricing.Usd)
      invariant prevActivity == if i == 0 then OtherActivity("") else turns[i - 1].activity
    {
      Snoc(turns, i);
      var e := turns[i];
      spendTok := spendTok + e.inputTokens + e.outputTokens + e.cacheReadTokens + e.cacheCreationTokens;
      var cost := an.pricing.CostOf(e.model, e.inputTokens, e.outputTokens, e.cacheReadTokens, e.cacheCreationTokens);
      totalCost := totalCost + cost.usd;
      if e.isError {
        errTurns := errTurns + 1;
      }
      if prevActivity == Testing && e.activity == Coding {
        fixIter := fixIter + 1;
      }
      prevActivity := e.activity;
    }
    assert turns[..|turns|] == turns;
  }

  /** The loop over the turns, as far as it needs their instants; the zero time stands for no turn yet. */
  method ScanStamps(an: Analyzer, turns: seq<Event>) returns (tsSlice: seq<Stamp>, coldTurns: nat, coldTok: int)
    ensures tsSlice == an.Stamps(turns)
    ensures coldTurns == ColdTurns(tsSlice)
    ensures coldTok == ColdTokens(tsSlice)
  {
    tsSlice, coldTurns, coldTok := [], 0, 0;
    var prevTime := 0;
    for i := 0 to |turns|
      invariant tsSlice == an.Stamps(turns[..i])
      invariant coldTurns == ColdTurns(tsSlice) && coldTok == ColdTokens(tsSlice)
      invariant prevTime == if tsSlice == [] then 0 else Last(tsSlice).ts
    {
      Snoc(turns, i);
      var tok := AllTokens(turns[i]);
      var t := an.parse(turns[i].ts);
      if t.Some? {
        if prevTime != 0 && t.value - prevTime > COLD_RESTART_GAP {
          coldTurns := coldTurns + 1;
          coldTok := coldTok + tok;
        }
        prevTime := t.value;
        ghost var before := tsSlice;
        tsSlice := tsSlice + [Stamp(t.value, tok)];
        assert Front(tsSlice) == before;
      }
    }
    assert turns[..|turns|] == turns;
  }

  method SumTok(stamps: seq<Stamp>) returns (sum: int)
    ensures sum == Sum(stamps, Tok)
  {
    sum := 0;
    for i := 0 to |stamps|
      invariant sum == Sum(stamps[..i], Tok)
    {
      Snoc(stamps, i);
      sum := sum + stamps[i].tok;
    }
    assert stamps[..|stamps|] == stamps;
  }

  method Growth(tsSlice: seq<Stamp>) returns (growth: real)
    ensures growth == ContextGrowth(tsSlice)
  {
    growth := 0.0;
    if |tsSlice| >= BLOAT_MIN_TURNS {
      var mid := |tsSlice| / 2;
      var earlySum := SumTok(tsSlice[..mid]);
      var lateSum := SumTok(tsSlice[mid..]);
      var earlyAvg := earlySum as real / mid as real;
      var lateAvg := lateSum as real / (|tsSlice| - mid) as real;
      if earlyAvg > 0.0 {
        growth := lateAvg / earlyAvg;
      }
    }
  }

  /** The running best over the counts, visited in any order. */
  method Dominant(actCounts: map<Activity, int>, ghost turns: seq<Event>) returns (dominant: Activity)
    requires turns != [] && actCounts == GroupTotals(turns, ActivityOf, One)
    ensures IsDominant(turns, dominant)
  {
    dominant := Exploration;
    var maxCount := 0;
    var todo := actCounts.Keys;
    while todo != {}
      invariant todo <= actCounts.Keys
      invariant maxCount > 0 ==> dominant in actCounts && actCounts[dominant] == maxCount
      invariant forall a :: a in actCounts.Keys - todo ==> actCounts[a] <= maxCount
      decreases |todo|
    {
      var act :| act in todo;
      if actCounts[act] > maxCount {
        maxCount := actCounts[act];
        dominant := act;
      }
      todo := todo - {act};
    }
    CountsArePositive(turns);
    assert ActivityOf(Last(turns)) in actCounts;
    forall b: Activity
      ensures Count(turns, b) <= Count(turns, dominant)
    {
      if b in actCounts {
        assert b in actCounts.Keys - todo;
        assert actCounts[b] == Count(turns, b);
      }
    }
  }

  lemma {:induction false} CountIsLength(turns: seq<Event>)
    ensures Sum(turns, One) == |turns|
  {
    if turns == [] {
    } else {
      CountIsLength(Front(turns));
    }
  }

  lemma {:induction false} CountsArePositive(turns: seq<Event>)
    ensures forall a :: a in Keys(turns, ActivityOf) ==> Count(turns, a) > 0
    ensures forall a :: a !in Keys(turns, ActivityOf) ==> Count(turns, a) == 0
  {
    forall a: Activity
      ensures a in Keys(turns, ActivityOf) ==> Count(turns, a) > 0
      ensures a !in Keys(turns, ActivityOf) ==> Count(turns, a) == 0
    {
      KeyOccurs(turns, ActivityOf, a);
      CountIsLength(Select(turns, ActivityOf, a));
    }
  }

  /* Bounds */

  lemma {:induction false} FixIterationsBound(turns: seq<Event>)
    ensures 2 * FixIterations(turns) <= |turns|
    ensures turns != [] && Last(turns).activity == Testing ==> 2 * FixIterations(turns) + 1 <= |turns|
  {
    if |turns| >= 2 {
      FixIterationsBound(Front(turns));
      if Last(turns).activity == Coding && turns[|turns| - 2].activity == Testing {
        assert Last(Front(turns)) == turns[|turns| - 2];
      }
    }
  }

  lemma {:induction false} ColdTurnsBound(stamps: seq<Stamp>)
    ensures ColdTurns(stamps) <= if stamps == [] then 0 else |stamps| - 1
  {
    if |stamps| >= 2 {
      ColdTurnsBound(Front(stamps));
    }
  }

  lemma {:induction false} StampsBound(an: Analyzer, turns: seq<Event>)
    ensures |an.Stamps(turns)| <= |turns|
  {
    if turns == [] {
    } else {
      StampsBound(an, Front(turns));
    }
  }

  /** Fix iterations are at most half the turns; a first turn is never a cold restart. */
  lemma {:induction false} StatBounds(an: Analyzer, sid: string, turns: seq<Event>, s: SessionStat)
    requires IsStat(an, sid, turns, s)
    ensures 2 * s.fixIterations <= s.turns
    ensures s.coldRestartTurns <= s.turns - 1
  {
    FixIterationsBound(turns);
    ColdTurnsBound(an.Stamps(turns));
    StampsBound(an, turns);
  }

  /* Top lists */

  datatype DeepAnalysis = DeepAnalysis(
    expensiveSessions: seq<SessionStat>,
    fixLoopSessions: seq<SessionStat>,
    contextHeavySessions: seq<SessionStat>,
    bloatTrendSessions: seq<SessionStat>,
    coldRestartSessions: seq<SessionStat>
  )

  predicate Any(s: SessionStat) { true }

  predicate IsFixLoop(s: SessionStat) { s.fixIterations >= 2 }

  predicate IsContextHeavy(s: SessionStat) { s.turns >= 10 }

  predicate IsBloatTrend(s: SessionStat) { s.contextGrowth >= BLOAT_GROWTH_RATIO }

  predicate IsColdRestart(s: SessionStat) { s.coldRestartTurns > 0 }

  function BySpend(s: SessionStat): real { s.spendTokens as real }

  function ByFix(s: SessionStat): real { s.fixIterations as real }

  function ByContext(s: SessionStat): real { s.avgContextTokens as real }

  function ByGrowth(s: SessionStat): real { s.contextGrowth }

  function ByCold(s: SessionStat): real { s.coldRestartTokens as real }

  function Filter(stats: seq<SessionStat>, qualifies: SessionStat -> bool): seq<SessionStat> {
    if stats == [] then []
    else if qualifies(Last(stats)) then Filter(Front(stats), qualifies) + [Last(stats)]
    else Filter(Front(stats), qualifies)
  }

  function Descending(rank: SessionStat -> real): (SessionStat, SessionStat) -> bool {
    (a: SessionStat, b: SessionStat) => rank(a) >= rank(b)
  }

  /** The first eight, at most, of the qualifying stats by rank. */
  ghost predicate IsTop(stats: seq<SessionStat>, qualifies: SessionStat -> bool, rank: SessionStat -> real,
                        top: seq<SessionStat>) {
    exists omitted :: IsTopWithout(stats, qualifies, rank, top, omitted)
  }

  /** `omitted` are the qualifying stats that are not listed. */
  ghost predicate IsTopWithout(stats: seq<SessionStat>, qualifies: SessionStat -> bool, rank: SessionStat -> real,
                               top: seq<SessionStat>, omitted: seq<SessionStat>) {
    var qualifying := Filter(stats, qualifies);
    && multiset(top) + multiset(omitted) == multiset(qualifying)
    && |top| == (if |qualifying| < TOP_N then |qualifying| else TOP_N)
    && (forall i, j :: 0 <= i < j < |top| ==> rank(top[i]) >= rank(top[j]))
    && (forall i, j :: 0 <= i < |top| && 0 <= j < |omitted| ==> rank(top[i]) >= rank(omitted[j]))
  }

  method Top(stats: seq<SessionStat>, qualifies: SessionStat -> bool, rank: SessionStat -> real)
    returns (top: seq<SessionStat>)
    ensures IsTop(stats, qualifies, rank, top)
  {
    var filtered: seq<SessionStat> := [];
    for i := 0 to |stats|
      invariant filtered == Filter(stats[..i], qualifies)
    {
      Snoc(stats, i);
      if qualifies(stats[i]) {
        filtered := filtered + [stats[i]];
      }
    }
    assert stats[..|stats|] == stats;
    var sorted := Sort(filtered, Descending(rank));
    assert |sorted| == |multiset(sorted)| == |multiset(filtered)| == |filtered|;
    assert forall i, j :: 0 <= i < j < |sorted| ==> Descending(rank)(sorted[i], sorted[j]);
    top := sorted;
    ghost var omitted: seq<SessionStat> := [];
    if |sorted| > TOP_N {
      top, omitted := sorted[..TOP_N], sorted[TOP_N..];
      assert sorted == top + omitted;
    }
    assert IsTopWithout(stats, qualifies, rank, top, omitted);
  }

  ghost predicate AreTopLists(stats: seq<SessionStat>, d: DeepAnalysis) {
    && IsTop(stats, Any, BySpend, d.expensiveSessions)
    && IsTop(stats, IsFixLoop, ByFix, d.fixLoopSessions)
    && IsTop(stats, IsContextHeavy, ByContext, d.contextHeavySessions)
    && IsTop(stats, IsBloatTrend, ByGrowth, d.bloatTrendSessions)
    && IsTop(stats, IsColdRestart, ByCold, d.coldRestartSessions)
  }

  method DeepAnalyze(an: Analyzer, events: seq<Event>) returns (d: DeepAnalysis)
    ensures exists stats :: AreStats(an, events, stats) && AreTopLists(stats, d)
  {
    var stats := ComputeSessionStats(an, events);
    var expensive := Top(stats, Any, BySpend);
    var fixLoop := Top(stats, IsFixLoop, ByFix);
    var contextHeavy := Top(stats, IsContextHeavy, ByContext);
    var bloatTrend := Top(stats, IsBloatTrend, ByGrowth);
    var coldRestart := Top(stats, IsColdRestart, ByCold);
    d := DeepAnalysis(expensive, fixLoop, contextHeavy, bloatTrend, coldRestart);
  }

  /* What the numbers and lists are */

  /** A fix iteration is a coding turn right after a testing one. */
  lemma {:induction false} FixIterationsCount(before: seq<Event>, a: Event, b: Event)
    ensures FixIterations([a]) == 0
    ensures FixIterations(before + [a] + [b])
         == FixIterations(before + [a]) + if b.activity == Coding && a.activity == Testing then 1 else 0
  {
    assert Front(before + [a] + [b]) == before + [a];
  }

  /** The places of the turns that are errors. */
  function ErrorPlaces(turns: seq<Event>): set<int> {
    set i | 0 <= i < |turns| && turns[i].isError
  }

  lemma {:induction false} ErrorPlacesSnoc(before: seq<Event>, e: Event)
    ensures ErrorPlaces(before + [e]) == if e.isError then ErrorPlaces(before) + {|before|} else ErrorPlaces(before)
    ensures |before| !in ErrorPlaces(before)
  {
    assert forall i :: 0 <= i < |before| ==> (before + [e])[i] == before[i];
  }

  lemma {:induction false} ErrorTurnsCount(turns: seq<Event>)
    ensures Sum(turns, IsErrorTurn) == |ErrorPlaces(turns)|
  {
    if turns == [] {
      assert ErrorPlaces(turns) == {};
    } else {
      assert turns == Front(turns) + [Last(turns)];
      ErrorTurnsCount(Front(turns));
      ErrorPlacesSnoc(Front(turns), Last(turns));
    }
  }

  lemma {:induction false} TruncDivMeans(a: int, b: int)
    requires b > 0
    ensures a >= 0 ==> TruncDiv(a, b) * b <= a < (TruncDiv(a, b) + 1) * b
    ensures a <= 0 ==> (TruncDiv(a, b) - 1) * b < a <= TruncDiv(a, b) * b
  {
  }

  /** The counts of a session: the duration is the whole minutes from the first parsed turn to the last, the average
      the whole tokens a turn. */
  lemma {:induction false} StatMeans(an: Analyzer, sid: string, turns: seq<Event>, s: SessionStat)
    requires IsStat(an, sid, turns, s)
    ensures turns != [] && s.sessionId == sid && s.turns == |turns|
    ensures s.project == turns[0].project && s.source == turns[0].source
    ensures s.errorTurns == |ErrorPlaces(turns)|
    ensures s.spendTokens >= 0 ==> s.avgContextTokens * s.turns <= s.spendTokens < (s.avgContextTokens + 1) * s.turns
    ensures
      var stamps := an.Stamps(turns);
      if |stamps| < 2 then s.durationMin == 0
      else
        var span := stamps[|stamps| - 1].ts - stamps[0].ts;
        span >= 0 ==> s.durationMin * 60_000_000_000 <= span < (s.durationMin + 1) * 60_000_000_000
  {
    ErrorTurnsCount(turns);
    TruncDivMeans(s.spendTokens, |turns|);
    var stamps := an.Stamps(turns);
    if |stamps| >= 2 {
      TruncDivMeans(Last(stamps).ts - stamps[0].ts, MINUTE);
    }
  }

  lemma {:induction false} FilterMembers(stats: seq<SessionStat>, qualifies: SessionStat -> bool)
    ensures forall s :: s in Filter(stats, qualifies) <==> s in stats && qualifies(s)
  {
    if stats == [] {
    } else {
      assert stats == Front(stats) + [Last(stats)];
      FilterMembers(Front(stats), qualifies);
    }
  }

  /** Every listed session qualifies, they come in order, and one that qualifies and is not listed found the list full
      of sessions that rank at least as high. */
  ghost predicate IsTopList(stats: seq<SessionStat>, qualifies: SessionStat -> bool, rank: SessionStat -> real,
                            top: seq<SessionStat>) {
    && |top| <= 8
    && (forall s :: s in top ==> s in stats && qualifies(s))
    && (forall i, j :: 0 <= i < j < |top| ==> rank(top[j]) <= rank(top[i]))
    && (forall s :: s in stats && qualifies(s) && s !in top ==>
          |top| == 8 && forall i :: 0 <= i < |top| ==> rank(s) <= rank(top[i]))
  }

  lemma {:induction false} TopMeans(stats: seq<SessionStat>, qualifies: SessionStat -> bool, rank: SessionStat -> real,
                                    top: seq<SessionStat>)
    requires IsTop(stats, qualifies, rank, top)
    ensures IsTopList(stats, qualifies, rank, top)
  {
    var omitted :| IsTopWithout(stats, qualifies, rank, top, omitted);
    FilterMembers(stats, qualifies);
    var qualifying := Filter(stats, qualifies);
    SameMembers(qualifying, top + omitted);
    assert |qualifying| == |multiset(qualifying)| == |multiset(top + omitted)| == |top| + |omitted|;
    forall s | s in qualifying && s !in top
      ensures |top| == 8 && forall i :: 0 <= i < |top| ==> rank(s) <= rank(top[i])
    {
      assert s in top + omitted;
      var j :| 0 <= j < |omitted| && omitted[j] == s;
    }
  }

  /** The five lists, by the fields they are about. */
  lemma {:induction false} TopListsMean(stats: seq<SessionStat>, d: DeepAnalysis)
    requires AreTopLists(stats, d)
    ensures IsTopList(stats, (s: SessionStat) => true, (s: SessionStat) => s.spendTokens as real, d.expensiveSessions)
    ensures IsTopList(stats, (s: SessionStat) => s.fixIterations > 1, (s: SessionStat) => s.fixIterations as real,
                      d.fixLoopSessions)
    ensures IsTopList(stats, (s: SessionStat) => s.turns > 9, (s: SessionStat) => s.avgContextTokens as real,
                      d.contextHeavySessions)
    ensures IsTopList(stats, (s: SessionStat) => s.contextGrowth >= 2.0, (s: SessionStat) => s.contextGrowth,
                      d.bloatTrendSessions)
    ensures IsTopList(stats, (s: SessionStat) => s.coldRestartTurns > 0,
                      (s: SessionStat) => s.coldRestartTokens as real, d.coldRestartSessions)
  {
    TopBy(stats, Any, BySpend, (s: SessionStat) => true, (s: SessionStat) => s.spendTokens as real,
          d.expensiveSessions);
    TopBy(stats, IsFixLoop, ByFix, (s: SessionStat) => s.fixIterations > 1,
          (s: SessionStat) => s.fixIterations as real, d.fixLoopSessions);
    TopBy(stats, IsContextHeavy, ByContext, (s: SessionStat) => s.turns > 9,
          (s: SessionStat) => s.avgContextTokens as real, d.contextHeavySessions);
    TopBy(stats, IsBloatTrend, ByGrowth, (s: SessionStat) => s.contextGrowth >= 2.0,
          (s: SessionStat) => s.contextGrowth, d.bloatTrendSessions);
    TopBy(stats, IsColdRestart, ByCold, (s: SessionStat) => s.coldRestartTurns > 0,
          (s: SessionStat) => s.coldRestartTokens as real, d.coldRestartSessions);
  }

  lemma {:induction false} TopBy(stats: seq<SessionStat>, qualifies: SessionStat -> bool, rank: SessionStat -> real,
                                 says: SessionStat -> bool, value: SessionStat -> real, top: seq<SessionStat>)
    requires IsTop(stats, qualifies, rank, top)
    requires forall s :: qualifies(s) == says(s) && rank(s) == value(s)
    ensures IsTopList(stats, says, value, top)
  {
    TopMeans(stats, qualifies, rank, top);
    assert forall s :: s in top ==> says(s) == qualifies(s);
  }
}
