/** The metrics of a log. The specification groups the log by session and looks at neighbouring turns;
    the engine streams over the interleaved log with one small state per session. */
module MetricsEngine {
  import opened Wrappers
  import opened Grouping
  import opened MapSums
  import opened Usage
  import opened Pricing

  const BLOAT_MIN_TURNS := 10
  const BLOAT_GROWTH_RATIO := 2.0
  /** Five minutes, in nanoseconds. */
  const COLD_RESTART_GAP := 300_000_000_000

  datatype ActivityBreakdown = ActivityBreakdown(activity: Activity, tokens: int, share: real, costUsd: real)

  datatype ModelBreakdown = ModelBreakdown(model: string, tokens: int, share: real, costUsd: real)

  datatype Metrics = Metrics(
    events: int,
    sessions: int,
    spendTokens: int,
    costUsd: real,
    costEstimated: bool,
    costUnpricedTokens: int,
    cacheHitRatio: real,
    reworkRatio: real,
    thinkToCodeRatio: real,
    contextBloatShare: real,
    coldRestartShare: real,
    premiumWasteShare: real,
    retryShare: real,
    byActivity: map<Activity, ActivityBreakdown>,
    byModel: map<string, ModelBreakdown>,
    cacheReadTokens: int,
    cacheCreationTokens: int,
    retryTokens: int,
    coldRestartTokens: int,
    bloatSessions: int,
    totalLongSessions: int
  )

  const NO_METRICS := Metrics(0, 0, 0, 0.0, false, 0, 0.0, 0.0, 0.0, 0.0, 0.0, 0.0, 0.0, map[], map[], 0, 0, 0, 0, 0, 0)

  function SafeDiv(a: real, b: real): real {
    if b == 0.0 then 0.0 else a / b
  }

  function Ratio(a: int, b: int): real {
    SafeDiv(a as real, b as real)
  }

  function Id(x: int): int { x }

  function Average(xs: seq<int>): real {
    if xs == [] then 0.0 else Sum(xs, Id) as real / |xs| as real
  }

  function TrimZ(ts: string): string {
    if ts != "" && Last(ts) == 'Z' then Front(ts) else ts
  }

  /** Instants are nanoseconds from Go's zero time, which an unparsable timestamp also yields.
      `parse` is time.Parse for RFC 3339. */
  datatype Engine = Engine(pricing: PricingService, parse: string -> Option<int>) {
    function Time(e: Event): int {
      parse(TrimZ(e.ts) + "Z").GetOr(0)
    }

    /** A turn that resumes its session more than five minutes after the turn before it. */
    predicate IsCold(previous: Event, e: Event) {
      Time(previous) != 0 && Time(e) - Time(previous) > COLD_RESTART_GAP
    }

    predicate IsPremiumWaste(e: Event) {
      && e.sessionId != ""
      && pricing.IsPremiumModel(e.model)
      && (e.activity == Exploration || e.activity == Conversation)
    }

    function PremiumTokens(e: Event): int {
      if IsPremiumWaste(e) then Spend(e) else 0
    }

    function IsEstimated(e: Event): bool {
      pricing.EventCost(e).estimated
    }

    predicate AnyEstimated(events: seq<Event>) {
      events != [] && (AnyEstimated(Front(events)) || IsEstimated(Last(events)))
    }

    /** The state of a session is what grouping its turns gives. */
    function StateOf(turns: seq<Event>): SessionState {
      SessionState(|turns|, Sum(turns, Spend), RetryTokens(turns), ColdTokens(turns), Contexts(turns),
                   if turns == [] then 0 else Time(Last(turns)), turns != [] && Last(turns).isError)
    }

    /** The input of the cold turns of one session. */
    function ColdTokens(turns: seq<Event>): int {
      if |turns| < 2 then 0
      else ColdTokens(Front(turns)) + if IsCold(turns[|turns| - 2], Last(turns)) then Last(turns).inputTokens else 0
    }
  }

  /** The spend of the turns of one session that follow an error and are none. */
  function RetryTokens(turns: seq<Event>): int {
    if |turns| < 2 then 0
    else
      RetryTokens(Front(turns)) +
      if turns[|turns| - 2].isError && !Last(turns).isError then Spend(Last(turns)) else 0
  }

  /** The context of each turn. */
  function Contexts(turns: seq<Event>): seq<int> {
    if turns == [] then [] else Contexts(Front(turns)) + [Last(turns).inputTokens + Last(turns).cacheReadTokens]
  }

  function IsLong(turns: seq<Event>): int {
    if |turns| >= BLOAT_MIN_TURNS then 1 else 0
  }

  predicate ContextDoubles(contexts: seq<int>) {
    var early, late := Average(contexts[..|contexts| / 2]), Average(contexts[|contexts| / 2..]);
    early > 0.0 && late / early >= BLOAT_GROWTH_RATIO
  }

  function IsBloated(turns: seq<Event>): int {
    if |turns| >= BLOAT_MIN_TURNS && ContextDoubles(Contexts(turns)) then 1 else 0
  }

  function GroupSpend<K(==)>(events: seq<Event>, key: Event -> K, k: K): int {
    Sum(Select(events, key, k), Spend)
  }

  function GroupCost<K(==)>(engine: Engine, events: seq<Event>, key: Event -> K, k: K): real {
    SumReal(Select(events, key, k), engine.pricing.Usd)
  }

  function ActivityBreakdownOf(engine: Engine, events: seq<Event>, a: Activity): ActivityBreakdown {
    var tokens := GroupSpend(events, ActivityOf, a);
    ActivityBreakdown(a, tokens, Ratio(tokens, Sum(events, Spend)), GroupCost(engine, events, ActivityOf, a))
  }

  function ModelBreakdownOf(engine: Engine, events: seq<Event>, m: string): ModelBreakdown {
    var tokens := GroupSpend(events, ModelOf, m);
    ModelBreakdown(m, tokens, Ratio(tokens, Sum(events, Spend)), GroupCost(engine, events, ModelOf, m))
  }

  function ActivityBreakdowns(engine: Engine, events: seq<Event>): map<Activity, ActivityBreakdown> {
    map a | a in ACTIVITIES :: ActivityBreakdownOf(engine, events, a)
  }

  function ModelBreakdowns(engine: Engine, events: seq<Event>): map<string, ModelBreakdown> {
    map m | m in Keys(events, ModelOf) :: ModelBreakdownOf(engine, events, m)
  }

  /** Totals over the whole log. */
  datatype Totals = Totals(
    events: nat,
    inputTokens: int,
    cacheReadTokens: int,
    cacheCreationTokens: int,
    costUsd: real,
    costEstimated: bool,
    costUnpricedTokens: int
  )

  ghost function TotalsOf(engine: Engine, events: seq<Event>): Totals {
    Totals(|events|, Sum(events, Input), Sum(events, CacheRead), Sum(events, CacheCreation),
           SumReal(events, engine.pricing.Usd), engine.AnyEstimated(events),
           Sum(events, engine.pricing.Unpriced))
  }

  /** What pass 2 derives for one session, and what it adds up over sessions. */
  datatype Derived = Derived(spend: int, retry: int, cold: int, bloat: int, long: int, premiumWaste: int) {
    function Plus(d: Derived): Derived {
      Derived(spend + d.spend, retry + d.retry, cold + d.cold, bloat + d.bloat, long + d.long,
              premiumWaste + d.premiumWaste)
    }
  }

  const NOTHING := Derived(0, 0, 0, 0, 0, 0)

  /** The premium spend is that of the whole log, whichever session it is derived for. */
  function DerivedOf(engine: Engine, events: seq<Event>, session: string): Derived {
    var turns := Select(events, SessionOf, session);
    Derived(Sum(turns, Spend), RetryTokens(turns), engine.ColdTokens(turns), IsBloated(turns), IsLong(turns),
            Sum(events, engine.PremiumTokens))
  }

  function PerSession(engine: Engine, events: seq<Event>, sessions: set<string>): map<string, Derived> {
    map s | s in sessions :: DerivedOf(engine, events, s)
  }

  ghost function SumDerived(m: map<string, Derived>): Derived {
    if m.Keys == {} then NOTHING
    else
      var k :| k in m.Keys;
      SumDerived(m - {k}).Plus(m[k])
  }

  lemma {:induction false} SumDerivedPick(m: map<string, Derived>, k: string)
    requires k in m
    ensures SumDerived(m) == SumDerived(m - {k}).Plus(m[k])
  {
    var p :| p in m.Keys && SumDerived(m) == SumDerived(m - {p}).Plus(m[p]);
    if p != k {
      SumDerivedPick(m - {p}, k);
      SumDerivedPick(m - {k}, p);
      assert m - {p} - {k} == m - {k} - {p};
      var rest := SumDerived(m - {p} - {k});
      assert SumDerived(m) == rest.Plus(m[k]).Plus(m[p]);
      assert SumDerived(m - {k}) == rest.Plus(m[p]);
    }
  }

  lemma {:induction false} SumDerivedInsert(m: map<string, Derived>, k: string, d: Derived)
    requires k !in m
    ensures SumDerived(m[k := d]) == SumDerived(m).Plus(d)
  {
    SumDerivedPick(m[k := d], k);
    assert m[k := d] - {k} == m;
  }

  lemma {:induction false} PerSessionAdd(engine: Engine, events: seq<Event>, sessions: set<string>, s: string)
    ensures PerSession(engine, events, sessions + {s})
         == PerSession(engine, events, sessions)[s := DerivedOf(engine, events, s)]
  {
  }

  ghost function DerivedTotal(engine: Engine, events: seq<Event>): Derived {
    SumDerived(PerSession(engine, events, Keys(events, SessionOf)))
  }

  /** The metrics from the totals. */
  function Summary(t: Totals, sessions: nat, d: Derived, think: int, code: int,
                   byActivity: map<Activity, ActivityBreakdown>, byModel: map<string, ModelBreakdown>): Metrics {
    Metrics(
      t.events, sessions, d.spend, t.costUsd, t.costEstimated, t.costUnpricedTokens,
      Ratio(t.cacheReadTokens, t.inputTokens + t.cacheReadTokens + t.cacheCreationTokens),
      Ratio(d.retry, d.spend),
      Ratio(think, think + code),
      Ratio(d.bloat, d.long),
      Ratio(d.cold, t.inputTokens),
      Ratio(d.premiumWaste, d.spend),
      Ratio(d.retry, d.spend),
      byActivity, byModel,
      t.cacheReadTokens, t.cacheCreationTokens, d.retry, d.cold, d.bloat, d.long)
  }

  /** What the metrics of a log are, by grouping it. */
  ghost function MetricsOf(engine: Engine, events: seq<Event>): Metrics {
    if events == [] then NO_METRICS
    else
      Summary(TotalsOf(engine, events), |Keys(events, SessionOf)|, DerivedTotal(engine, events),
              GroupSpend(events, ActivityOf, Thinking), GroupSpend(events, ActivityOf, Coding),
              ActivityBreakdowns(engine, events), ModelBreakdowns(engine, events))
  }

  /* The streaming engine */

  datatype SessionState = SessionState(
    turns: nat,
    spendTokens: int,
    retryTokens: int,
    coldRestartTokens: int,
    contextPerTurn: seq<int>,
    lastTs: int,
    hasError: bool
  )

  const NEW_SESSION := SessionState(0, 0, 0, 0, [], 0, false)

  function StatesOf(engine: Engine, events: seq<Event>): map<string, SessionState> {
    GroupMap(events, SessionOf, engine.StateOf)
  }

  /** One more turn of a session. */
  method Accumulate(engine: Engine, state: SessionState, ev: Event, ghost turns: seq<Event>) returns (ss: SessionState)
    requires state == engine.StateOf(turns)
    ensures ss == engine.StateOf(turns + [ev])
  {
    ss := state;
    assert Front(turns + [ev]) == turns;
    assert turns != [] ==> (turns + [ev])[|turns| - 1] == Last(turns);
    var spend := ev.inputTokens + ev.outputTokens;
    var ts := engine.Time(ev);
    if ss.lastTs != 0 && ts - ss.lastTs > COLD_RESTART_GAP {
      ss := ss.(coldRestartTokens := ss.coldRestartTokens + ev.inputTokens);
    }
    ss := ss.(lastTs := ts);
    ss := ss.(turns := ss.turns + 1, spendTokens := ss.spendTokens + spend);
    ss := ss.(contextPerTurn := ss.contextPerTurn + [ev.inputTokens + ev.cacheReadTokens]);
    if ev.isError {
      ss := ss.(hasError := true);
    }
    if ss.hasError && !ev.isError {
      ss := ss.(retryTokens := ss.retryTokens + spend, hasError := false);
    }
  }

  datatype Breakdown<!K> = Breakdown(tokens: map<K, int>, costs: map<K, real>)

  /** What pass 1 keeps. */
  datatype Pass1 = Pass1(
    totals: Totals,
    byActivity: Breakdown<Activity>,
    byModel: Breakdown<string>,
    modelOrder: seq<string>,
    sessions: map<string, SessionState>
  )

  ghost predicate BreakdownOver<K(!new)>(engine: Engine, log: seq<Event>, key: Event -> K, b: Breakdown<K>) {
    b.tokens == GroupTotals(log, key, Spend) && b.costs == GroupTotalsReal(log, key, engine.pricing.Usd)
  }

  ghost predicate Pass1Over(engine: Engine, log: seq<Event>, p: Pass1) {
    && p.totals == TotalsOf(engine, log)
    && BreakdownOver(engine, log, ActivityOf, p.byActivity)
    && BreakdownOver(engine, log, ModelOf, p.byModel)
    && p.modelOrder == FirstSeen(log, ModelOf)
    && p.sessions == StatesOf(engine, log)
  }

  method Aggregate(engine: Engine, events: seq<Event>) returns (p: Pass1)
    ensures Pass1Over(engine, events, p)
  {
    p := Pass1(Totals(0, 0, 0, 0, 0.0, false, 0), Breakdown(map[], map[]), Breakdown(map[], map[]), [], map[]);
    for i := 0 to |events|
      invariant Pass1Over(engine, events[..i], p)
    {
      Snoc(events, i);
      var totals := AddToTotals(engine, events[..i], p.totals, events[i]);
      var byActivity := AddToBreakdown(engine, events[..i], ActivityOf, p.byActivity, events[i]);
      var modelOrder := AddToOrder(events[..i], p.byModel.tokens.Keys, p.modelOrder, events[i]);
      var byModel := AddToBreakdown(engine, events[..i], ModelOf, p.byModel, events[i]);
      var sessions := AddToSessions(engine, events[..i], p.sessions, events[i]);
      p := Pass1(totals, byActivity, byModel, modelOrder, sessions);
    }
    assert events[..|events|] == events;
  }

  method AddToTotals(engine: Engine, ghost before: seq<Event>, t: Totals, ev: Event) returns (r: Totals)
    requires t == TotalsOf(engine, before)
    ensures r == TotalsOf(engine, before + [ev])
  {
    var cost := engine.pricing.CostOf(ev.model, ev.inputTokens, ev.outputTokens, ev.cacheReadTokens,
          ev.cacheCreationTokens);
    var costEstimated, costUnpriced := t.costEstimated, t.costUnpricedTokens;
    if cost.estimated {
      costEstimated := true;
      costUnpriced := costUnpriced + cost.unpricedTokens;
    }
    assert Front(before + [ev]) == before;
    r := Totals(t.events + 1, t.inputTokens + ev.inputTokens, t.cacheReadTokens + ev.cacheReadTokens,
                t.cacheCreationTokens + ev.cacheCreationTokens, t.costUsd + cost.usd, costEstimated, costUnpriced);
  }

  method AddToBreakdown<K(==,!new)>(engine: Engine, ghost before: seq<Event>, key: Event -> K, b: Breakdown<K>,
                          ev: Event)
    returns (r: Breakdown<K>)
    requires BreakdownOver(engine, before, key, b)
    ensures BreakdownOver(engine, before + [ev], key, r)
  {
    var spend := ev.inputTokens + ev.outputTokens;
    var cost := engine.pricing.CostOf(ev.model, ev.inputTokens, ev.outputTokens, ev.cacheReadTokens,
          ev.cacheCreationTokens);
    GroupTotalsStep(before, ev, key, Spend);
    GroupTotalsRealStep(before, ev, key, engine.pricing.Usd);
    r := Breakdown(Add(b.tokens, key(ev), spend), AddReal(b.costs, key(ev), cost.usd));
  }

  method AddToOrder(ghost before: seq<Event>, seen: set<string>, order: seq<string>, ev: Event) returns (r: seq<string>)
    requires seen == Keys(before, ModelOf) && order == FirstSeen(before, ModelOf)
    ensures r == FirstSeen(before + [ev], ModelOf)
  {
    assert Front(before + [ev]) == before;
    FirstSeenHas(before, ModelOf, ev.model);
    r := if ev.model in seen then order else order + [ev.model];
  }

  method AddToSessions(engine: Engine, ghost before: seq<Event>, sessions: map<string, SessionState>, ev: Event)
    returns (after: map<string, SessionState>)
    requires sessions == StatesOf(engine, before)
    ensures after == StatesOf(engine, before + [ev])
  {
    KeyOccurs(before, SessionOf, ev.sessionId);
    var ss := if ev.sessionId in sessions then sessions[ev.sessionId] else NEW_SESSION;
    ss := Accumulate(engine, ss, ev, Select(before, SessionOf, ev.sessionId));
    GroupMapStep(before, ev, SessionOf, engine.StateOf);
    after := sessions[ev.sessionId := ss];
  }

  method AvgInt(s: seq<int>) returns (avg: real)
    ensures avg == Average(s)
  {
    if |s| == 0 {
      return 0.0;
    }
    var sum := 0;
    for i := 0 to |s|
      invariant sum == Sum(s[..i], Id)
    {
      Snoc(s, i);
      sum := sum + s[i];
    }
    assert s[..|s|] == s;
    return sum as real / |s| as real;
  }

  /** The inner loop of pass 2: it looks at the whole log, whichever session it is run for. */
  method PremiumSpend(engine: Engine, events: seq<Event>) returns (total: int)
    ensures total == Sum(events, engine.PremiumTokens)
  {
    total := 0;
    for j := 0 to |events|
      invariant total == Sum(events[..j], engine.PremiumTokens)
    {
      Snoc(events, j);
      var ev := events[j];
      if ev.sessionId == "" {
        continue;
      }
      if engine.pricing.IsPremiumModel(ev.model) && (ev.activity == Exploration || ev.activity == Conversation) {
        total := total + ev.inputTokens + ev.outputTokens;
      }
    }
    assert events[..|events|] == events;
  }

  /** Whether a session is long, and if so whether its context doubled. */
  method Classify(engine: Engine, ss: SessionState, ghost turns: seq<Event>) returns (long: int, bloat: int)
    requires ss == engine.StateOf(turns)
    ensures long == IsLong(turns) && bloat == IsBloated(turns)
  {
    long, bloat := 0, 0;
    if ss.turns >= BLOAT_MIN_TURNS {
      long := 1;
      var mid := |ss.contextPerTurn| / 2;
      var early := AvgInt(ss.contextPerTurn[..mid]);
      var late := AvgInt(ss.contextPerTurn[mid..]);
      if early > 0.0 && late / early >= BLOAT_GROWTH_RATIO {
        bloat := 1;
      }
    }
  }

  method Derive(engine: Engine, events: seq<Event>, sessions: map<string, SessionState>) returns (d: Derived)
    requires sessions == StatesOf(engine, events)
    ensures d == DerivedTotal(engine, events)
  {
    d := NOTHING;
    var todo := sessions.Keys;
    assert PerSession(engine, events, sessions.Keys - todo).Keys == {};
    while todo != {}
      invariant todo <= sessions.Keys
      invariant d == SumDerived(PerSession(engine, events, sessions.Keys - todo))
      decreases |todo|
    {
      var sid :| sid in todo;
      var one := DeriveOne(engine, events, sessions, sid);
      OneSessionMore(engine, events, sessions.Keys - todo, sid);
      assert sessions.Keys - (todo - {sid}) == (sessions.Keys - todo) + {sid};
      d := d.Plus(one);
      todo := todo - {sid};
    }
    assert sessions.Keys - todo == sessions.Keys;
    SessionsOfStates(engine, events);
  }

  lemma {:induction false} SessionsOfStates(engine: Engine, events: seq<Event>)
    ensures StatesOf(engine, events).Keys == Keys(events, SessionOf)
  {
  }

  lemma {:induction false} OneSessionMore(engine: Engine, events: seq<Event>, done: set<string>, sid: string)
    requires sid !in done
    ensures SumDerived(PerSession(engine, events, done + {sid}))
         == SumDerived(PerSession(engine, events, done)).Plus(DerivedOf(engine, events, sid))
  {
    PerSessionAdd(engine, events, done, sid);
    SumDerivedInsert(PerSession(engine, events, done), sid, DerivedOf(engine, events, sid));
  }

  /** The body of pass 2. */
  method DeriveOne(engine: Engine, events: seq<Event>, sessions: map<string, SessionState>, sid: string)
    returns (d: Derived)
    requires sessions == StatesOf(engine, events) && sid in sessions
    ensures d == DerivedOf(engine, events, sid)
  {
    var ss := sessions[sid];
    var long, bloat := Classify(engine, ss, Select(events, SessionOf, sid));
    var premium := PremiumSpend(engine, events);
    d := Derived(ss.spendTokens, ss.retryTokens, ss.coldRestartTokens, bloat, long, premium);
  }

  /** A part of the derived totals that adds up on its own. */
  ghost predicate IsPart(part: Derived -> int) {
    part(NOTHING) == 0 && forall a: Derived, b: Derived :: part(a.Plus(b)) == part(a) + part(b)
  }

  lemma {:induction false} PartsAddUp(m: map<string, Derived>, parts: map<string, int>, part: Derived -> int)
    requires IsPart(part) && parts.Keys == m.Keys
    requires forall s :: s in m ==> parts[s] == part(m[s])
    ensures part(SumDerived(m)) == SumMap(parts)
    decreases |m.Keys|
  {
    if m.Keys == {} {
    } else {
      var k :| k in m.Keys;
      SumDerivedPick(m, k);
      SumMapPick(parts, k);
      PartsAddUp(m - {k}, parts - {k}, part);
    }
  }

  function SpendPart(d: Derived): int { d.spend }

  lemma {:induction false} SpendOverSessions(engine: Engine, events: seq<Event>)
    ensures DerivedTotal(engine, events).spend == Sum(events, Spend)
  {
    PartsAddUp(PerSession(engine, events, Keys(events, SessionOf)), GroupTotals(events, SessionOf, Spend), SpendPart);
    Partition(events, SessionOf, Spend);
  }

  method Compute(engine: Engine, events: seq<Event>) returns (m: Metrics)
    ensures m == MetricsOf(engine, events)
  {
    if |events| == 0 {
      return NO_METRICS;
    }
    var p := Aggregate(engine, events);
    var d := Derive(engine, events, p.sessions);
    SpendOverSessions(engine, events);
    BreakdownLooksUp(engine, events, ActivityOf, p.byActivity);
    var think, code := ValueAt(p.byActivity.tokens, Thinking), ValueAt(p.byActivity.tokens, Coding);
    var byActivity := BuildActivities(engine, events, p.byActivity, d.spend);
    var byModel := BuildModels(engine, events, p.byModel, p.modelOrder, d.spend);
    assert p.sessions.Keys == Keys(events, SessionOf);
    m := Summary(p.totals, |p.sessions.Keys|, d, think, code, byActivity, byModel);
  }

  /** Go's `m[k]`. */
  function ValueAt<K>(m: map<K, int>, k: K): int {
    if k in m then m[k] else 0
  }

  function RealAt<K>(m: map<K, real>, k: K): real {
    if k in m then m[k] else 0.0
  }

  ghost predicate LooksUp<K(!new)>(engine: Engine, events: seq<Event>, key: Event -> K, b: Breakdown<K>) {
    forall k ::
      ValueAt(b.tokens, k) == GroupSpend(events, key, k) && RealAt(b.costs, k) == GroupCost(engine, events, key, k)
  }

  lemma {:induction false} BreakdownLooksUp<K(!new)>(engine: Engine, events: seq<Event>, key: Event -> K,
                                              b: Breakdown<K>)
    requires BreakdownOver(engine, events, key, b)
    ensures LooksUp(engine, events, key, b)
  {
    forall k
      ensures ValueAt(b.tokens, k) == GroupSpend(events, key, k)
      ensures RealAt(b.costs, k) == GroupCost(engine, events, key, k)
    {
      KeyOccurs(events, key, k);
    }
  }

  method BuildActivities(engine: Engine, ghost events: seq<Event>, b: Breakdown<Activity>, spend: int)
    returns (r: map<Activity, ActivityBreakdown>)
    requires LooksUp(engine, events, ActivityOf, b) && spend == Sum(events, Spend)
    ensures r == ActivityBreakdowns(engine, events)
  {
    r := map[];
    for i := 0 to |ACTIVITIES|
      invariant r == map a | a in ACTIVITIES[..i] :: ActivityBreakdownOf(engine, events, a)
    {
      var a := ACTIVITIES[i];
      var tokens := ValueAt(b.tokens, a);
      r := r[a := ActivityBreakdown(a, tokens, Ratio(tokens, spend), RealAt(b.costs, a))];
      assert ACTIVITIES[..i + 1] == ACTIVITIES[..i] + [a];
    }
    assert ACTIVITIES[..|ACTIVITIES|] == ACTIVITIES;
  }

  method BuildModels(engine: Engine, ghost events: seq<Event>, b: Breakdown<string>, order: seq<string>, spend: int)
    returns (r: map<string, ModelBreakdown>)
    requires BreakdownOver(engine, events, ModelOf, b) && spend == Sum(events, Spend)
    requires order == FirstSeen(events, ModelOf)
    ensures r == ModelBreakdowns(engine, events)
  {
    BreakdownLooksUp(engine, events, ModelOf, b);
    r := BuildModelsIn(engine, events, b, order, spend);
    FirstSeenKeys(events, ModelOf);
  }

  method BuildModelsIn(engine: Engine, ghost events: seq<Event>, b: Breakdown<string>, order: seq<string>, spend: int)
    returns (r: map<string, ModelBreakdown>)
    requires LooksUp(engine, events, ModelOf, b) && spend == Sum(events, Spend)
    ensures r == map m | m in order :: ModelBreakdownOf(engine, events, m)
  {
    r := map[];
    for i := 0 to |order|
      invariant r == map m | m in order[..i] :: ModelBreakdownOf(engine, events, m)
    {
      var m := order[i];
      var tokens := ValueAt(b.tokens, m);
      r := r[m := ModelBreakdown(m, tokens, Ratio(tokens, spend), RealAt(b.costs, m))];
      assert order[..i + 1] == order[..i] + [m];
    }
    assert order[..|order|] == order;
  }
}
