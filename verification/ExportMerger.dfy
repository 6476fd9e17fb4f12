/** Team exports: one per username, merged and rolled up by group. */
module ExportMerger {
  import opened Grouping
  import opened Sorting
  import opened MetricsEngine
  import Strings

  datatype SignedExport = SignedExport(username: string, generatedAt: string, overall: Metrics)

  const NO_EXPORT := SignedExport("", "", NO_METRICS)

  function UserOf(e: SignedExport): string { e.username }

  /* Dedupe */

  /** The latest of one user's exports; of equally late ones, the first. */
  function Latest(exports: seq<SignedExport>): SignedExport {
    if exports == [] then NO_EXPORT
    else
      var before := Latest(Front(exports));
      if |exports| == 1 || Strings.Less(before.generatedAt, Last(exports).generatedAt) then Last(exports) else before
  }

  /** One export per user, in the order the users first occur. */
  function Deduped(exports: seq<SignedExport>): seq<SignedExport> {
    var order := FirstSeen(exports, UserOf);
    seq(|order|, i requires 0 <= i < |order| => Latest(Select(exports, UserOf, order[i])))
  }

  method Dedupe(exports: seq<SignedExport>) returns (result: seq<SignedExport>)
    ensures result == Deduped(exports)
  {
    var latest: map<string, SignedExport>, order: seq<string> := map[], [];
    for i := 0 to |exports|
      invariant latest == GroupMap(exports[..i], UserOf, Latest)
      invariant order == FirstSeen(exports[..i], UserOf)
    {
      Snoc(exports, i);
      latest, order := Consider(exports[..i], latest, order, exports[i]);
    }
    assert exports[..|exports|] == exports;
    result := ListLatest(exports, latest, order);
  }

  /** The loop over the users seen. */
  method ListLatest(ghost exports: seq<SignedExport>, latest: map<string, SignedExport>, order: seq<string>)
    returns (result: seq<SignedExport>)
    requires latest == GroupMap(exports, UserOf, Latest) && order == FirstSeen(exports, UserOf)
    ensures result == Deduped(exports)
  {
    result := [];
    for i := 0 to |order|
      invariant |result| == i
      invariant forall k :: 0 <= k < i ==> result[k] == Latest(Select(exports, UserOf, order[k]))
    {
      LatestOf(exports, order[i]);
      result := result + [latest[order[i]]];
    }
  }

  lemma {:induction false} LatestOf(exports: seq<SignedExport>, user: string)
    requires user in FirstSeen(exports, UserOf)
    ensures user in GroupMap(exports, UserOf, Latest)
    ensures GroupMap(exports, UserOf, Latest)[user] == Latest(Select(exports, UserOf, user))
  {
    FirstSeenHas(exports, UserOf, user);
  }

  /** The body of the first loop: one more export. */
  method Consider(ghost before: seq<SignedExport>, latest: map<string, SignedExport>, order: seq<string>,
                  e: SignedExport)
    returns (latest': map<string, SignedExport>, order': seq<string>)
    requires latest == GroupMap(before, UserOf, Latest) && order == FirstSeen(before, UserOf)
    ensures latest' == GroupMap(before + [e], UserOf, Latest) && order' == FirstSeen(before + [e], UserOf)
  {
    latest', order' := latest, order;
    KeyOccurs(before, UserOf, e.username);
    FirstSeenHas(before, UserOf, e.username);
    GroupMapStep(before, e, UserOf, Latest);
    LatestSnoc(Select(before, UserOf, e.username), e);
    assert Front(before + [e]) == before;
    var seen := e.username in latest;
    if !seen {
      order' := order + [e.username];
    }
    if !seen || Strings.Less(latest[e.username].generatedAt, e.generatedAt) {
      latest' := latest[e.username := e];
    } else {
      assert latest[e.username := latest[e.username]] == latest;
    }
  }

  lemma {:induction false} LatestSnoc(exports: seq<SignedExport>, e: SignedExport)
    ensures Latest(exports + [e])
         == if exports == [] || Strings.Less(Latest(exports).generatedAt, e.generatedAt) then e else Latest(exports)
  {
    assert Front(exports + [e]) == exports;
  }

  ghost predicate IsEarliestGreatest(exports: seq<SignedExport>, i: nat) {
    && i < |exports|
    && (forall j :: 0 <= j < |exports| ==> Strings.AtMost(exports[j].generatedAt, exports[i].generatedAt))
    && (forall j :: 0 <= j < i ==> Strings.Less(exports[j].generatedAt, exports[i].generatedAt))
  }

  /** Of one user's exports the greatest timestamp is kept, and of those that carry it the earliest. */
  lemma {:induction false} LatestIsEarliestGreatest(exports: seq<SignedExport>) returns (i: nat)
    requires exports != []
    ensures IsEarliestGreatest(exports, i) && Latest(exports) == exports[i]
  {
    var before, e := Front(exports), Last(exports);
    assert exports == before + [e];
    LatestSnoc(before, e);
    if before == [] {
      Strings.LessIsIrreflexive(e.generatedAt);
      i := 0;
    } else {
      i := LatestIsEarliestGreatest(before);
      EarliestGreatestSnoc(before, e, i);
      if Strings.Less(before[i].generatedAt, e.generatedAt) {
        i := |before|;
      }
    }
  }

  lemma {:induction false} EarliestGreatestSnoc(before: seq<SignedExport>, e: SignedExport, i: nat)
    requires IsEarliestGreatest(before, i)
    ensures IsEarliestGreatest(before + [e], if Strings.Less(before[i].generatedAt, e.generatedAt) then |before| else i)
  {
    Strings.LessIsIrreflexive(e.generatedAt);
    var best := before[i].generatedAt;
    if Strings.Less(best, e.generatedAt) {
      forall j | 0 <= j < |before|
        ensures Strings.Less(before[j].generatedAt, e.generatedAt)
        ensures Strings.AtMost(before[j].generatedAt, e.generatedAt)
      {
        BelowBest(before[j].generatedAt, best, e.generatedAt);
      }
    }
  }

  lemma {:induction false} BelowBest(x: string, best: string, ts: string)
    requires Strings.AtMost(x, best) && Strings.Less(best, ts)
    ensures Strings.Less(x, ts) && Strings.AtMost(x, ts)
  {
    Strings.LessIsTotal(x, best);
    if x != best {
      Strings.LessIsTransitive(x, best, ts);
    }
    if Strings.Less(ts, x) {
      Strings.LessIsTransitive(x, ts, x);
      Strings.LessIsIrreflexive(x);
    }
  }

  lemma {:induction false} DedupedUsers(exports: seq<SignedExport>)
    ensures |Deduped(exports)| == |FirstSeen(exports, UserOf)|
    ensures forall i :: 0 <= i < |Deduped(exports)| ==> UserOf(Deduped(exports)[i]) == FirstSeen(exports, UserOf)[i]
    ensures DistinctKeys(Deduped(exports), UserOf)
  {
    var order := FirstSeen(exports, UserOf);
    FirstSeenKeys(exports, UserOf);
    forall i | 0 <= i < |order|
      ensures UserOf(Deduped(exports)[i]) == order[i]
    {
      var group := Select(exports, UserOf, order[i]);
      FirstSeenHas(exports, UserOf, order[i]);
      KeyOccurs(exports, UserOf, order[i]);
      SelectMembers(exports, UserOf, order[i]);
      var j := LatestIsEarliestGreatest(group);
      assert group[j] in group;
    }
  }

  /** A sequence with distinct keys is its own first-seen order, and each of its groups is one element. */
  lemma {:induction false} DistinctGroups(xs: seq<SignedExport>, order: seq<string>)
    requires |xs| == |order| && Distinct(order) && forall i :: 0 <= i < |xs| ==> UserOf(xs[i]) == order[i]
    ensures FirstSeen(xs, UserOf) == order
    ensures forall i :: 0 <= i < |xs| ==> Select(xs, UserOf, order[i]) == [xs[i]]
    ensures forall u :: u !in order ==> Select(xs, UserOf, u) == []
  {
    if xs == [] {
    } else {
      DistinctGroups(Front(xs), Front(order));
      assert order == Front(order) + [Last(order)];
      assert Last(order) !in Front(order);
    }
  }

  lemma {:induction false} FirstSeenAppend(xs: seq<SignedExport>, ys: seq<SignedExport>, zs: seq<SignedExport>)
    requires FirstSeen(xs, UserOf) == FirstSeen(ys, UserOf)
    ensures FirstSeen(xs + zs, UserOf) == FirstSeen(ys + zs, UserOf)
  {
    if zs == [] {
      assert xs + zs == xs && ys + zs == ys;
    } else {
      assert Front(xs + zs) == xs + Front(zs) && Front(ys + zs) == ys + Front(zs);
      FirstSeenAppend(xs, ys, Front(zs));
    }
  }

  lemma {:induction false} LatestOfLatest(xs: seq<SignedExport>, ys: seq<SignedExport>)
    requires xs != []
    ensures Latest([Latest(xs)] + ys) == Latest(xs + ys)
  {
    var best := [Latest(xs)];
    if ys == [] {
      assert best + ys == best && xs + ys == xs;
      assert Front(best) == [];
    } else {
      var before, e := Front(ys), Last(ys);
      LatestOfLatest(xs, before);
      SameLatestSnoc(best + before, xs + before, e);
      assert ys == before + [e];
      assert best + ys == (best + before) + [e] && xs + ys == (xs + before) + [e];
    }
  }

  lemma {:induction false} SameLatestSnoc(xs: seq<SignedExport>, ys: seq<SignedExport>, e: SignedExport)
    requires xs != [] && ys != [] && Latest(xs) == Latest(ys)
    ensures Latest(xs + [e]) == Latest(ys + [e])
  {
    LatestSnoc(xs, e);
    LatestSnoc(ys, e);
  }

  /** Deduping early changes nothing: stale submissions may be dropped before or after more arrive. */
  lemma {:induction false} DedupeAbsorbs(a: seq<SignedExport>, b: seq<SignedExport>)
    ensures Deduped(Deduped(a) + b) == Deduped(a + b)
  {
    var order := FirstSeen(a, UserOf);
    FirstSeenKeys(a, UserOf);
    DedupedUsers(a);
    DistinctGroups(Deduped(a), order);
    FirstSeenAppend(Deduped(a), a, b);
    var all := FirstSeen(a + b, UserOf);
    forall k | 0 <= k < |all|
      ensures Latest(Select(Deduped(a) + b, UserOf, all[k])) == Latest(Select(a + b, UserOf, all[k]))
    {
      GroupAbsorbs(a, b, order, all[k]);
    }
  }

  lemma {:induction false} GroupAbsorbs(a: seq<SignedExport>, b: seq<SignedExport>, order: seq<string>, u: string)
    requires order == FirstSeen(a, UserOf) && |Deduped(a)| == |order|
    requires forall i :: 0 <= i < |order| ==> Select(Deduped(a), UserOf, order[i]) == [Deduped(a)[i]]
    requires u !in order ==> Select(Deduped(a), UserOf, u) == []
    ensures Latest(Select(Deduped(a) + b, UserOf, u)) == Latest(Select(a + b, UserOf, u))
  {
    SelectAppend(Deduped(a), b, UserOf, u);
    SelectAppend(a, b, UserOf, u);
    FirstSeenHas(a, UserOf, u);
    KeyOccurs(a, UserOf, u);
    if u in order {
      var i :| 0 <= i < |order| && order[i] == u;
      assert Deduped(a)[i] == Latest(Select(a, UserOf, u));
      LatestOfLatest(Select(a, UserOf, u), Select(b, UserOf, u));
    }
  }

  lemma {:induction false} DedupeIsIdempotent(a: seq<SignedExport>)
    ensures Deduped(Deduped(a)) == Deduped(a)
  {
    DedupeAbsorbs(a, []);
    assert Deduped(a) + [] == Deduped(a) && a + [] == a;
  }

  /* Merging */

  /** The numbers that merging sums or averages. */
  datatype Measure =
    | Events | Sessions | SpendTokens | Cost
    | CacheHit | Rework | ThinkToCode | ContextBloat | ColdRestart | PremiumWaste | Retry
  {
    predicate IsAbsolute() {
      Events? || Sessions? || SpendTokens? || Cost?
    }

    function Value(m: Metrics): real {
      match this
      case Events => m.events as real
      case Sessions => m.sessions as real
      case SpendTokens => m.spendTokens as real
      case Cost => m.costUsd
      case CacheHit => m.cacheHitRatio
      case Rework => m.reworkRatio
      case ThinkToCode => m.thinkToCodeRatio
      case ContextBloat => m.contextBloatShare
      case ColdRestart => m.coldRestartShare
      case PremiumWaste => m.premiumWasteShare
      case Retry => m.retryShare
    }

    function OfRollup(r: Rollup): real {
      Value(r.metrics)
    }

    function Of(e: SignedExport): real {
      Value(e.overall)
    }
  }

  /** The sum of every measure over a list of exports, in the fields of one metrics value. */
  function Added(exports: seq<SignedExport>): Metrics {
    if exports == [] then NO_METRICS
    else
      var a, m := Added(Front(exports)), Last(exports).overall;
      a.(events := a.events + m.events,
         sessions := a.sessions + m.sessions,
         spendTokens := a.spendTokens + m.spendTokens,
         costUsd := a.costUsd + m.costUsd,
         cacheHitRatio := a.cacheHitRatio + m.cacheHitRatio,
         reworkRatio := a.reworkRatio + m.reworkRatio,
         thinkToCodeRatio := a.thinkToCodeRatio + m.thinkToCodeRatio,
         contextBloatShare := a.contextBloatShare + m.contextBloatShare,
         coldRestartShare := a.coldRestartShare + m.coldRestartShare,
         premiumWasteShare := a.premiumWasteShare + m.premiumWasteShare,
         retryShare := a.retryShare + m.retryShare)
  }

  function Merged(exports: seq<SignedExport>): Metrics {
    if exports == [] then NO_METRICS
    else
      var a, n := Added(exports), |exports| as real;
      a.(cacheHitRatio := a.cacheHitRatio / n,
         reworkRatio := a.reworkRatio / n,
         thinkToCodeRatio := a.thinkToCodeRatio / n,
         contextBloatShare := a.contextBloatShare / n,
         coldRestartShare := a.coldRestartShare / n,
         premiumWasteShare := a.premiumWasteShare / n,
         retryShare := a.retryShare / n)
  }

  method MergeMetrics(exports: seq<SignedExport>) returns (merged: Metrics)
    ensures merged == Merged(exports)
  {
    merged := NO_METRICS;
    if |exports| == 0 {
      return;
    }
    for i := 0 to |exports|
      invariant merged == Added(exports[..i])
    {
      Snoc(exports, i);
      var m := exports[i].overall;
      merged := merged.(events := merged.events + m.events, sessions := merged.sessions + m.sessions);
      merged := merged.(spendTokens := merged.spendTokens + m.spendTokens, costUsd := merged.costUsd + m.costUsd);
      merged := merged.(cacheHitRatio := merged.cacheHitRatio + m.cacheHitRatio);
      merged := merged.(reworkRatio := merged.reworkRatio + m.reworkRatio);
      merged := merged.(thinkToCodeRatio := merged.thinkToCodeRatio + m.thinkToCodeRatio);
      merged := merged.(contextBloatShare := merged.contextBloatShare + m.contextBloatShare);
      merged := merged.(coldRestartShare := merged.coldRestartShare + m.coldRestartShare);
      merged := merged.(premiumWasteShare := merged.premiumWasteShare + m.premiumWasteShare);
      merged := merged.(retryShare := merged.retryShare + m.retryShare);
    }
    assert exports[..|exports|] == exports;
    var fn := |exports| as real;
    merged := merged.(cacheHitRatio := merged.cacheHitRatio / fn);
    merged := merged.(reworkRatio := merged.reworkRatio / fn);
    merged := merged.(thinkToCodeRatio := merged.thinkToCodeRatio / fn);
    merged := merged.(contextBloatShare := merged.contextBloatShare / fn);
    merged := merged.(coldRestartShare := merged.coldRestartShare / fn);
    merged := merged.(premiumWasteShare := merged.premiumWasteShare / fn);
    merged := merged.(retryShare := merged.retryShare / fn);
  }

  /** A number added to itself. */
  function Times(n: nat, x: real): real {
    if n == 0 then 0.0 else Times(n - 1, x) + x
  }

  lemma {:induction false} TimesIsProduct(n: nat, x: real)
    ensures Times(n, x) == n as real * x
  {
    if n > 0 {
      TimesIsProduct(n - 1, x);
      OneMore((n - 1) as real, x);
    }
  }

  lemma {:induction false} OneMore(n: real, x: real)
    ensures (n + 1.0) * x == n * x + x
  {
  }

  lemma {:induction false} TimesOfMean(n: nat, sum: real)
    requires n > 0
    ensures Times(n, sum / n as real) == sum
  {
    TimesIsProduct(n, sum / n as real);
  }

  lemma {:induction false} TimesIsMonotone(n: nat, x: real, y: real)
    requires n > 0 && Times(n, x) <= Times(n, y)
    ensures x <= y
  {
    if x > y {
      TimesGrows(n, y, x);
    }
  }

  lemma {:induction false} TimesGrows(n: nat, x: real, y: real)
    requires n > 0 && x < y
    ensures Times(n, x) < Times(n, y)
  {
    if n > 1 {
      TimesGrows(n - 1, x, y);
    }
  }

  lemma {:induction false} AddedIsSum(exports: seq<SignedExport>, k: Measure)
    ensures k.Value(Added(exports)) == SumReal(exports, k.Of)
  {
    if exports == [] {
    } else {
      AddedIsSum(Front(exports), k);
    }
  }

  /** What a merged value stands for: absolute values add up, ratios are means over the exports. */
  lemma {:induction false} MergedMeaning(exports: seq<SignedExport>, k: Measure)
    ensures k.IsAbsolute() ==> k.Value(Merged(exports)) == SumReal(exports, k.Of)
    ensures !k.IsAbsolute() ==> Times(|exports|, k.Value(Merged(exports))) == SumReal(exports, k.Of)
  {
    AddedIsSum(exports, k);
    if exports != [] {
      TimesOfMean(|exports|, SumReal(exports, k.Of));
    }
  }

  /** Merging does not depend on the order of the exports. */
  lemma {:induction false} MergeIsPermutationInvariant(xs: seq<SignedExport>, ys: seq<SignedExport>, k: Measure)
    requires multiset(xs) == multiset(ys)
    ensures k.Value(Merged(xs)) == k.Value(Merged(ys))
  {
    assert |xs| == |multiset(xs)| == |multiset(ys)| == |ys|;
    SumRealPermutation(xs, ys, k.Of);
    AddedIsSum(xs, k);
    AddedIsSum(ys, k);
  }

  lemma {:induction false} SumBetween(exports: seq<SignedExport>, k: Measure, low: real, high: real)
    requires forall e :: e in exports ==> low <= k.Of(e) <= high
    ensures Times(|exports|, low) <= SumReal(exports, k.Of) <= Times(|exports|, high)
  {
    if exports == [] {
    } else {
      assert exports == Front(exports) + [Last(exports)];
      SumBetween(Front(exports), k, low, high);
    }
  }

  /** A merged ratio lies between the least and the greatest of its members'. */
  lemma {:induction false} MergedRatioIsBetween(exports: seq<SignedExport>, k: Measure, low: real, high: real)
    requires exports != [] && !k.IsAbsolute()
    requires forall e :: e in exports ==> low <= k.Of(e) <= high
    ensures low <= k.Value(Merged(exports)) <= high
  {
    SumBetween(exports, k, low, high);
    MergedMeaning(exports, k);
    TimesIsMonotone(|exports|, low, k.Value(Merged(exports)));
    TimesIsMonotone(|exports|, k.Value(Merged(exports)), high);
  }

  /* Rollups */

  datatype Rollup = Rollup(name: string, axis: string, members: seq<string>, metrics: Metrics)

  function InGroup(exports: seq<SignedExport>, members: seq<string>): seq<SignedExport> {
    if exports == [] then []
    else if Last(exports).username in members then InGroup(Front(exports), members) + [Last(exports)]
    else InGroup(Front(exports), members)
  }

  function Users(exports: seq<SignedExport>): seq<string> {
    if exports == [] then [] else Users(Front(exports)) + [Last(exports).username]
  }

  /** The rollups of the named groups; a group without exports has none. */
  function GroupRollups(names: seq<string>, exports: seq<SignedExport>, config: map<string, seq<string>>): seq<Rollup>
    requires forall g :: g in names ==> g in config
  {
    if names == [] then []
    else
      var g := Last(names);
      var before, group := GroupRollups(Front(names), exports, config), InGroup(exports, config[g]);
      if group == [] then before else before + [Rollup(g, "group", config[g], Merged(group))]
  }

  /** The names of the groups, each once, in order. */
  ghost predicate IsNaming(names: seq<string>, config: map<string, seq<string>>) {
    Distinct(names) && Sorted(names, Strings.AtMost) && forall g :: g in names <==> g in config
  }

  function AllRollup(exports: seq<SignedExport>): Rollup {
    Rollup("all", "all", Users(exports), Merged(exports))
  }

  method RollUp(exports: seq<SignedExport>, config: map<string, seq<string>>) returns (rollups: seq<Rollup>)
    ensures exists names ::
        IsNaming(names, config) && rollups == GroupRollups(names, exports, config) + [AllRollup(exports)]
  {
    var groupNames := GroupNames(config);
    rollups := [];
    for i := 0 to |groupNames|
      invariant forall g :: g in groupNames[..i] ==> g in config
      invariant rollups == GroupRollups(groupNames[..i], exports, config)
    {
      Snoc(groupNames, i);
      var members := config[groupNames[i]];
      var groupExports := SelectMembersOf(exports, members);
      if |groupExports| == 0 {
        continue;
      }
      var metrics := MergeMetrics(groupExports);
      rollups := rollups + [Rollup(groupNames[i], "group", members, metrics)];
    }
    assert groupNames[..|groupNames|] == groupNames;
    var allMetrics := MergeMetrics(exports);
    var allMembers: seq<string> := [];
    for i := 0 to |exports|
      invariant allMembers == Users(exports[..i])
    {
      Snoc(exports, i);
      allMembers := allMembers + [exports[i].username];
    }
    assert exports[..|exports|] == exports;
    rollups := rollups + [Rollup("all", "all", allMembers, allMetrics)];
  }

  method SelectMembersOf(exports: seq<SignedExport>, members: seq<string>) returns (group: seq<SignedExport>)
    ensures group == InGroup(exports, members)
  {
    var memberSet: set<string> := {};
    for i := 0 to |members|
      invariant forall u :: u in memberSet <==> u in members[..i]
    {
      memberSet := memberSet + {members[i]};
    }
    group := [];
    for i := 0 to |exports|
      invariant group == InGroup(exports[..i], members)
    {
      Snoc(exports, i);
      if exports[i].username in memberSet {
        group := group + [exports[i]];
      }
    }
    assert exports[..|exports|] == exports;
  }

  /** The keys of the map in any order, then sorted. */
  method GroupNames(config: map<string, seq<string>>) returns (names: seq<string>)
    ensures IsNaming(names, config)
  {
    var unsorted: seq<string> := [];
    var todo := config.Keys;
    while todo != {}
      invariant todo <= config.Keys && Distinct(unsorted)
      invariant forall g :: g in unsorted <==> g in config.Keys - todo
      decreases |todo|
    {
      var g :| g in todo;
      assert g !in unsorted;
      unsorted := unsorted + [g];
      todo := todo - {g};
    }
    AtMostRanks();
    names := Sort(unsorted, Strings.AtMost);
    SortedNamesAreNames(names, unsorted);
  }

  lemma {:induction false} AtMostRanks()
    ensures IsRanking(Strings.AtMost)
  {
    forall a, b
      ensures Strings.AtMost(a, b) || Strings.AtMost(b, a)
    {
      Strings.AtMostIsTotal(a, b);
    }
    forall a, b, c | Strings.AtMost(a, b) && Strings.AtMost(b, c)
      ensures Strings.AtMost(a, c)
    {
      Strings.AtMostIsTransitive(a, b, c);
    }
  }

  lemma {:induction false} SortedNamesAreNames(names: seq<string>, unsorted: seq<string>)
    requires multiset(names) == multiset(unsorted) && Distinct(unsorted)
    ensures Distinct(names) && forall g :: g in names <==> g in unsorted
  {
    DistinctPermutes(unsorted, names);
    assert forall g :: g in names <==> g in multiset(names);
    assert forall g :: g in unsorted <==> g in multiset(unsorted);
  }

  /** Each rollup of a group carries the group's name and configured members, and merges the exports of those members;
      a group has one exactly when it has an export. */
  lemma {:induction false} RollupsMean(names: seq<string>, exports: seq<SignedExport>,
                                       config: map<string, seq<string>>)
    requires forall g :: g in names ==> g in config
    ensures forall r :: r in GroupRollups(names, exports, config) ==>
      && r.name in names && r.axis == "group" && r.members == config[r.name]
      && r.metrics == Merged(InGroup(exports, r.members))
    ensures forall g :: g in names ==>
      ((exists r :: r in GroupRollups(names, exports, config) && r.name == g)
       <==> exists e :: e in exports && e.username in config[g])
  {
    if names == [] {
    } else {
      var g, before := Last(names), GroupRollups(Front(names), exports, config);
      assert names == Front(names) + [g];
      RollupsMean(Front(names), exports, config);
      InGroupMembers(exports, config[g]);
      var group := InGroup(exports, config[g]);
      assert group != [] ==> group[0] in group;
      assert forall r :: r in GroupRollups(names, exports, config) ==>
        r in before || (group != [] && r == Rollup(g, "group", config[g], Merged(group)));
      assert group != [] ==> Rollup(g, "group", config[g], Merged(group)) in GroupRollups(names, exports, config);
    }
  }

  lemma {:induction false} InGroupMembers(exports: seq<SignedExport>, members: seq<string>)
    ensures forall e :: e in InGroup(exports, members) <==> e in exports && e.username in members
  {
    if exports == [] {
    } else {
      assert exports == Front(exports) + [Last(exports)];
      InGroupMembers(Front(exports), members);
    }
  }

  /** The rollup of all is named so, and lists every export's user, in order. */
  lemma {:induction false} AllRollupMeans(exports: seq<SignedExport>)
    ensures AllRollup(exports).name == "all" && AllRollup(exports).metrics == Merged(exports)
    ensures |AllRollup(exports).members| == |exports|
    ensures forall i :: 0 <= i < |exports| ==> AllRollup(exports).members[i] == exports[i].username
  {
    if exports == [] {
    } else {
      AllRollupMeans(Front(exports));
    }
  }

  /* Conservation */

  /** How many of the groups list a user. */
  function Memberships(names: seq<string>, config: map<string, seq<string>>, u: string): nat
    requires forall g :: g in names ==> g in config
  {
    if names == [] then 0 else Memberships(Front(names), config, u) + if u in config[Last(names)] then 1 else 0
  }

  /** What a group contributes: its merged absolute value, or its merged ratio times its size. */
  function Contribution(group: seq<SignedExport>, k: Measure): real {
    if k.IsAbsolute() then k.Value(Merged(group)) else Times(|group|, k.Value(Merged(group)))
  }

  function Contributions(names: seq<string>, exports: seq<SignedExport>, config: map<string, seq<string>>,
                         k: Measure): real
    requires forall g :: g in names ==> g in config
  {
    if names == [] then 0.0
    else Contributions(Front(names), exports, config, k) + Contribution(InGroup(exports, config[Last(names)]), k)
  }

  /** Every export, as often as groups list its user. */
  function Weighted(names: seq<string>, exports: seq<SignedExport>, config: map<string, seq<string>>, k: Measure): real
    requires forall g :: g in names ==> g in config
  {
    if exports == [] then 0.0
    else
      Weighted(names, Front(exports), config, k) +
      Times(Memberships(names, config, Last(exports).username), k.Of(Last(exports)))
  }

  lemma {:induction false} ContributionIsSum(group: seq<SignedExport>, k: Measure)
    ensures Contribution(group, k) == SumReal(group, k.Of)
  {
    MergedMeaning(group, k);
  }

  lemma {:induction false} OneMoreGroup(names: seq<string>, exports: seq<SignedExport>,
                                        config: map<string, seq<string>>, k: Measure)
    requires names != [] && forall g :: g in names ==> g in config
    ensures Weighted(names, exports, config, k)
         == Weighted(Front(names), exports, config, k) + SumReal(InGroup(exports, config[Last(names)]), k.Of)
  {
    if exports == [] {
    } else {
      OneMoreGroup(names, Front(exports), config, k);
      var group := InGroup(Front(exports), config[Last(names)]);
      assert Front(group + [Last(exports)]) == group;
    }
  }

  /** For every configuration, overlapping or incomplete as it may be, the groups together contribute each export
      once per group that lists its user. */
  lemma {:induction false} RollupCountsMemberships(names: seq<string>, exports: seq<SignedExport>,
                                                   config: map<string, seq<string>>, k: Measure)
    requires forall g :: g in names ==> g in config
    ensures Contributions(names, exports, config, k) == Weighted(names, exports, config, k)
  {
    if names == [] {
      NoGroups(exports, config, k);
    } else {
      RollupCountsMemberships(Front(names), exports, config, k);
      OneMoreGroup(names, exports, config, k);
      ContributionIsSum(InGroup(exports, config[Last(names)]), k);
    }
  }

  lemma {:induction false} NoGroups(exports: seq<SignedExport>, config: map<string, seq<string>>, k: Measure)
    ensures Weighted([], exports, config, k) == 0.0
  {
    if exports == [] {
    } else {
      NoGroups(Front(exports), config, k);
    }
  }

  lemma {:induction false} WeightedOnce(names: seq<string>, exports: seq<SignedExport>,
                                        config: map<string, seq<string>>, k: Measure)
    requires forall g :: g in names ==> g in config
    requires forall e :: e in exports ==> Memberships(names, config, e.username) == 1
    ensures Weighted(names, exports, config, k) == SumReal(exports, k.Of)
  {
    if exports == [] {
    } else {
      assert exports == Front(exports) + [Last(exports)];
      WeightedOnce(names, Front(exports), config, k);
      var x := k.Of(Last(exports));
      assert Times(0, x) == 0.0 && Times(1, x) == x;
    }
  }

  /** When the groups partition the users, group sums of events, sessions, tokens and cost are those of "all",
      and every ratio of "all" is the size-weighted mean of the groups'. */
  lemma {:induction false} RollupConserves(names: seq<string>, exports: seq<SignedExport>,
                                           config: map<string, seq<string>>, k: Measure)
    requires forall g :: g in names ==> g in config
    requires forall e :: e in exports ==> Memberships(names, config, e.username) == 1
    ensures Contributions(names, exports, config, k) == Contribution(exports, k)
  {
    RollupCountsMemberships(names, exports, config, k);
    WeightedOnce(names, exports, config, k);
    ContributionIsSum(exports, k);
  }

  /** One group more: its rollup shows what it contributes, and without exports there is none to show. */
  lemma {:induction false} OneMoreRollup(before: seq<Rollup>, name: string, members: seq<string>,
                                         group: seq<SignedExport>, k: Measure)
    requires k.IsAbsolute()
    ensures group == [] ==> Contribution(group, k) == 0.0
    ensures SumReal(before + [Rollup(name, "group", members, Merged(group))], k.OfRollup)
         == SumReal(before, k.OfRollup) + Contribution(group, k)
  {
    ContributionIsSum(group, k);
    RollupShows(before, Rollup(name, "group", members, Merged(group)), k);
  }

  lemma {:induction false} RollupShows(before: seq<Rollup>, r: Rollup, k: Measure)
    ensures SumReal(before + [r], k.OfRollup) == SumReal(before, k.OfRollup) + k.Value(r.metrics)
  {
    assert Front(before + [r]) == before;
  }

  lemma {:induction false} RollupsContribute(names: seq<string>, exports: seq<SignedExport>,
                                             config: map<string, seq<string>>, k: Measure)
    requires k.IsAbsolute() && forall g :: g in names ==> g in config
    ensures SumReal(GroupRollups(names, exports, config), k.OfRollup) == Contributions(names, exports, config, k)
  {
    if names == [] {
    } else {
      RollupsContribute(Front(names), exports, config, k);
      var before, group := GroupRollups(Front(names), exports, config), InGroup(exports, config[Last(names)]);
      OneMoreRollup(before, Last(names), config[Last(names)], group, k);
    }
  }

  /** So the totals that the rollups of the groups show add up to those shown for "all"; a group without exports,
      which has no rollup, is not missed. */
  lemma {:induction false} RollupsAddUp(names: seq<string>, exports: seq<SignedExport>,
                                        config: map<string, seq<string>>, k: Measure)
    requires IsNaming(names, config) && k.IsAbsolute()
    requires forall e :: e in exports ==> Memberships(names, config, e.username) == 1
    ensures SumReal(GroupRollups(names, exports, config), k.OfRollup) == k.OfRollup(AllRollup(exports))
  {
    RollupsContribute(names, exports, config, k);
    RollupConserves(names, exports, config, k);
  }
}
