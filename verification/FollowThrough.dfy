/** Follow-through: what became of each finding since it was first seen. */
module FollowThrough {
  import opened Wrappers
  import opened Grouping
  import opened MetricsEngine
  import opened Findings
  import opened Recommendations

  const SECOND := 1_000_000_000

  datatype Status = Improving | Regressing | Resolved

  datatype Record = Record(key: MetricKey, baselineValue: real, baselineTs: int, currentValue: real, status: Status)

  function RecordKey(r: Record): MetricKey { r.key }

  predicate IsImproving(key: MetricKey, baseline: real, current: real) {
    if key == CacheMiss then current > baseline else current < baseline
  }

  function MaybeSet(target: MetricKey, check: MetricKey, v: real): real {
    if target == check then v else 0.0
  }

  /** Metrics that are zero but for the one the finding looks at. */
  function Only(key: MetricKey, v: real): Metrics {
    NO_METRICS.(
      cacheHitRatio := MaybeSet(key, CacheMiss, v),
      reworkRatio := MaybeSet(key, Rework, v),
      premiumWasteShare := MaybeSet(key, PremiumWaste, v),
      coldRestartShare := MaybeSet(key, ColdRestart, v),
      contextBloatShare := MaybeSet(key, Bloat, v),
      thinkToCodeRatio := MaybeSet(key, ThinkOvercode, v),
      retryShare := MaybeSet(key, RetryLoop, v),
      costUsd := MaybeSet(key, HighCost, v))
  }

  predicate IsResolved(key: MetricKey, current: real) {
    key in FINDINGS && !Triggers(key, Only(key, current))
  }

  /** A finding counts as resolved on a metrics value exactly when it does not trigger on it;
      a key that is no finding never does. */
  lemma {:induction false} ResolvedMeansInactive(key: MetricKey, m: Metrics)
    ensures IsResolved(key, MetricValue(key, m)) <==> !key.OtherKey? && !Triggers(key, m)
  {
    FindingsAreAll(key);
  }

  /** The table keeps whole seconds. */
  function Stored(r: Record): Record {
    r.(baselineTs := r.baselineTs - r.baselineTs % SECOND)
  }

  function NewRecord(key: MetricKey, cur: real, now: int): Record {
    Record(key, cur, now, cur, Improving)
  }

  function StatusOf(key: MetricKey, baseline: real, cur: real): Status {
    if IsResolved(key, cur) then Resolved
    else if IsImproving(key, baseline, cur) then Improving
    else Regressing
  }

  /** What a sync makes of one active finding, given the stored records. */
  function Synced(table: map<MetricKey, Record>, key: MetricKey, m: Metrics, now: int): Record {
    var cur := MetricValue(key, m);
    if key !in table then NewRecord(key, cur, now)
    else Record(key, table[key].baselineValue, table[key].baselineTs, cur, StatusOf(key, table[key].baselineValue, cur))
  }

  function SyncAll(table: map<MetricKey, Record>, recs: seq<Recommendation>, m: Metrics, now: int): seq<Record> {
    if recs == [] then [] else SyncAll(table, Front(recs), m, now) + [Synced(table, Last(recs).key, m, now)]
  }

  function Upsert(table: map<MetricKey, Record>, records: seq<Record>): map<MetricKey, Record> {
    if records == [] then table else Upsert(table, Front(records))[Last(records).key := Stored(Last(records))]
  }

  /** How the repository behaves during one sync. */
  datatype Repo = LoadFails | UpsertFails | Works

  /** The loop of a transaction, on the table it sees. */
  method UpsertEach(table: map<MetricKey, Record>, records: seq<Record>) returns (pending: map<MetricKey, Record>)
    requires forall k :: k in table ==> table[k].key == k
    ensures pending == Upsert(table, records)
    ensures forall k :: k in pending ==> pending[k].key == k
  {
    pending := table;
    for i := 0 to |records|
      invariant pending == Upsert(table, records[..i])
      invariant forall k :: k in pending ==> pending[k].key == k
    {
      Snoc(records, i);
      pending := pending[records[i].key := Stored(records[i])];
    }
    assert records[..|records|] == records;
  }

  class FollowThroughStore {
    var table: map<MetricKey, Record>

    ghost predicate Valid()
      reads this
    {
      forall k :: k in table ==> table[k].key == k
    }

    constructor ()
      ensures Valid() && table == map[]
    {
      table := map[];
    }

    /** The rows, in any order. */
    method LoadRecords() returns (records: seq<Record>)
      requires Valid()
      ensures DistinctKeys(records, RecordKey)
      ensures forall r :: r in records <==> r.key in table && table[r.key] == r
    {
      records := [];
      var todo := table.Keys;
      while todo != {}
        invariant todo <= table.Keys
        invariant DistinctKeys(records, RecordKey)
        invariant forall r :: r in records <==> r.key in table.Keys - todo && table[r.key] == r
        decreases |todo|
      {
        var k :| k in todo;
        assert forall i :: 0 <= i < |records| ==> records[i] in records;
        records := records + [table[k]];
        todo := todo - {k};
      }
    }

    method UpsertRecords(records: seq<Record>, fails: bool) returns (failed: bool)
      requires Valid()
      modifies this
      ensures Valid()
      ensures failed <==> fails && records != []
      ensures table == if failed then old(table) else Upsert(old(table), records)
    {
      if |records| == 0 {
        return false;
      }
      var pending := UpsertEach(table, records);
      if fails {
        return true;
      }
      table := pending;
      return false;
    }
  }

  method Sync(store: FollowThroughStore, recs: seq<Recommendation>, m: Metrics, now: int, repo: Repo)
    returns (updated: Result<seq<Record>, ()>)
    requires store.Valid()
    modifies store
    ensures store.Valid()
    ensures store.table == AfterSync(old(store.table), Call(recs, m, now, repo))
    ensures updated
         == if SyncWorks(Call(recs, m, now, repo)) then Ok(SyncAll(old(store.table), recs, m, now)) else Err(())
  {
    if repo.LoadFails? {
      return Err(());
    }
    var stored := store.LoadRecords();
    var byKey := Index(stored);
    assert byKey == store.table;
    var records: seq<Record> := [];
    for i := 0 to |recs|
      invariant records == SyncAll(byKey, recs[..i], m, now)
      invariant store.table == old(store.table)
    {
      Snoc(recs, i);
      var key := recs[i].key;
      var cur := MetricValue(key, m);
      if key !in byKey {
        records := records + [NewRecord(key, cur, now)];
        continue;
      }
      var existing := byKey[key];
      var status := Regressing;
      if IsImproving(key, existing.baselineValue, cur) {
        status := Improving;
      }
      if IsResolved(key, cur) {
        status := Resolved;
      }
      records := records + [Record(key, existing.baselineValue, existing.baselineTs, cur, status)];
    }
    assert recs[..|recs|] == recs;
    SyncAllLength(byKey, recs, m, now);
    var failed := store.UpsertRecords(records, repo.UpsertFails?);
    updated := if failed then Err(()) else Ok(records);
  }

  method Index(records: seq<Record>) returns (byKey: map<MetricKey, Record>)
    requires DistinctKeys(records, RecordKey)
    ensures forall r :: r in records ==> r.key in byKey && byKey[r.key] == r
    ensures forall k :: k in byKey ==> byKey[k] in records && byKey[k].key == k
  {
    byKey := map[];
    for i := 0 to |records|
      invariant forall k :: k in byKey ==> byKey[k] in records && byKey[k].key == k
      invariant forall j :: 0 <= j < i ==> records[j].key in byKey
    {
      byKey := byKey[records[i].key := records[i]];
    }
    forall r | r in records
      ensures r.key in byKey && byKey[r.key] == r
    {
      assert RecordKey(byKey[r.key]) == RecordKey(r);
    }
  }

  lemma {:induction false} SyncAllLength(table: map<MetricKey, Record>, recs: seq<Recommendation>, m: Metrics, now: int)
    ensures |SyncAll(table, recs, m, now)| == |recs|
  {
    if recs == [] {
    } else {
      SyncAllLength(table, Front(recs), m, now);
    }
  }

  /* Whole runs */

  datatype Call = Call(recs: seq<Recommendation>, m: Metrics, now: int, repo: Repo)

  predicate SyncWorks(c: Call) {
    c.repo.Works? || (c.repo.UpsertFails? && c.recs == [])
  }

  function AfterSync(table: map<MetricKey, Record>, c: Call): map<MetricKey, Record> {
    if SyncWorks(c) then Upsert(table, SyncAll(table, c.recs, c.m, c.now)) else table
  }

  function RunSyncs(calls: seq<Call>): map<MetricKey, Record> {
    if calls == [] then map[] else AfterSync(RunSyncs(Front(calls)), Last(calls))
  }

  /** The finding is synced by this call. */
  predicate Syncs(c: Call, key: MetricKey) {
    SyncWorks(c) && key in KeysOf(c.recs)
  }

  /** The calls that synced a finding, in order. */
  function SyncsOf(calls: seq<Call>, key: MetricKey): seq<Call> {
    if calls == [] then []
    else if Syncs(Last(calls), key) then SyncsOf(Front(calls), key) + [Last(calls)]
    else SyncsOf(Front(calls), key)
  }

  lemma {:induction false} UpsertedValue(table: map<MetricKey, Record>, start: map<MetricKey, Record>,
                                         recs: seq<Recommendation>, m: Metrics, now: int, key: MetricKey)
    ensures
      var after := Upsert(start, SyncAll(table, recs, m, now));
      && (key in KeysOf(recs) ==> key in after && after[key] == Stored(Synced(table, key, m, now)))
      && (key !in KeysOf(recs) ==> (key in after <==> key in start) && (key in start ==> after[key] == start[key]))
  {
    if recs == [] {
    } else {
      UpsertedValue(table, start, Front(recs), m, now, key);
      UpsertSnoc(start, SyncAll(table, Front(recs), m, now), Synced(table, Last(recs).key, m, now));
      KeysOfSnoc(recs, key);
    }
  }

  lemma {:induction false} UpsertSnoc(start: map<MetricKey, Record>, before: seq<Record>, r: Record)
    ensures Upsert(start, before + [r]) == Upsert(start, before)[r.key := Stored(r)]
  {
    assert Front(before + [r]) == before;
  }

  lemma {:induction false} KeysOfSnoc(recs: seq<Recommendation>, key: MetricKey)
    requires recs != []
    ensures key in KeysOf(recs) <==> key in KeysOf(Front(recs)) || key == Last(recs).key
  {
    assert KeysOf(recs) == KeysOf(Front(recs)) + [Last(recs).key];
  }

  /** What is stored of a synced finding: the baseline it had, or its value and the second now. */
  lemma {:induction false} StoredFields(table: map<MetricKey, Record>, key: MetricKey, m: Metrics, now: int)
    requires key in table ==> table[key].baselineTs % SECOND == 0
    ensures
      var r := Stored(Synced(table, key, m, now));
      && r.key == key && r.currentValue == MetricValue(key, m)
      && r.baselineValue == (if key in table then table[key].baselineValue else MetricValue(key, m))
      && r.baselineTs == (if key in table then table[key].baselineTs else now - now % SECOND)
      && r.baselineTs % SECOND == 0
  {
    WholeSeconds(now);
  }

  lemma {:induction false} WholeSeconds(t: int)
    ensures (t - t % SECOND) % SECOND == 0
  {
    assert t - t % SECOND == t / SECOND * SECOND;
  }

  /** A finding is stored once it has been synced, and stays. Its baseline is the value and second of its first
      sync and never changes; its current value is that of its latest. */
  lemma {:induction false} RunKeepsBaselines(calls: seq<Call>, key: MetricKey)
    ensures key in RunSyncs(calls) <==> SyncsOf(calls, key) != []
    ensures
      var syncs := SyncsOf(calls, key);
      syncs != [] ==>
        var r := RunSyncs(calls)[key];
        && r.key == key
        && r.baselineValue == MetricValue(key, syncs[0].m)
        && r.baselineTs == syncs[0].now - syncs[0].now % SECOND && r.baselineTs % SECOND == 0
        && r.currentValue == MetricValue(key, Last(syncs).m)
  {
    if calls == [] {
    } else {
      var table, c := RunSyncs(Front(calls)), Last(calls);
      RunKeepsBaselines(Front(calls), key);
      if SyncWorks(c) {
        UpsertedValue(table, table, c.recs, c.m, c.now, key);
        StoredFields(table, key, c.m, c.now);
      }
    }
  }

  /** The recommendations of a call are those for its own metrics. */
  predicate FedByItsMetrics(c: Call) {
    forall k :: k in KeysOf(c.recs) ==> Triggers(k, c.m)
  }

  lemma {:induction false} SyncNeverResolves(table: map<MetricKey, Record>, recs: seq<Recommendation>, m: Metrics,
                                             now: int)
    requires forall k :: k in KeysOf(recs) ==> Triggers(k, m)
    ensures forall r :: r in SyncAll(table, recs, m, now) ==> r.status != Resolved
  {
    if recs == [] {
    } else {
      assert KeysOf(recs) == KeysOf(Front(recs)) + [Last(recs).key];
      SyncNeverResolves(table, Front(recs), m, now);
      ResolvedMeansInactive(Last(recs).key, m);
    }
  }

  /** A sync fed by Enrich of the same metrics never says "resolved". */
  lemma {:induction false} EnrichedSyncNeverResolves(table: map<MetricKey, Record>, recs: seq<Recommendation>,
                                                     m: Metrics, days: int, now: int)
    requires IsRanked(recs, m, days)
    ensures forall r :: r in SyncAll(table, recs, m, now) ==> r.status != Resolved
  {
    KeysAreActive(recs, m);
    SyncNeverResolves(table, recs, m, now);
  }

  /** So over whole runs no record of the table is ever resolved, however the metrics move. */
  lemma {:induction false} RunNeverResolves(calls: seq<Call>, key: MetricKey)
    requires forall c :: c in calls ==> FedByItsMetrics(c)
    requires key in RunSyncs(calls)
    ensures RunSyncs(calls)[key].status != Resolved
  {
    var table, c := RunSyncs(Front(calls)), Last(calls);
    assert calls == Front(calls) + [c];
    if SyncWorks(c) {
      UpsertedValue(table, table, c.recs, c.m, c.now, key);
      ResolvedMeansInactive(key, c.m);
      if key in KeysOf(c.recs) {
        assert FedByItsMetrics(c);
      } else {
        RunNeverResolves(Front(calls), key);
      }
    } else {
      RunNeverResolves(Front(calls), key);
    }
  }

  /* Which way a finding moves */

  function Distance(v: real, goal: real): real {
    if v < goal then goal - v else v - goal
  }

  /** The metric is nearer to the goal of its finding than it was. */
  predicate Nearer(key: MetricKey, before: real, after: real) {
    Distance(after, Goal(key)) < Distance(before, Goal(key))
  }

  function Moved(key: MetricKey, before: real, after: real): Status {
    if Nearer(key, before, after) then Improving else Regressing
  }

  /** A finding that was active and still is improves exactly when it is strictly nearer to its goal. */
  lemma {:induction false} StatusMeansNearer(key: MetricKey, before: Metrics, after: Metrics)
    requires Triggers(key, before) && Triggers(key, after)
    ensures StatusOf(key, MetricValue(key, before), MetricValue(key, after))
         == Moved(key, MetricValue(key, before), MetricValue(key, after))
  {
    ResolvedMeansInactive(key, after);
  }

  lemma {:induction false} SyncsAreCalls(calls: seq<Call>, key: MetricKey)
    ensures forall c :: c in SyncsOf(calls, key) <==> c in calls && Syncs(c, key)
  {
    if calls == [] {
    } else {
      assert calls == Front(calls) + [Last(calls)];
      SyncsAreCalls(Front(calls), key);
    }
  }

  /** Over whole runs: a finding synced once counts as improving; one synced again, by whether its latest value is
      nearer to the goal than its first. */
  lemma {:induction false} RunStatus(calls: seq<Call>, key: MetricKey)
    requires forall c :: c in calls ==> FedByItsMetrics(c)
    requires key in RunSyncs(calls)
    ensures
      var syncs := SyncsOf(calls, key);
      && syncs != []
      && RunSyncs(calls)[key].status
      == if |syncs| == 1 then Improving else Moved(key, MetricValue(key, syncs[0].m), MetricValue(key, Last(syncs).m))
  {
    RunKeepsBaselines(calls, key);
    var before, c := Front(calls), Last(calls);
    assert calls == before + [c];
    RunKeepsBaselines(before, key);
    if Syncs(c, key) {
      assert FedByItsMetrics(c);
      SyncedStatus(before, c, key);
    } else {
      if SyncWorks(c) {
        UpsertedValue(RunSyncs(before), RunSyncs(before), c.recs, c.m, c.now, key);
      }
      RunStatus(before, key);
    }
  }

  lemma {:induction false} SyncedStatus(before: seq<Call>, c: Call, key: MetricKey)
    requires forall b :: b in before ==> FedByItsMetrics(b)
    requires Syncs(c, key) && Triggers(key, c.m)
    ensures
      var syncs := SyncsOf(before, key);
      && key in RunSyncs(before + [c])
      && RunSyncs(before + [c])[key].status
      == if syncs == [] then Improving else Moved(key, MetricValue(key, syncs[0].m), MetricValue(key, c.m))
  {
    assert Front(before + [c]) == before;
    RunKeepsBaselines(before, key);
    UpsertedValue(RunSyncs(before), RunSyncs(before), c.recs, c.m, c.now, key);
    var syncs := SyncsOf(before, key);
    if syncs != [] {
      SyncsAreCalls(before, key);
      assert syncs[0] in syncs && FedByItsMetrics(syncs[0]);
      StatusMeansNearer(key, syncs[0].m, c.m);
    }
  }
}
