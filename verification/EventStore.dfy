/** The events table: UNIQUE(source, event_key), written by INSERT OR IGNORE inside one transaction a batch. */
module EventStore {
  import opened Grouping
  import opened Sorting
  import opened Usage
  import Strings

  /** How the database answers one batch; an insert can fail at any position of it. */
  datatype Tx = BeginFails | PrepareFails | InsertFails(at: nat) | CommitFails | Commits

  datatype Write = Write(batch: seq<Event>, tx: Tx)

  datatype Filter = Filter(project: string, source: string)

  function DedupKey(e: Event): (string, string) {
    (e.source, e.eventKey)
  }

  function Insert(rows: seq<Event>, e: Event): seq<Event> {
    if DedupKey(e) in Keys(rows, DedupKey) then rows else rows + [e]
  }

  function InsertAll(rows: seq<Event>, batch: seq<Event>): seq<Event> {
    if batch == [] then rows else Insert(InsertAll(rows, Front(batch)), Last(batch))
  }

  predicate Succeeds(w: Write) {
    w.batch == [] || w.tx.Commits? || (w.tx.InsertFails? && w.tx.at >= |w.batch|)
  }

  function After(rows: seq<Event>, w: Write): seq<Event> {
    if Succeeds(w) then InsertAll(rows, w.batch) else rows
  }

  /** A whole life of the table: one write after another. */
  function RunWrites(rows: seq<Event>, writes: seq<Write>): seq<Event> {
    if writes == [] then rows else After(RunWrites(rows, Front(writes)), Last(writes))
  }

  /** Everything the committed writes carried, in order. */
  function History(writes: seq<Write>): seq<Event> {
    if writes == [] then []
    else if Succeeds(Last(writes)) then History(Front(writes)) + Last(writes).batch
    else History(Front(writes))
  }

  /** The rows an insert loop finds new, one by one. */
  function NewRows(rows: seq<Event>, batch: seq<Event>): nat {
    if batch == [] then 0
    else
      NewRows(rows, Front(batch)) +
      if DedupKey(Last(batch)) in Keys(InsertAll(rows, Front(batch)), DedupKey) then 0 else 1
  }

  /** The count a write returns: also when it fails, what its loop had counted until then. */
  function Returned(rows: seq<Event>, w: Write): nat {
    match w.tx
    case BeginFails => 0
    case PrepareFails => 0
    case InsertFails(at) => NewRows(rows, if at < |w.batch| then w.batch[..at] else w.batch)
    case CommitFails => NewRows(rows, w.batch)
    case Commits => NewRows(rows, w.batch)
  }

  predicate Matches(filter: Filter, cutoff: string, e: Event) {
    && Strings.AtMost(cutoff, e.ts)
    && (filter.project == "" || e.project == filter.project)
    && (filter.source == "" || e.source == filter.source)
  }

  function Matching(rows: seq<Event>, filter: Filter, cutoff: string): seq<Event> {
    if rows == [] then []
    else if Matches(filter, cutoff, Last(rows)) then Matching(Front(rows), filter, cutoff) + [Last(rows)]
    else Matching(Front(rows), filter, cutoff)
  }

  predicate ByTimestamp(a: Event, b: Event) {
    Strings.AtMost(a.ts, b.ts)
  }

  /** The loop of a write, on the rows the transaction sees. */
  method InsertEach(rows: seq<Event>, events: seq<Event>, tx: Tx)
    returns (pending: seq<Event>, inserted: nat, failed: bool)
    requires DistinctKeys(rows, DedupKey)
    ensures failed <==> tx.InsertFails? && tx.at < |events|
    ensures
      var done := if failed then events[..tx.at] else events;
      pending == InsertAll(rows, done) && inserted == NewRows(rows, done) && DistinctKeys(pending, DedupKey)
  {
    pending, inserted := rows, 0;
    for i := 0 to |events|
      invariant pending == InsertAll(rows, events[..i]) && inserted == NewRows(rows, events[..i])
      invariant tx.InsertFails? ==> i <= tx.at
      invariant DistinctKeys(pending, DedupKey)
    {
      if tx == InsertFails(i) {
        return pending, inserted, true;
      }
      Snoc(events, i);
      InsertKeepsKeysDistinct(pending, events[i]);
      if DedupKey(events[i]) !in Keys(pending, DedupKey) {
        pending := pending + [events[i]];
        inserted := inserted + 1;
      }
    }
    assert events[..|events|] == events;
    failed := false;
  }

  class SqliteEventStore {
    var rows: seq<Event>

    ghost predicate Valid()
      reads this
    {
      DistinctKeys(rows, DedupKey)
    }

    constructor ()
      ensures Valid() && rows == []
    {
      rows := [];
    }

    method WriteEvents(events: seq<Event>, tx: Tx) returns (inserted: nat, failed: bool)
      requires Valid()
      modifies this
      ensures Valid()
      ensures rows == After(old(rows), Write(events, tx))
      ensures failed <==> !Succeeds(Write(events, tx))
      ensures inserted == Returned(old(rows), Write(events, tx))
    {
      if |events| == 0 {
        return 0, false;
      }
      if tx.BeginFails? || tx.PrepareFails? {
        return 0, true;
      }
      var pending;
      pending, inserted, failed := InsertEach(rows, events, tx);
      if failed || tx.CommitFails? {
        return inserted, true;
      }
      rows := pending;
    }

    method LoadEvents(filter: Filter, cutoff: string) returns (events: seq<Event>)
      requires Valid()
      ensures multiset(events) == multiset(Matching(rows, filter, cutoff))
      ensures forall e ::
        e in events <==>
        && e in rows && Strings.AtMost(cutoff, e.ts)
        && (e.project == filter.project || filter.project == "") && (e.source == filter.source || filter.source == "")
      ensures DistinctKeys(events, DedupKey)
      ensures forall i, j :: 0 <= i < j < |events| ==> Strings.AtMost(events[i].ts, events[j].ts)
    {
      var found: seq<Event> := [];
      for i := 0 to |rows|
        invariant found == Matching(rows[..i], filter, cutoff)
      {
        Snoc(rows, i);
        if Matches(filter, cutoff, rows[i]) {
          found := found + [rows[i]];
        }
      }
      assert rows[..|rows|] == rows;
      ByTimestampRanks();
      events := Sort(found, ByTimestamp);
      MatchingMembers(rows, filter, cutoff);
      SameMembers(events, found);
      DistinctKeysPermute(found, events);
      forall i, j | 0 <= i < j < |events|
        ensures Strings.AtMost(events[i].ts, events[j].ts)
      {
        assert ByTimestamp(events[i], events[j]);
      }
    }
  }

  lemma {:induction false} DistinctKeysPermute(xs: seq<Event>, ys: seq<Event>)
    requires DistinctKeys(xs, DedupKey) && multiset(xs) == multiset(ys)
    ensures DistinctKeys(ys, DedupKey)
  {
    assert Distinct(xs);
    DistinctPermutes(xs, ys);
    SameMembers(xs, ys);
    forall i, j | 0 <= i < j < |ys|
      ensures DedupKey(ys[i]) != DedupKey(ys[j])
    {
      assert ys[i] in xs && ys[j] in xs && ys[i] != ys[j];
    }
  }

  lemma {:induction false} ByTimestampRanks()
    ensures IsRanking(ByTimestamp)
  {
    forall a, b
      ensures ByTimestamp(a, b) || ByTimestamp(b, a)
    {
      Strings.AtMostIsTotal(a.ts, b.ts);
    }
    forall a, b, c | ByTimestamp(a, b) && ByTimestamp(b, c)
      ensures ByTimestamp(a, c)
    {
      Strings.AtMostIsTransitive(a.ts, b.ts, c.ts);
    }
  }

  lemma {:induction false} InsertKeepsKeysDistinct(rows: seq<Event>, e: Event)
    requires DistinctKeys(rows, DedupKey)
    ensures DistinctKeys(Insert(rows, e), DedupKey)
  {
    KeysMembers(rows, DedupKey);
  }

  /** The query returns the rows that pass the filter and no others. */
  lemma {:induction false} MatchingMembers(rows: seq<Event>, filter: Filter, cutoff: string)
    ensures forall e :: e in Matching(rows, filter, cutoff) <==> e in rows && Matches(filter, cutoff, e)
    ensures DistinctKeys(rows, DedupKey) ==> DistinctKeys(Matching(rows, filter, cutoff), DedupKey)
  {
    if rows == [] {
    } else {
      assert rows == Front(rows) + [Last(rows)];
      MatchingMembers(Front(rows), filter, cutoff);
      var before := Matching(Front(rows), filter, cutoff);
      assert forall i :: 0 <= i < |before| ==> before[i] in before && before[i] in Front(rows);
    }
  }

  /* The table over whole runs */

  lemma {:induction false} InsertAllSnoc(rows: seq<Event>, before: seq<Event>, e: Event)
    ensures InsertAll(rows, before + [e]) == Insert(InsertAll(rows, before), e)
  {
    assert Front(before + [e]) == before;
  }

  lemma {:induction false} InsertAllRegroups(rows: seq<Event>, a: seq<Event>, b: seq<Event>)
    ensures InsertAll(InsertAll(rows, a), b) == InsertAll(rows, a + b)
  {
    if b == [] {
      assert a + b == a;
    } else {
      assert a + b == (a + Front(b)) + [Last(b)];
      InsertAllRegroups(rows, a, Front(b));
      InsertAllSnoc(rows, a + Front(b), Last(b));
    }
  }

  /** A run of writes is one write of all that was committed: batch boundaries and failed batches leave no trace. */
  lemma {:induction false} RunIsOneWrite(rows: seq<Event>, writes: seq<Write>)
    ensures RunWrites(rows, writes) == InsertAll(rows, History(writes))
  {
    if writes == [] {
    } else {
      RunIsOneWrite(rows, Front(writes));
      InsertAllRegroups(rows, History(Front(writes)), Last(writes).batch);
    }
  }

  lemma {:induction false} InsertAllKeys(rows: seq<Event>, batch: seq<Event>)
    ensures Keys(InsertAll(rows, batch), DedupKey) == Keys(rows, DedupKey) + Keys(batch, DedupKey)
    ensures DistinctKeys(rows, DedupKey) ==> DistinctKeys(InsertAll(rows, batch), DedupKey)
    ensures rows <= InsertAll(rows, batch)
  {
    if batch == [] {
    } else {
      InsertAllKeys(rows, Front(batch));
      var before := InsertAll(rows, Front(batch));
      if DistinctKeys(before, DedupKey) {
        InsertKeepsKeysDistinct(before, Last(batch));
      }
      assert Front(before + [Last(batch)]) == before;
    }
  }

  function First<T>(xs: seq<T>): seq<T> {
    if xs == [] then [] else [xs[0]]
  }

  /** Per key the table holds the first event ever written under it, and nothing else. */
  lemma {:induction false} FirstWriteWins(rows: seq<Event>, batch: seq<Event>, k: (string, string))
    requires DistinctKeys(rows, DedupKey)
    ensures Select(InsertAll(rows, batch), DedupKey, k) == First(Select(rows + batch, DedupKey, k))
  {
    if batch == [] {
      assert rows + batch == rows;
      AtMostOnePerKey(rows, k);
    } else {
      var before, e := InsertAll(rows, Front(batch)), Last(batch);
      assert rows + batch == (rows + Front(batch)) + [e];
      FirstWriteWins(rows, Front(batch), k);
      SelectSnoc(rows + Front(batch), e, DedupKey, k);
      SelectSnoc(before, e, DedupKey, k);
      KeyOccurs(before, DedupKey, DedupKey(e));
    }
  }

  lemma {:induction false} AtMostOnePerKey(rows: seq<Event>, k: (string, string))
    requires DistinctKeys(rows, DedupKey)
    ensures Select(rows, DedupKey, k) == First(Select(rows, DedupKey, k))
  {
    if rows == [] {
    } else {
      AtMostOnePerKey(Front(rows), k);
      KeyOccurs(Front(rows), DedupKey, k);
      KeysMembers(Front(rows), DedupKey);
    }
  }

  /** The table of a whole run, from empty: first event ever committed under each key. */
  lemma {:induction false} RunKeepsFirstWrites(writes: seq<Write>, k: (string, string))
    ensures Select(RunWrites([], writes), DedupKey, k) == First(Select(History(writes), DedupKey, k))
    ensures DistinctKeys(RunWrites([], writes), DedupKey)
  {
    RunIsOneWrite([], writes);
    FirstWriteWins([], History(writes), k);
    InsertAllKeys([], History(writes));
    assert [] + History(writes) == History(writes);
  }

  /** The counts returned by the writes that succeed. */
  function Reported(rows: seq<Event>, writes: seq<Write>): nat {
    if writes == [] then 0
    else
      var before := RunWrites(rows, Front(writes));
      Reported(rows, Front(writes)) + if Succeeds(Last(writes)) then Returned(before, Last(writes)) else 0
  }

  lemma {:induction false} NewRowsAreGrowth(rows: seq<Event>, batch: seq<Event>)
    ensures |InsertAll(rows, batch)| == |rows| + NewRows(rows, batch)
  {
    if batch == [] {
    } else {
      NewRowsAreGrowth(rows, Front(batch));
    }
  }

  /** What a write returns, if it succeeds, is the number of rows it added. */
  lemma {:induction false} ReturnedIsGrowth(rows: seq<Event>, w: Write)
    requires Succeeds(w)
    ensures |After(rows, w)| == |rows| + Returned(rows, w)
  {
    NewRowsAreGrowth(rows, w.batch);
  }

  lemma {:induction false} ReportedCountsAddUp(rows: seq<Event>, writes: seq<Write>)
    ensures |RunWrites(rows, writes)| == |rows| + Reported(rows, writes)
  {
    if writes == [] {
    } else {
      ReportedCountsAddUp(rows, Front(writes));
      if Succeeds(Last(writes)) {
        ReturnedIsGrowth(RunWrites(rows, Front(writes)), Last(writes));
      }
    }
  }

  /** No key repeats in the batch, and none is stored. */
  ghost predicate AllNew(rows: seq<Event>, batch: seq<Event>) {
    DistinctKeys(batch, DedupKey) && Keys(batch, DedupKey) !! Keys(rows, DedupKey)
  }

  lemma {:induction false} AllNewSnoc(rows: seq<Event>, before: seq<Event>, e: Event)
    ensures AllNew(rows, before + [e])
       <==> AllNew(rows, before) && DedupKey(e) !in Keys(rows, DedupKey) + Keys(before, DedupKey)
  {
    KeysSnoc(before, e, DedupKey);
    KeysMembers(before, DedupKey);
    var batch := before + [e];
    assert forall i :: 0 <= i < |before| ==> before[i] == batch[i] && before[i] in before;
    assert batch[|before|] == e;
  }

  /** Every event of a batch adds a row, so that the number of events is the number of new rows,
      exactly when no key repeats in the batch and none is stored. */
  lemma {:induction false} AllAreNewExactlyWhen(rows: seq<Event>, batch: seq<Event>)
    ensures NewRows(rows, batch) <= |batch|
    ensures NewRows(rows, batch) == |batch| <==> AllNew(rows, batch)
  {
    if batch == [] {
    } else {
      var before, e := Front(batch), Last(batch);
      assert batch == before + [e];
      AllAreNewExactlyWhen(rows, before);
      InsertAllKeys(rows, before);
      AllNewSnoc(rows, before, e);
    }
  }

  /** Under every key both histories start with the same event, or neither has any. */
  ghost predicate SameFirsts(xs: seq<Event>, ys: seq<Event>) {
    forall k :: First(Select(xs, DedupKey, k)) == First(Select(ys, DedupKey, k))
  }

  /** Two histories fill an empty table alike, up to order, exactly when they have the same firsts. */
  lemma {:induction false} TablesAgreeExactlyWhen(xs: seq<Event>, ys: seq<Event>)
    ensures multiset(InsertAll([], xs)) == multiset(InsertAll([], ys)) <==> SameFirsts(xs, ys)
  {
    if multiset(InsertAll([], xs)) == multiset(InsertAll([], ys)) {
      forall k
        ensures First(Select(xs, DedupKey, k)) == First(Select(ys, DedupKey, k))
      {
        SameTableSameFirst(xs, ys, k);
      }
    }
    if SameFirsts(xs, ys) {
      SameFirstsSameTable(xs, ys);
    }
  }

  /** So a whole run of writes leaves the table of one batch exactly when what was committed has the batch's firsts. */
  lemma {:induction false} RunAgreesExactlyWhen(writes: seq<Write>, batch: seq<Event>)
    ensures multiset(RunWrites([], writes)) == multiset(InsertAll([], batch)) <==> SameFirsts(History(writes), batch)
  {
    RunIsOneWrite([], writes);
    TablesAgreeExactlyWhen(History(writes), batch);
  }

  lemma {:induction false} SameTableSameFirst(xs: seq<Event>, ys: seq<Event>, k: (string, string))
    requires multiset(InsertAll([], xs)) == multiset(InsertAll([], ys))
    ensures First(Select(xs, DedupKey, k)) == First(Select(ys, DedupKey, k))
  {
    TableOf(xs, k);
    TableOf(ys, k);
    SelectPermutation(InsertAll([], xs), InsertAll([], ys), DedupKey, k);
    AtMostOne(First(Select(xs, DedupKey, k)), First(Select(ys, DedupKey, k)));
  }

  lemma {:induction false} SameFirstsSameTable(xs: seq<Event>, ys: seq<Event>)
    requires SameFirsts(xs, ys)
    ensures multiset(InsertAll([], xs)) == multiset(InsertAll([], ys))
  {
    var table, other := InsertAll([], xs), InsertAll([], ys);
    forall k
      ensures Select(table, DedupKey, k) == Select(other, DedupKey, k)
    {
      TableOf(xs, k);
      TableOf(ys, k);
      assert First(Select(xs, DedupKey, k)) == First(Select(ys, DedupKey, k));
    }
    SameGroupsPermute(table, other, DedupKey);
  }

  lemma {:induction false} TableOf(xs: seq<Event>, k: (string, string))
    ensures Select(InsertAll([], xs), DedupKey, k) == First(Select(xs, DedupKey, k))
  {
    FirstWriteWins([], xs, k);
    assert [] + xs == xs;
  }

  lemma {:induction false} AtMostOne(xs: seq<Event>, ys: seq<Event>)
    requires |xs| <= 1 && |ys| <= 1 && multiset(xs) == multiset(ys)
    ensures xs == ys
  {
    assert |xs| == |multiset(xs)| == |ys|;
    if xs != [] {
      assert xs[0] in multiset(ys);
    }
  }

  /** Writing again what has been written changes nothing. */
  lemma {:induction false} RewriteIsHarmless(rows: seq<Event>, batch: seq<Event>)
    requires Keys(batch, DedupKey) <= Keys(rows, DedupKey)
    ensures InsertAll(rows, batch) == rows
  {
    if batch == [] {
    } else {
      RewriteIsHarmless(rows, Front(batch));
    }
  }

  /** A batch without repeated keys goes into an empty table as it is. */
  lemma {:induction false} FreshWrite(batch: seq<Event>)
    requires DistinctKeys(batch, DedupKey)
    ensures InsertAll([], batch) == batch
  {
    if batch == [] {
    } else {
      FreshWrite(Front(batch));
      KeysMembers(Front(batch), DedupKey);
    }
  }
}
