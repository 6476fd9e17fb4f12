/** Collection runs: the adapters' events go into the table again and again, and repeats are harmless. */
module Collection {
  import opened Wrappers
  import opened Grouping
  import opened Usage
  import opened CodexAdapter
  import opened EventStore

  /* The handler */

  /** How one adapter ended: with an error, or with its events. */
  datatype AdapterRun = Failed(source: string) | Collected(events: seq<Event>, result: CollectResult)

  predicate Selected(run: AdapterRun, source: string) {
    run.Collected? && (source == "" || run.result.source == source)
  }

  function AllRaw(runs: seq<AdapterRun>, source: string): seq<Event> {
    if runs == [] then []
    else if Selected(Last(runs), source) then AllRaw(Front(runs), source) + Last(runs).events
    else AllRaw(Front(runs), source)
  }

  function Results(runs: seq<AdapterRun>, source: string): seq<CollectResult> {
    if runs == [] then []
    else if Selected(Last(runs), source) then Results(Front(runs), source) + [Last(runs).result]
    else Results(Front(runs), source)
  }

  method Handle(runs: seq<AdapterRun>, source: string, store: SqliteEventStore, tx: Tx)
    returns (outcome: Result<seq<CollectResult>, ()>)
    requires store.Valid()
    modifies store
    ensures store.Valid()
    ensures store.rows == After(old(store.rows), Write(AllRaw(runs, source), tx))
    ensures outcome == if Succeeds(Write(AllRaw(runs, source), tx)) then Ok(Results(runs, source)) else Err(())
  {
    var allRaw: seq<Event>, results: seq<CollectResult> := [], [];
    for i := 0 to |runs|
      invariant allRaw == AllRaw(runs[..i], source) && results == Results(runs[..i], source)
      invariant store.rows == old(store.rows)
    {
      Snoc(runs, i);
      if runs[i].Failed? {
        continue;
      }
      if source != "" && runs[i].result.source != source {
        continue;
      }
      allRaw := allRaw + runs[i].events;
      results := results + [runs[i].result];
    }
    assert runs[..|runs|] == runs;
    if |allRaw| > 0 {
      var _, failed := store.WriteEvents(allRaw, tx);
      if failed {
        return Err(());
      }
    }
    outcome := Ok(results);
  }

  lemma {:induction false} AllRawAppend(xs: seq<AdapterRun>, ys: seq<AdapterRun>, source: string)
    ensures AllRaw(xs + ys, source) == AllRaw(xs, source) + AllRaw(ys, source)
    ensures Results(xs + ys, source) == Results(xs, source) + Results(ys, source)
  {
    if ys == [] {
      assert xs + ys == xs;
    } else {
      var before, run := Front(ys), Last(ys);
      assert Front(xs + ys) == xs + before && Last(xs + ys) == run;
      AllRawAppend(xs, before, source);
      if Selected(run, source) {
        assert AllRaw(xs, source) + (AllRaw(before, source) + run.events)
            == (AllRaw(xs, source) + AllRaw(before, source)) + run.events;
      }
    }
  }

  /** Without a source everything that did not fail is written and reported; with one, what ran under that source,
      and nothing else. */
  lemma {:induction false} OneRunMore(before: seq<AdapterRun>, run: AdapterRun, source: string)
    ensures
      var written := run.Collected? && (run.result.source == source || source == "");
      && AllRaw(before + [run], source) == AllRaw(before, source) + (if written then run.events else [])
      && Results(before + [run], source) == Results(before, source) + (if written then [run.result] else [])
  {
    assert Front(before + [run]) == before;
  }

  /** An adapter that fails, or is not asked for, costs the others nothing. */
  lemma {:induction false} FailSoft(before: seq<AdapterRun>, run: AdapterRun, after: seq<AdapterRun>, source: string)
    requires !Selected(run, source)
    ensures AllRaw(before + [run] + after, source) == AllRaw(before + after, source)
    ensures Results(before + [run] + after, source) == Results(before + after, source)
  {
    assert Front([run]) == [];
    AllRawAppend(before + [run], after, source);
    AllRawAppend(before, [run], source);
    AllRawAppend(before, after, source);
  }

  /** What a run writes for Codex is what the Codex adapter collected, whatever the others emit under their names. */
  lemma {:induction false} HandlerCarriesCodex(before: seq<AdapterRun>, codex: AdapterRun, after: seq<AdapterRun>,
                                               source: string)
    requires Selected(codex, source)
    requires Select(codex.events, SourceOf, SOURCE_CODEX) == codex.events
    requires Select(AllRaw(before + after, source), SourceOf, SOURCE_CODEX) == []
    ensures Select(AllRaw(before + [codex] + after, source), SourceOf, SOURCE_CODEX) == codex.events
  {
    assert Front([codex]) == [];
    AllRawAppend(before + [codex], after, source);
    AllRawAppend(before, [codex], source);
    AllRawAppend(before, after, source);
    AddedToNone(AllRaw(before, source), codex.events, AllRaw(after, source));
    assert AllRaw([codex], source) == codex.events;
  }

  lemma {:induction false} AddedToNone(b: seq<Event>, codex: seq<Event>, a: seq<Event>)
    requires Select(b + a, SourceOf, SOURCE_CODEX) == []
    ensures Select(b + codex + a, SourceOf, SOURCE_CODEX) == Select(codex, SourceOf, SOURCE_CODEX)
  {
    SelectAppend(b, a, SourceOf, SOURCE_CODEX);
    SelectAppend(b + codex, a, SourceOf, SOURCE_CODEX);
    SelectAppend(b, codex, SourceOf, SOURCE_CODEX);
  }

  /** The Codex adapter emits under its own source only. */
  lemma {:induction false} TurnsAreCodex(a: Adapter, log: seq<CodexEvent>)
    ensures Select(Turns(a, log), SourceOf, SOURCE_CODEX) == Turns(a, log)
  {
    if log == [] {
    } else {
      TurnsAreCodex(a, Front(log));
      SelectSnoc(Turns(a, Front(log)), Turn(a, Select(Front(log), LogSession, Last(log).sessionId), Last(log)),
                 SourceOf, SOURCE_CODEX);
    }
  }

  /** A whole collection: the Codex adapter reads its directory, and the handler writes what it emits between what
      other adapters do. The run that this amounts to writes its log. */
  method CollectAndStore(a: Adapter, dir: Option<seq<WalkEntry>>, before: seq<AdapterRun>, after: seq<AdapterRun>,
                         store: SqliteEventStore, tx: Tx)
    returns (outcome: Result<seq<CollectResult>, ()>, ghost run: Run)
    requires store.Valid() && Select(AllRaw(before + after, ""), SourceOf, SOURCE_CODEX) == []
    modifies store
    ensures store.Valid()
    ensures run.log == Walked(dir.GetOr([])) && WritesItsLog(a, run)
    ensures store.rows == After(old(store.rows), run.write)
    ensures outcome.Ok? <==> Succeeds(run.write)
  {
    var events, result := Collect(a, dir);
    TurnsAreCodex(a, Walked(dir.GetOr([])));
    var codex := Collected(events, result);
    HandlerCarriesCodex(before, codex, after, "");
    run := Run(Walked(dir.GetOr([])), Write(AllRaw(before + [codex] + after, ""), tx));
    outcome := Handle(before + [codex] + after, "", store, tx);
  }

  /* The count that is printed */

  function InsertedOf(r: CollectResult): int { r.inserted }

  /** Every adapter reports the number of events it emits as inserted. */
  ghost predicate ReportsItsEvents(run: AdapterRun) {
    run.Collected? ==> run.result.inserted == |run.events|
  }

  lemma {:induction false} PrintedIsBatchSize(runs: seq<AdapterRun>, source: string)
    requires forall run :: run in runs ==> ReportsItsEvents(run)
    ensures Sum(Results(runs, source), InsertedOf) == |AllRaw(runs, source)|
  {
    if runs == [] {
    } else {
      assert runs == Front(runs) + [Last(runs)] && Last(runs) in runs;
      assert ReportsItsEvents(Last(runs));
      PrintedIsBatchSize(Front(runs), source);
      if Selected(Last(runs), source) {
        assert Front(Results(Front(runs), source) + [Last(runs).result]) == Results(Front(runs), source);
      }
    }
  }

  /** The sum printed as new events is the number of rows added exactly when the batch repeats no key
      and none of its keys is stored; otherwise it is greater. */
  lemma {:induction false} PrintedIsInsertedExactlyWhen(rows: seq<Event>, runs: seq<AdapterRun>, source: string, tx: Tx)
    requires forall run :: run in runs ==> ReportsItsEvents(run)
    requires Succeeds(Write(AllRaw(runs, source), tx))
    ensures
      var printed, batch := Sum(Results(runs, source), InsertedOf), AllRaw(runs, source);
      var added := |After(rows, Write(batch, tx))| - |rows|;
      added <= printed && (added == printed <==> AllNew(rows, batch))
  {
    PrintedIsBatchSize(runs, source);
    NewRowsAreGrowth(rows, AllRaw(runs, source));
    AllAreNewExactlyWhen(rows, AllRaw(runs, source));
  }

  /** Every log collected a second time adds no row, though the adapter reports all its turns again:
      for a log of one record, one against none. */
  lemma {:induction false} SecondRunAddsNothing(a: Adapter, rows: seq<Event>, log: seq<CodexEvent>)
    ensures NewRows(InsertAll(rows, Turns(a, log)), Turns(a, log)) == 0
    ensures |Turns(a, [Line("e", "s", 5)])| == 1
  {
    var once := InsertAll(rows, Turns(a, log));
    InsertAllKeys(rows, Turns(a, log));
    RewriteIsHarmless(once, Turns(a, log));
    NewRowsAreGrowth(once, Turns(a, log));
    TurnsOfOne(a, Line("e", "s", 5));
  }

  /* Incremental runs against one fresh run */

  /** One collection: the Codex log it walked, and the batch it wrote. */
  datatype Run = Run(log: seq<CodexEvent>, write: Write)

  function Writes(runs: seq<Run>): seq<Write> {
    seq(|runs|, i requires 0 <= i < |runs| => runs[i].write)
  }

  /** The Codex part of the batch is what the adapter made of the log. */
  ghost predicate WritesItsLog(a: Adapter, run: Run) {
    Select(run.write.batch, SourceOf, SOURCE_CODEX) == Turns(a, run.log)
  }

  /** Each session's new lines come after its old ones; sessions and files may interleave anew. */
  ghost predicate GrowsInto(old_: seq<CodexEvent>, new_: seq<CodexEvent>) {
    forall s :: Select(old_, LogSession, s) <= Select(new_, LogSession, s)
  }

  function CodexRows(rows: seq<Event>): seq<Event> {
    Select(rows, SourceOf, SOURCE_CODEX)
  }

  /** A turn is never revised: growth keeps every turn already collected as it was. */
  lemma {:induction false} TurnsSurviveGrowth(a: Adapter, old_: seq<CodexEvent>, new_: seq<CodexEvent>)
    requires GrowsInto(old_, new_)
    ensures forall t :: t in Turns(a, old_) ==> t in Turns(a, new_)
  {
    forall t | t in Turns(a, old_)
      ensures t in Turns(a, new_)
    {
      var i := TurnFrom(a, old_, t);
      var e := old_[i];
      var history := Select(old_[..i], LogSession, e.sessionId);
      Snoc(old_, i);
      SelectPrefix(old_, i + 1, LogSession, e.sessionId);
      assert Select(old_[..i + 1], LogSession, e.sessionId) == history + [e];
      var group := Select(new_, LogSession, e.sessionId);
      assert history + [e] <= group;
      assert group[|history|] == e && group[..|history|] == history;
      var j := Locate(new_, LogSession, e.sessionId, |history|);
      TurnAt(a, new_, j);
    }
  }

  /** Unique record ids give the turns distinct keys. */
  lemma {:induction false} TurnsHaveDistinctKeys(a: Adapter, log: seq<CodexEvent>)
    requires DistinctKeys(log, LogId)
    ensures DistinctKeys(Turns(a, log), DedupKey)
    ensures forall t :: t in Turns(a, log) ==> t.source == SOURCE_CODEX
    ensures forall t :: t in Turns(a, log) ==> exists e :: e in log && e.id == t.eventKey
  {
    if log == [] {
    } else {
      assert log == Front(log) + [Last(log)];
      TurnsHaveDistinctKeys(a, Front(log));
      var before := Turns(a, Front(log));
      assert forall i :: 0 <= i < |before| ==> before[i] in before;
    }
  }

  lemma {:induction false} InsertAllMembers(rows: seq<Event>, batch: seq<Event>)
    ensures forall e :: e in InsertAll(rows, batch) ==> e in rows || e in batch
  {
    if batch == [] {
    } else {
      assert batch == Front(batch) + [Last(batch)];
      InsertAllMembers(rows, Front(batch));
    }
  }

  /** Every Codex row a run of collections leaves is a turn of the final log. */
  lemma {:induction false} CodexRowsAreTurns(a: Adapter, rows: seq<Event>, runs: seq<Run>, final: seq<CodexEvent>)
    requires CodexRows(rows) == []
    requires forall r :: r in runs ==> WritesItsLog(a, r) && GrowsInto(r.log, final)
    ensures forall e :: e in RunWrites(rows, Writes(runs)) && e.source == SOURCE_CODEX ==> e in Turns(a, final)
  {
    if runs == [] {
      SelectMembers(rows, SourceOf, SOURCE_CODEX);
    } else {
      var r := Last(runs);
      assert runs == Front(runs) + [r];
      CodexRowsAreTurns(a, rows, Front(runs), final);
      assert Front(Writes(runs)) == Writes(Front(runs));
      InsertAllMembers(RunWrites(rows, Writes(Front(runs))), r.write.batch);
      SelectMembers(r.write.batch, SourceOf, SOURCE_CODEX);
      TurnsSurviveGrowth(a, r.log, final);
    }
  }

  lemma {:induction false} SameMembersPermute(xs: seq<Event>, ys: seq<Event>)
    requires DistinctKeys(xs, DedupKey) && DistinctKeys(ys, DedupKey)
    requires forall e :: e in xs <==> e in ys
    ensures multiset(xs) == multiset(ys)
  {
    forall e: Event
      ensures multiset(xs)[e] == multiset(ys)[e]
    {
      Multiplicity(xs, e);
      Multiplicity(ys, e);
    }
  }

  lemma {:induction false} Multiplicity(xs: seq<Event>, e: Event)
    requires DistinctKeys(xs, DedupKey)
    ensures multiset(xs)[e] == if e in xs then 1 else 0
  {
    if xs == [] {
    } else {
      assert xs == Front(xs) + [Last(xs)];
      Multiplicity(Front(xs), e);
    }
  }

  lemma {:induction false} DistinctInGroup(xs: seq<Event>, source: string)
    requires DistinctKeys(xs, DedupKey)
    ensures DistinctKeys(Select(xs, SourceOf, source), DedupKey)
  {
    if xs == [] {
    } else {
      DistinctInGroup(Front(xs), source);
      SelectMembers(Front(xs), SourceOf, source);
      var before := Select(Front(xs), SourceOf, source);
      assert forall i :: 0 <= i < |before| ==> before[i] in before && before[i] in Front(xs);
    }
  }

  /** An event whose key is in the table is in it, if all rows under that key are among the same turns. */
  lemma {:induction false} HasRow(rows: seq<Event>, turns: seq<Event>, t: Event)
    requires DistinctKeys(turns, DedupKey) && t in turns && DedupKey(t) in Keys(rows, DedupKey)
    requires forall e :: e in rows && DedupKey(e) == DedupKey(t) ==> e in turns
    ensures t in rows
  {
    KeysMembers(rows, DedupKey);
    var e :| e in rows && DedupKey(e) == DedupKey(t);
    KeyDecides(turns, e, t);
  }

  /** Codex rows that are all turns of a log, in a table with all of the log's keys, are the turns up to order. */
  lemma {:induction false} CodexRowsMatch(rows: seq<Event>, turns: seq<Event>)
    requires DistinctKeys(rows, DedupKey) && DistinctKeys(turns, DedupKey)
    requires forall t :: t in turns ==> t.source == SOURCE_CODEX
    requires forall e :: e in rows && e.source == SOURCE_CODEX ==> e in turns
    requires Keys(turns, DedupKey) <= Keys(rows, DedupKey)
    ensures multiset(CodexRows(rows)) == multiset(turns)
  {
    SelectMembers(rows, SourceOf, SOURCE_CODEX);
    DistinctInGroup(rows, SOURCE_CODEX);
    forall t | t in turns
      ensures t in CodexRows(rows)
    {
      KeyIsIn(turns, t);
      HasRow(rows, turns, t);
    }
    SameMembersPermute(CodexRows(rows), turns);
  }

  lemma {:induction false} KeyDecides(xs: seq<Event>, x: Event, y: Event)
    requires DistinctKeys(xs, DedupKey) && x in xs && y in xs && DedupKey(x) == DedupKey(y)
    ensures x == y
  {
  }

  /** Any history of collections over a growing log, with failed writes and other sources in between,
      leaves the same Codex rows as one collection of the final log into an empty table. */
  lemma {:induction false} IncrementalEqualsFresh(a: Adapter, rows: seq<Event>, runs: seq<Run>)
    requires DistinctKeys(rows, DedupKey) && CodexRows(rows) == []
    requires runs != [] && Succeeds(Last(runs).write)
    requires forall r :: r in runs ==> WritesItsLog(a, r) && GrowsInto(r.log, Last(runs).log)
    requires DistinctKeys(Last(runs).log, LogId)
    ensures DistinctKeys(RunWrites(rows, Writes(runs)), DedupKey)
    ensures multiset(CodexRows(RunWrites(rows, Writes(runs)))) == multiset(InsertAll([], Turns(a, Last(runs).log)))
  {
    var final := Last(runs);
    var table, turns := RunWrites(rows, Writes(runs)), Turns(a, final.log);
    CodexRowsAreTurns(a, rows, runs, final.log);
    TurnsHaveDistinctKeys(a, final.log);
    FreshWrite(turns);
    RunIsOneWrite(rows, Writes(runs));
    InsertAllKeys(rows, History(Writes(runs)));
    InsertAllKeys(RunWrites(rows, Front(Writes(runs))), final.write.batch);
    SelectKeys(final.write.batch, SourceOf, SOURCE_CODEX, DedupKey);
    CodexRowsMatch(table, turns);
  }

  /** Nothing is lost and nothing counted twice, over the whole history: a session's rows add up to what its
      counters say. */
  lemma {:induction false} IncrementalConservesTokens(a: Adapter, rows: seq<Event>, runs: seq<Run>, session: string)
    requires DistinctKeys(rows, DedupKey) && CodexRows(rows) == []
    requires runs != [] && Succeeds(Last(runs).write)
    requires forall r :: r in runs ==> WritesItsLog(a, r) && GrowsInto(r.log, Last(runs).log)
    requires DistinctKeys(Last(runs).log, LogId) && CountersNonNegative(Last(runs).log)
    ensures
      var stored := Select(CodexRows(RunWrites(rows, Writes(runs))), SessionOf, session);
      && Sum(stored, Input) == Used(Last(runs).log, session, TotalInput)
      && Sum(stored, Output) == Used(Last(runs).log, session, TotalOutput)
  {
    IncrementalEqualsFresh(a, rows, runs);
    var turns := Turns(a, Last(runs).log);
    TurnsHaveDistinctKeys(a, Last(runs).log);
    FreshWrite(turns);
    var stored := CodexRows(RunWrites(rows, Writes(runs)));
    SelectPermutation(stored, turns, SessionOf, session);
    SumPermutation(Select(stored, SessionOf, session), Select(turns, SessionOf, session), Input);
    SumPermutation(Select(stored, SessionOf, session), Select(turns, SessionOf, session), Output);
    TokensConserved(a, Last(runs).log, session);
  }

  /* What the hypotheses are for */

  /** The place of the first record with an id that is not skipped. */
  function FirstEmitted(log: seq<CodexEvent>, id: string): (r: Option<nat>)
    ensures r.Some? ==> r.value < |log| && log[r.value].id == id && !IsSkipped(HistoryAt(log, r.value), log[r.value])
  {
    if log == [] then None
    else
      var before, i := FirstEmitted(Front(log), id), |log| - 1;
      assert log[..i] == Front(log);
      assert before.Some? ==> Front(log)[..before.value] == log[..before.value];
      if before.Some? then before
      else if log[i].id == id && !IsSkipped(HistoryAt(log, i), log[i]) then Some(i)
      else None
  }

  /** The records agree in everything an event takes from them: the deltas against the records before them included. */
  predicate SameRecord(a: Adapter, h: seq<CodexEvent>, e: CodexEvent, g: seq<CodexEvent>, f: CodexEvent) {
    && e.sessionId == f.sessionId && e.project == f.project && e.model == f.model && e.tools == f.tools
    && e.isError == f.isError && a.formatMillis(e.timestampMs) == a.formatMillis(f.timestampMs)
    && Growth(h, e, TotalInput) == Growth(g, f, TotalInput)
    && Growth(h, e, TotalOutput) == Growth(g, f, TotalOutput)
  }

  /** If the old log emits anything under an id, the new one does, and first of all the same. */
  predicate StartsAlike(a: Adapter, old_: seq<CodexEvent>, new_: seq<CodexEvent>, id: string) {
    match (FirstEmitted(old_, id), FirstEmitted(new_, id))
    case (None, _) => true
    case (Some(_), None) => false
    case (Some(i), Some(j)) => SameRecord(a, HistoryAt(old_, i), old_[i], HistoryAt(new_, j), new_[j])
  }

  /** The events of a log under one key begin with that of the first record emitted under the id. */
  lemma {:induction false} FirstTurn(a: Adapter, log: seq<CodexEvent>, id: string)
    ensures First(Select(Turns(a, log), DedupKey, (SOURCE_CODEX, id)))
         == match FirstEmitted(log, id)
            case None => []
            case Some(i) => [Turn(a, HistoryAt(log, i), log[i])]
  {
    if log == [] {
    } else {
      var before, e := Front(log), Last(log);
      assert log == before + [e];
      FirstTurn(a, before, id);
      TurnsSnoc(a, before, e);
      FirstSnoc(Turns(a, before), Turn(a, Select(before, LogSession, e.sessionId), e), (SOURCE_CODEX, id));
      FirstEmittedSnoc(before, e, id);
    }
  }

  lemma {:induction false} FirstSnoc(turns: seq<Event>, t: Event, k: (string, string))
    ensures First(Select(turns + [t], DedupKey, k))
         == if First(Select(turns, DedupKey, k)) == [] && DedupKey(t) == k then [t]
            else First(Select(turns, DedupKey, k))
  {
    SelectSnoc(turns, t, DedupKey, k);
  }

  lemma {:induction false} FirstEmittedSnoc(before: seq<CodexEvent>, e: CodexEvent, id: string)
    ensures
      var history := Select(before, LogSession, e.sessionId);
      && HistoryAt(before + [e], |before|) == history
      && FirstEmitted(before + [e], id)
      == if FirstEmitted(before, id).None? && e.id == id && !IsSkipped(history, e) then Some(|before|)
         else FirstEmitted(before, id)
    ensures forall i :: 0 <= i < |before| ==> HistoryAt(before + [e], i) == HistoryAt(before, i)
  {
    assert Front(before + [e]) == before && (before + [e])[..|before|] == before;
    assert forall i :: 0 <= i < |before| ==> (before + [e])[..i] == before[..i];
  }

  lemma {:induction false} OtherKeysUnused(a: Adapter, log: seq<CodexEvent>, k: (string, string))
    requires k.0 != SOURCE_CODEX
    ensures Select(Turns(a, log), DedupKey, k) == []
  {
    SelectMembers(Turns(a, log), DedupKey, k);
    TurnsAreCodex(a, log);
    SelectMembers(Turns(a, log), SourceOf, SOURCE_CODEX);
    var group := Select(Turns(a, log), DedupKey, k);
    assert group != [] ==> group[0] in group && group[0].source == SOURCE_CODEX;
  }

  /** Under one key, what was written first prevails over what a fresh run would write unless there is nothing,
      or the same. */
  lemma {:induction false} FirstOfBoth(a: Adapter, old_: seq<CodexEvent>, new_: seq<CodexEvent>, id: string)
    ensures
      var k := (SOURCE_CODEX, id);
      First(Select(Turns(a, old_) + Turns(a, new_), DedupKey, k)) == First(Select(Turns(a, new_), DedupKey, k))
      <==> StartsAlike(a, old_, new_, id)
  {
    SelectAppend(Turns(a, old_), Turns(a, new_), DedupKey, (SOURCE_CODEX, id));
    FirstTurn(a, old_, id);
    FirstTurn(a, new_, id);
  }

  /** For all logs: a collection of the old log and then of the new one leave the table of one collection of the new
      log exactly when, under every id, whatever the old log emits first the new log emits first too. */
  lemma {:induction false} TwoRunsAgreeExactly(a: Adapter, old_: seq<CodexEvent>, new_: seq<CodexEvent>)
    ensures multiset(InsertAll(InsertAll([], Turns(a, old_)), Turns(a, new_)))
         == multiset(InsertAll([], Turns(a, new_)))
       <==> forall id :: StartsAlike(a, old_, new_, id)
  {
    var o, n := Turns(a, old_), Turns(a, new_);
    InsertAllRegroups([], o, n);
    TablesAgreeExactlyWhen(o + n, n);
    forall k: (string, string)
      ensures First(Select(o + n, DedupKey, k)) == First(Select(n, DedupKey, k))
         <==> (k.0 == SOURCE_CODEX ==> StartsAlike(a, old_, new_, k.1))
    {
      if k.0 == SOURCE_CODEX {
        FirstOfBoth(a, old_, new_, k.1);
      } else {
        OtherKeysUnused(a, old_, k);
        OtherKeysUnused(a, new_, k);
        SelectAppend(o, n, DedupKey, k);
      }
    }
    AlikeUnderEveryKey(a, old_, new_);
  }

  /** A condition on ids is one on the keys of the Codex source. */
  lemma {:induction false} AlikeUnderEveryKey(a: Adapter, old_: seq<CodexEvent>, new_: seq<CodexEvent>)
    ensures (forall id :: StartsAlike(a, old_, new_, id))
       <==> forall k: (string, string) :: k.0 == SOURCE_CODEX ==> StartsAlike(a, old_, new_, k.1)
  {
    if forall k: (string, string) :: k.0 == SOURCE_CODEX ==> StartsAlike(a, old_, new_, k.1) {
      forall id
        ensures StartsAlike(a, old_, new_, id)
      {
        assert (SOURCE_CODEX, id).1 == id;
      }
    }
  }

  lemma {:induction false} KeyIsIn(xs: seq<Event>, t: Event)
    requires t in xs
    ensures DedupKey(t) in Keys(xs, DedupKey)
  {
    KeysMembers(xs, DedupKey);
  }

  function Line(id: string, session: string, total: int): CodexEvent {
    CodexEvent(id, "m", "p", session, 0, total, 0, [], false)
  }

  lemma {:induction false} TurnsOfOne(a: Adapter, e: CodexEvent)
    requires e.totalInput > 0 && e.totalOutput == 0
    ensures Turns(a, [e]) == [Turn(a, [], e)]
  {
    assert Front([e]) == [];
    assert Turn(a, [], e).inputTokens == e.totalInput;
  }

  lemma {:induction false} TurnsOfTwo(a: Adapter, x: CodexEvent, y: CodexEvent)
    requires 0 < x.totalInput < y.totalInput && x.totalOutput == y.totalOutput == 0
    ensures Turns(a, [x, y]) == [Turn(a, [], x), Turn(a, if x.sessionId == y.sessionId then [x] else [], y)]
  {
    assert Front([x, y]) == [x];
    assert Front([x]) == [];
    TurnsOfOne(a, x);
    assert Select([x], LogSession, y.sessionId) == if x.sessionId == y.sessionId then [x] else [];
    assert Turn(a, [x], y).inputTokens == y.totalInput - x.totalInput;
  }

  /** A line that turns up in walk order before an older one of its session makes the two runs differ:
      the older line's tokens stay as first collected and the new line's are added to them. */
  lemma {:induction false} OutOfOrderGrowthDiffers(a: Adapter)
    ensures
      var early, late := Line("e1", "s", 4), Line("e2", "s", 10);
      && DistinctKeys([early, late], LogId)
      && Sum(InsertAll(InsertAll([], Turns(a, [late])), Turns(a, [early, late])), Input) == 14
      && Sum(InsertAll([], Turns(a, [early, late])), Input) == 10
  {
    var early, late := Line("e1", "s", 4), Line("e2", "s", 10);
    TurnsOfOne(a, late);
    TurnsOfTwo(a, early, late);
    var first, t, u := Turn(a, [], late), Turn(a, [], early), Turn(a, [early], late);
    FreshWrite([first]);
    assert DedupKey(t) != DedupKey(u);
    FreshWrite([t, u]);
    assert Front([first, t]) == [first] && Front([t, u]) == [t] && Front([t]) == [] && Front([first]) == [];
    assert InsertAll([first], [t]) == [first, t];
    assert InsertAll([first], [t, u]) == Insert([first, t], u) == [first, t];
    assert Sum([first], Input) == 10 && Sum([first, t], Input) == Sum([first], Input) + 4;
  }

  /** A record id used in two sessions makes the two runs differ, though every session only grew. */
  lemma {:induction false} RepeatedIdsDiffer(a: Adapter)
    ensures
      var mine, yours := Line("e", "s", 10), Line("e", "t", 4);
      && GrowsInto([mine], [yours, mine])
      && InsertAll(InsertAll([], Turns(a, [mine])), Turns(a, [yours, mine])) == [Turn(a, [], mine)]
      && InsertAll([], Turns(a, [yours, mine])) == [Turn(a, [], yours)]
  {
    var mine, yours := Line("e", "s", 10), Line("e", "t", 4);
    TurnsOfOne(a, mine);
    TurnsOfTwo(a, yours, mine);
    var m, y := Turn(a, [], mine), Turn(a, [], yours);
    FreshWrite([m]);
    FreshWrite([y]);
    RewriteIsHarmless([m], [y, m]);
    assert Front([y, m]) == [y] && Front([y]) == [];
    assert Insert([y], m) == [y];
    assert Front([yours, mine]) == [yours] && Front([yours]) == [] && Front([mine]) == [];
    assert forall s :: Select([mine], LogSession, s) <= Select([yours, mine], LogSession, s);
  }
}
