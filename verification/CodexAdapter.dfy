/** The Codex log reader: cumulative counters become per-turn deltas, with one memory per session. */
module CodexAdapter {
  import opened Wrappers
  import opened Grouping
  import opened Usage

  datatype CodexEvent = CodexEvent(
    id: string,
    model: string,
    project: string,
    sessionId: string,
    timestampMs: int,
    totalInput: int,
    totalOutput: int,
    tools: seq<string>,
    isError: bool
  )

  /** A line after trimming and JSON decoding. */
  datatype LogLine = Blank | Malformed | Record(event: CodexEvent)

  /** What the directory walk meets: an entry it passes over, a log it cannot read, or a log. */
  datatype WalkEntry = PassedOver | Unreadable | LogFile(lines: seq<LogLine>)

  datatype CollectResult = CollectResult(source: string, found: nat, inserted: nat)

  datatype Adapter = Adapter(classify: (seq<string>, string) -> Activity, formatMillis: int -> string)

  function LogSession(e: CodexEvent): string { e.sessionId }

  function LogId(e: CodexEvent): string { e.id }

  function TotalInput(e: CodexEvent): int { e.totalInput }

  function TotalOutput(e: CodexEvent): int { e.totalOutput }

  /** The records of a file, in order. */
  function Records(lines: seq<LogLine>): seq<CodexEvent> {
    if lines == [] then []
    else if Last(lines).Record? then Records(Front(lines)) + [Last(lines).event]
    else Records(Front(lines))
  }

  /** The records of a whole walk, in walk order. */
  function Walked(entries: seq<WalkEntry>): seq<CodexEvent> {
    if entries == [] then []
    else if Last(entries).LogFile? then Walked(Front(entries)) + Records(Last(entries).lines)
    else Walked(Front(entries))
  }

  /** The counter a session stood at after `history`; a session starts at zero. */
  function Counter(history: seq<CodexEvent>, counter: CodexEvent -> int): int {
    if history == [] then 0 else counter(Last(history))
  }

  /** The growth of a counter; one that fell has been reset and restarts from zero. */
  function Delta(previous: int, total: int): int {
    if total < previous then total else total - previous
  }

  /** What a record adds to a counter of its session, whose earlier records are `history`. */
  function Growth(history: seq<CodexEvent>, e: CodexEvent, counter: CodexEvent -> int): int {
    Delta(Counter(history, counter), counter(e))
  }

  /** A record whose deltas sum to zero yields no event. */
  predicate IsSkipped(history: seq<CodexEvent>, e: CodexEvent) {
    Growth(history, e, TotalInput) + Growth(history, e, TotalOutput) == 0
  }

  /** The records of a session before the one at place `i`. */
  function HistoryAt(log: seq<CodexEvent>, i: nat): seq<CodexEvent>
    requires i < |log|
  {
    Select(log[..i], LogSession, log[i].sessionId)
  }

  /** The event for record `e` of a session whose earlier records are `history`. */
  function Turn(a: Adapter, history: seq<CodexEvent>, e: CodexEvent): Event {
    Event(SOURCE_CODEX, e.sessionId, e.id, e.project, "", e.model, e.tools, a.classify(e.tools, e.model),
          a.formatMillis(e.timestampMs),
          Growth(history, e, TotalInput),
          Growth(history, e, TotalOutput),
          0, 0, e.isError)
  }

  /** What a log amounts to, session by session: each record against the one before it in its own session. */
  function Turns(a: Adapter, log: seq<CodexEvent>): seq<Event> {
    if log == [] then []
    else
      var e := Last(log);
      var turn := Turn(a, Select(Front(log), LogSession, e.sessionId), e);
      if Spend(turn) == 0 then Turns(a, Front(log)) else Turns(a, Front(log)) + [turn]
  }

  function Lookup(m: map<string, int>, k: string): int {
    if k in m then m[k] else 0
  }

  ghost predicate Remembers(last: map<string, int>, log: seq<CodexEvent>, counter: CodexEvent -> int) {
    forall s :: Lookup(last, s) == Counter(Select(log, LogSession, s), counter)
  }

  lemma {:induction false} RememberStep(last: map<string, int>, log: seq<CodexEvent>, counter: CodexEvent -> int,
                                        e: CodexEvent)
    requires Remembers(last, log, counter)
    ensures Remembers(last[e.sessionId := counter(e)], log + [e], counter)
  {
    forall s
      ensures Lookup(last[e.sessionId := counter(e)], s) == Counter(Select(log + [e], LogSession, s), counter)
    {
      SelectSnoc(log, e, LogSession, s);
    }
  }

  /** The walk's state after reading `log`: one memory per counter, the turns so far and the lines counted. */
  ghost predicate Progress(a: Adapter, log: seq<CodexEvent>, lastInput: map<string, int>, lastOutput: map<string, int>,
                           events: seq<Event>, found: nat) {
    && Remembers(lastInput, log, TotalInput)
    && Remembers(lastOutput, log, TotalOutput)
    && events == Turns(a, log)
    && found == |log|
  }

  method Collect(a: Adapter, dir: Option<seq<WalkEntry>>) returns (events: seq<Event>, result: CollectResult)
    ensures events == Turns(a, Walked(dir.GetOr([])))
    ensures exists places :: AreEventsOf(a, events, Walked(dir.GetOr([])), places)
    ensures result == CollectResult(SOURCE_CODEX, |Walked(dir.GetOr([]))|, |events|)
  {
    result := CollectResult(SOURCE_CODEX, 0, 0);
    events := [];
    ghost var places := TurnsAreEvents(a, Walked(dir.GetOr([])));
    if dir.None? {
      return;
    }
    var lastInput: map<string, int>, lastOutput: map<string, int> := map[], map[];
    for i := 0 to |dir.value|
      invariant Progress(a, Walked(dir.value[..i]), lastInput, lastOutput, events, result.found)
      invariant result.source == SOURCE_CODEX
    {
      Snoc(dir.value, i);
      if !dir.value[i].LogFile? {
        continue;
      }
      var found;
      lastInput, lastOutput, events, found :=
        CollectFile(a, dir.value[i].lines, lastInput, lastOutput, events, result.found, Walked(dir.value[..i]));
      result := result.(found := found);
    }
    assert dir.value[..|dir.value|] == dir.value;
    result := result.(inserted := |events|);
  }

  /** The lines of one file: the body of the walk. */
  method CollectFile(a: Adapter, lines: seq<LogLine>, lastInput0: map<string, int>, lastOutput0: map<string, int>,
                     events0: seq<Event>, found0: nat, ghost log: seq<CodexEvent>)
    returns (lastInput: map<string, int>, lastOutput: map<string, int>, events: seq<Event>, found: nat)
    requires Progress(a, log, lastInput0, lastOutput0, events0, found0)
    ensures Progress(a, log + Records(lines), lastInput, lastOutput, events, found)
  {
    lastInput, lastOutput, events, found := lastInput0, lastOutput0, events0, found0;
    assert log + [] == log;
    for j := 0 to |lines|
      invariant Progress(a, log + Records(lines[..j]), lastInput, lastOutput, events, found)
    {
      Snoc(lines, j);
      if !lines[j].Record? {
        continue;
      }
      ghost var before := log + Records(lines[..j]);
      assert log + Records(lines[..j + 1]) == before + [lines[j].event];
      lastInput, lastOutput, events, found :=
        CollectRecord(a, lines[j].event, lastInput, lastOutput, events, found, before);
    }
    assert lines[..|lines|] == lines;
  }

  /** One record: the body of the loop over lines. */
  method CollectRecord(a: Adapter, e: CodexEvent, lastInput0: map<string, int>, lastOutput0: map<string, int>,
                       events0: seq<Event>, found0: nat, ghost before: seq<CodexEvent>)
    returns (lastInput: map<string, int>, lastOutput: map<string, int>, events: seq<Event>, found: nat)
    requires Progress(a, before, lastInput0, lastOutput0, events0, found0)
    ensures Progress(a, before + [e], lastInput, lastOutput, events, found)
    ensures events == events0 || (|events| > 0 && Front(events) == events0 && Carries(a, Last(events), e))
  {
    found := found0 + 1;
    var inputDelta := CounterDelta(lastInput0, e, e.totalInput, before, TotalInput);
    var outputDelta := CounterDelta(lastOutput0, e, e.totalOutput, before, TotalOutput);
    lastInput, lastOutput, events :=
      lastInput0[e.sessionId := e.totalInput], lastOutput0[e.sessionId := e.totalOutput], events0;
    RememberStep(lastInput0, before, TotalInput, e);
    RememberStep(lastOutput0, before, TotalOutput, e);
    TurnsSnoc(a, before, e);
    if inputDelta + outputDelta == 0 {
      return;
    }
    events := events + [
      Event(SOURCE_CODEX, e.sessionId, e.id, e.project, "", e.model, e.tools, a.classify(e.tools, e.model),
            a.formatMillis(e.timestampMs), inputDelta, outputDelta, 0, 0, e.isError)];
  }

  /** What one counter grew by, from what its session is remembered to have stood at. */
  method CounterDelta(last: map<string, int>, e: CodexEvent, total: int, ghost before: seq<CodexEvent>,
                      ghost counter: CodexEvent -> int)
    returns (delta: int)
    requires Remembers(last, before, counter) && total == counter(e)
    ensures delta == Growth(Select(before, LogSession, e.sessionId), e, counter)
  {
    delta := total - Lookup(last, e.sessionId);
    if delta < 0 {
      delta := total;
    }
  }

  lemma {:induction false} TurnsSnoc(a: Adapter, before: seq<CodexEvent>, e: CodexEvent)
    ensures
      var turn := Turn(a, Select(before, LogSession, e.sessionId), e);
      Turns(a, before + [e]) == if Spend(turn) == 0 then Turns(a, before) else Turns(a, before) + [turn]
  {
    assert Front(before + [e]) == before;
  }

  /* What an event takes from its record */

  /** Field by field; the deltas aside. */
  predicate Carries(a: Adapter, t: Event, e: CodexEvent) {
    && t.source == SOURCE_CODEX && t.sessionId == e.sessionId && t.eventKey == e.id
    && t.project == e.project && t.branch == "" && t.model == e.model && t.tools == e.tools
    && t.activity == a.classify(e.tools, e.model) && t.ts == a.formatMillis(e.timestampMs)
    && t.cacheReadTokens == 0 && t.cacheCreationTokens == 0 && t.isError == e.isError
  }

  /** The event carries the fields of the record at a place of the log, and what it adds to its session's counters. */
  ghost predicate IsEventAt(a: Adapter, t: Event, log: seq<CodexEvent>, i: nat)
    requires i < |log|
  {
    && Carries(a, t, log[i])
    && t.inputTokens == Growth(HistoryAt(log, i), log[i], TotalInput)
    && t.outputTokens == Growth(HistoryAt(log, i), log[i], TotalOutput)
  }

  /** `places` are those of the records that are not skipped, in order. */
  ghost predicate AreEmittedPlaces(log: seq<CodexEvent>, places: seq<nat>) {
    && (forall i :: 0 <= i < |log| ==> (i in places <==> !IsSkipped(HistoryAt(log, i), log[i])))
    && (forall k :: 0 <= k < |places| ==> places[k] < |log|)
    && (forall k, l :: 0 <= k < l < |places| ==> places[k] < places[l])
  }

  /** The events are those of the records that are not skipped, one each and in order. */
  ghost predicate AreEventsOf(a: Adapter, events: seq<Event>, log: seq<CodexEvent>, places: seq<nat>) {
    && AreEmittedPlaces(log, places)
    && |events| == |places|
    && forall k :: 0 <= k < |places| ==> IsEventAt(a, events[k], log, places[k])
  }

  lemma {:induction false} HistoryStays(before: seq<CodexEvent>, e: CodexEvent)
    ensures forall i :: 0 <= i < |before| ==>
      (before + [e])[i] == before[i] && HistoryAt(before + [e], i) == HistoryAt(before, i)
    ensures HistoryAt(before + [e], |before|) == Select(before, LogSession, e.sessionId)
  {
    assert forall i :: 0 <= i < |before| ==> (before + [e])[..i] == before[..i];
    assert (before + [e])[..|before|] == before;
  }

  lemma {:induction false} PlacesSnoc(before: seq<CodexEvent>, e: CodexEvent, places: seq<nat>)
    requires AreEmittedPlaces(before, places)
    ensures
      var skipped := IsSkipped(Select(before, LogSession, e.sessionId), e);
      AreEmittedPlaces(before + [e], if skipped then places else places + [|before|])
  {
    HistoryStays(before, e);
    assert forall i :: i in places ==> i < |before|;
    assert forall i :: i in places + [|before|] <==> i in places || i == |before|;
  }

  lemma {:induction false} EventsStay(a: Adapter, events: seq<Event>, before: seq<CodexEvent>, e: CodexEvent,
                                      places: seq<nat>)
    requires AreEventsOf(a, events, before, places)
    ensures forall k :: 0 <= k < |places| ==>
      places[k] < |before| && IsEventAt(a, events[k], before + [e], places[k])
  {
    HistoryStays(before, e);
  }

  lemma {:induction false} TurnIsEvent(a: Adapter, before: seq<CodexEvent>, e: CodexEvent)
    ensures IsEventAt(a, Turn(a, Select(before, LogSession, e.sessionId), e), before + [e], |before|)
  {
    HistoryStays(before, e);
  }

  lemma {:induction false} EventsSnoc(a: Adapter, events: seq<Event>, before: seq<CodexEvent>, e: CodexEvent,
                                      places: seq<nat>)
    requires AreEventsOf(a, events, before, places)
    ensures
      var history := Select(before, LogSession, e.sessionId);
      if IsSkipped(history, e) then AreEventsOf(a, events, before + [e], places)
      else AreEventsOf(a, events + [Turn(a, history, e)], before + [e], places + [|before|])
  {
    PlacesSnoc(before, e, places);
    EventsStay(a, events, before, e, places);
    TurnIsEvent(a, before, e);
  }

  /** The turns of a log are the events of its records, each field where it belongs. */
  lemma {:induction false} TurnsAreEvents(a: Adapter, log: seq<CodexEvent>) returns (places: seq<nat>)
    ensures AreEventsOf(a, Turns(a, log), log, places)
  {
    if log == [] {
      places := [];
    } else {
      var before, e := Front(log), Last(log);
      places := TurnsAreEvents(a, before);
      EventsSnoc(a, Turns(a, before), before, e, places);
      TurnsSnoc(a, before, e);
      assert log == before + [e];
      if !IsSkipped(Select(before, LogSession, e.sessionId), e) {
        places := places + [|before|];
      }
    }
  }

  /** A walk reads its files in order, and a file its lines; only records of log files count. */
  lemma {:induction false} WalkInOrder(entries: seq<WalkEntry>, entry: WalkEntry, lines: seq<LogLine>, line: LogLine)
    ensures Walked(entries + [entry]) == Walked(entries) + (if entry.LogFile? then Records(entry.lines) else [])
    ensures Records(lines + [line]) == Records(lines) + (if line.Record? then [line.event] else [])
  {
    assert Front(entries + [entry]) == entries && Front(lines + [line]) == lines;
  }

  /** The turn of the record at place `i` is among the turns of the log, unless it is skipped. */
  lemma {:induction false} TurnAt(a: Adapter, log: seq<CodexEvent>, i: nat)
    requires i < |log|
    requires Spend(Turn(a, Select(log[..i], LogSession, log[i].sessionId), log[i])) != 0
    ensures Turn(a, Select(log[..i], LogSession, log[i].sessionId), log[i]) in Turns(a, log)
  {
    if i < |log| - 1 {
      assert Front(log)[..i] == log[..i];
      TurnAt(a, Front(log), i);
    } else {
      assert log[..i] == Front(log);
    }
  }

  lemma {:induction false} TurnFrom(a: Adapter, log: seq<CodexEvent>, t: Event) returns (i: nat)
    requires t in Turns(a, log)
    ensures i < |log| && t == Turn(a, Select(log[..i], LogSession, log[i].sessionId), log[i])
    ensures Spend(t) != 0
  {
    i := |log| - 1;
    assert log[..i] == Front(log);
    if t in Turns(a, Front(log)) {
      i := TurnFrom(a, Front(log), t);
      assert Front(log)[..i] == log[..i];
    }
  }

  /* Conservation */

  /** The counters never go below zero, as totals do not. */
  ghost predicate CountersNonNegative(log: seq<CodexEvent>) {
    forall e :: e in log ==> e.totalInput >= 0 && e.totalOutput >= 0
  }

  /** The values a counter stood at just before it dropped. */
  ghost function Peaks(history: seq<CodexEvent>, counter: CodexEvent -> int): int {
    if |history| < 2 then 0
    else
      var previous := counter(history[|history| - 2]);
      Peaks(Front(history), counter) + if counter(Last(history)) < previous then previous else 0
  }

  ghost predicate NeverDrops(history: seq<CodexEvent>, counter: CodexEvent -> int) {
    forall i :: 0 < i < |history| ==> counter(history[i - 1]) <= counter(history[i])
  }

  lemma {:induction false} NoPeaksWithoutDrops(history: seq<CodexEvent>, counter: CodexEvent -> int)
    requires NeverDrops(history, counter)
    ensures Peaks(history, counter) == 0
  {
    if |history| >= 2 {
      NoPeaksWithoutDrops(Front(history), counter);
    }
  }

  /** No delta is negative. */
  lemma {:induction false} TurnsNonNegative(a: Adapter, log: seq<CodexEvent>)
    requires CountersNonNegative(log)
    ensures NonNegative(Turns(a, log))
  {
    if log == [] {
    } else {
      assert log == Front(log) + [Last(log)];
      TurnsNonNegative(a, Front(log));
      var history := Select(Front(log), LogSession, Last(log).sessionId);
      SelectMembers(Front(log), LogSession, Last(log).sessionId);
      assert history != [] ==> Last(history) in history;
    }
  }

  /** What the skipped records of a session add to a counter. */
  function SkippedGrowth(history: seq<CodexEvent>, counter: CodexEvent -> int): int {
    if history == [] then 0
    else
      var before, e := Front(history), Last(history);
      SkippedGrowth(before, counter) + if IsSkipped(before, e) then Growth(before, e, counter) else 0
  }

  /** The tokens emitted for a session. */
  function Emitted(a: Adapter, log: seq<CodexEvent>, session: string, weight: Event -> int): int {
    Sum(Select(Turns(a, log), SessionOf, session), weight)
  }

  /** What a session's counter says was used in all: where it stands, and where it stood before each drop. */
  ghost function Used(log: seq<CodexEvent>, session: string, counter: CodexEvent -> int): int {
    var history := Select(log, LogSession, session);
    Counter(history, counter) + Peaks(history, counter)
  }

  /** For every log, whatever its counters: what is emitted for a session and what its skipped records add up to
      make the use its counters show, for input and for output, however the sessions interleave. */
  lemma {:induction false} EmittedAndSkipped(a: Adapter, log: seq<CodexEvent>, session: string)
    ensures Emitted(a, log, session, Input) + SkippedGrowth(Select(log, LogSession, session), TotalInput)
         == Used(log, session, TotalInput)
    ensures Emitted(a, log, session, Output) + SkippedGrowth(Select(log, LogSession, session), TotalOutput)
         == Used(log, session, TotalOutput)
  {
    if log == [] {
    } else {
      var before, e := Front(log), Last(log);
      assert log == before + [e];
      EmittedAndSkipped(a, before, session);
      var history := Select(before, LogSession, e.sessionId);
      var turn := Turn(a, history, e);
      TurnsSnoc(a, before, e);
      SelectSnoc(before, e, LogSession, session);
      SelectSnoc(Turns(a, before), turn, SessionOf, session);
      SumsSnoc(Select(Turns(a, before), SessionOf, session), turn);
      if session == e.sessionId {
        RecordAdds(history, e, TotalInput);
        RecordAdds(history, e, TotalOutput);
      }
    }
  }

  lemma {:induction false} RecordAdds(history: seq<CodexEvent>, e: CodexEvent, counter: CodexEvent -> int)
    ensures SkippedGrowth(history + [e], counter)
         == SkippedGrowth(history, counter) + if IsSkipped(history, e) then Growth(history, e, counter) else 0
    ensures Counter(history + [e], counter) + Peaks(history + [e], counter)
         == Counter(history, counter) + Peaks(history, counter) + Growth(history, e, counter)
  {
    assert Front(history + [e]) == history;
    PeaksSnoc(history, e, counter);
  }

  /** The skipped records of a session add to one counter what they take from the other. */
  lemma {:induction false} SkippedCancels(history: seq<CodexEvent>)
    ensures SkippedGrowth(history, TotalInput) + SkippedGrowth(history, TotalOutput) == 0
  {
    if history == [] {
    } else {
      SkippedCancels(Front(history));
    }
  }

  /** So the tokens of a session are conserved, for both counters and for either, exactly when what its skipped
      records add to the input counter sums to zero. */
  lemma {:induction false} ConservedExactlyWhen(a: Adapter, log: seq<CodexEvent>, session: string)
    ensures Emitted(a, log, session, Input) == Used(log, session, TotalInput)
       <==> SkippedGrowth(Select(log, LogSession, session), TotalInput) == 0
    ensures Emitted(a, log, session, Output) == Used(log, session, TotalOutput)
       <==> SkippedGrowth(Select(log, LogSession, session), TotalInput) == 0
  {
    EmittedAndSkipped(a, log, session);
    SkippedCancels(Select(log, LogSession, session));
  }

  lemma {:induction false} NothingSkipped(history: seq<CodexEvent>)
    requires CountersNonNegative(history)
    ensures SkippedGrowth(history, TotalInput) == 0 && SkippedGrowth(history, TotalOutput) == 0
  {
    if history == [] {
    } else {
      assert history == Front(history) + [Last(history)];
      NothingSkipped(Front(history));
      assert Front(history) != [] ==> Last(Front(history)) in history;
    }
  }

  /** With counters that never go below zero, every token is counted once: a session's deltas add up to its last
      counter plus the value just before each drop, for input and for output. */
  lemma {:induction false} TokensConserved(a: Adapter, log: seq<CodexEvent>, session: string)
    requires CountersNonNegative(log)
    ensures Emitted(a, log, session, Input) == Used(log, session, TotalInput)
    ensures Emitted(a, log, session, Output) == Used(log, session, TotalOutput)
  {
    SelectMembers(log, LogSession, session);
    NothingSkipped(Select(log, LogSession, session));
    EmittedAndSkipped(a, log, session);
  }

  lemma {:induction false} PeaksSnoc(history: seq<CodexEvent>, e: CodexEvent, counter: CodexEvent -> int)
    ensures Peaks(history + [e], counter) == Peaks(history, counter)
         + if history != [] && counter(e) < counter(Last(history)) then counter(Last(history)) else 0
  {
    assert Front(history + [e]) == history;
  }

  lemma {:induction false} SumsSnoc(turns: seq<Event>, turn: Event)
    ensures Sum(turns + [turn], Input) == Sum(turns, Input) + turn.inputTokens
    ensures Sum(turns + [turn], Output) == Sum(turns, Output) + turn.outputTokens
  {
    assert Front(turns + [turn]) == turns;
  }

  /** Without drops the deltas add up to the last counter. */
  lemma {:induction false} TokensConservedWithoutDrops(a: Adapter, log: seq<CodexEvent>, session: string)
    requires CountersNonNegative(log)
    requires NeverDrops(Select(log, LogSession, session), TotalInput)
    requires NeverDrops(Select(log, LogSession, session), TotalOutput)
    ensures Emitted(a, log, session, Input) == Counter(Select(log, LogSession, session), TotalInput)
    ensures Emitted(a, log, session, Output) == Counter(Select(log, LogSession, session), TotalOutput)
  {
    TokensConserved(a, log, session);
    NoPeaksWithoutDrops(Select(log, LogSession, session), TotalInput);
    NoPeaksWithoutDrops(Select(log, LogSession, session), TotalOutput);
  }

  /** A negative counter can cancel a positive one, and the line is skipped with its tokens. */
  lemma {:induction false} NegativeCountersLoseTokens(a: Adapter)
    ensures
      var log := [CodexEvent("e1", "m", "p", "s", 0, 5, -5, [], false)];
      && Emitted(a, log, "s", Input) == 0 && Used(log, "s", TotalInput) == 5
      && SkippedGrowth(log, TotalInput) == 5
  {
    var e := CodexEvent("e1", "m", "p", "s", 0, 5, -5, [], false);
    assert Front([e]) == [];
    assert Select([e], LogSession, "s") == [e];
    assert Spend(Turn(a, [], e)) == 0;
    assert Turns(a, [e]) == [];
  }
}
