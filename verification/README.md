# Usage accounting, verified

This project models the token monitor's core in Dafny and proves what it promises: that collecting the same logs
again and again neither loses nor double-counts tokens, that the two analyzers of the event log agree, and that what is
derived from the metrics (recommendations, follow-through, team rollups, reconciliation with a provider's bill) adds up.

`dafny verify dfyconfig.toml` checks everything.

| file | what it holds |
|---|---|
| `CodexAdapter.dfy` | cumulative counters to per-turn deltas, with drops and skipped records |
| `EventStore.dfy` | the events table with `UNIQUE(source, event_key)`, transactional batches, filtered loads |
| `Collection.dfy` | the collect handler, and incremental runs against one fresh run |
| `Protowire.dfy` | varints, the message decoder, a reference encoder and the round trip |
| `Pricing.dfy` | the price table and the cost of tokens |
| `MetricsEngine.dfy`, `MetricsLaws.dfy` | the two-pass metrics engine against a group-then-fold reading, and laws of the result |
| `SessionAnalyzer.dfy`, `AnalyzersAgree.dfy` | per-session statistics, top lists, and their agreement with the engine |
| `CronScheduler.dfy` | the crontab entry, installed and removed by rewriting a text |
| `Recommendations.dfy` | findings, savings, ranking (modules `Findings`, `Recommendations`, `SavingsLaws`) |
| `SavingsMeaning.dfy` | what evidence and savings say, multiplied out |
| `FollowThrough.dfy` | follow-through records over a life of `Sync` calls |
| `ExportMerger.dfy` | dedupe, merge and rollup of team exports |
| `Reconciliation.dfy` | provider paging and the comparison with local totals (modules `Providers`, `Reconciliation`) |
| `Usage.dfy`, `Wrappers.dfy`, `Grouping.dfy`, `Strings.dfy` | the event record, and shared vocabulary: grouping, sums over maps, string order, sorting |

Each loop of the program is a method, proved against a function that says what the loop computes; the laws are lemmas
about those functions, so they hold of every run of the methods. State that the program keeps in place (the two tables,
the crontab) is a class.

Findings: places where the code does not do what its own text, or a caller, would expect. Each comes with the
exact condition and, where something can go wrong, a concrete input.

- Premium waste is not a share. The sum over the log is added once per session (`internal/analytics/metrics_engine.go:149-175`),
  so it can exceed 1, against the comment at `internal/analytics/metrics.go:43`: `PremiumWasteCanExceedOne`,
  `PremiumWasteIsAShareExactlyWhen`.
- Status "resolved" is never stored. `Sync` only sees keys that are active on the very metrics it is given
  (`application/report.go:29-31`), and a key is resolved exactly when it is not: `ResolvedMeansInactive`, `RunNeverResolves`.
- `Install` takes a crontab it cannot read for an empty one and overwrites it (`infrastructure/scheduler/cron.go:19-22`):
  `UnreadInstallLosesLine`, `UnreadInstallKeepsLinesExactlyWhen`.
- Incremental collection and a fresh one can leave different tables, when an older record turns up ahead of a collected
  one or two records share an id: `OutOfOrderGrowthDiffers`, `RepeatedIdsDiffer`. They agree exactly when, under every
  id, what was emitted first is what a fresh run emits first: `TwoRunsAgreeExactly`. That each session only grows at
  its end and ids are unique is enough: `IncrementalEqualsFresh`.
- A record whose deltas cancel is skipped with its tokens (`infrastructure/adapters/codex/adapter.go:84-86`), which takes
  a negative counter: `NegativeCountersLoseTokens`, `ConservedExactlyWhen`.
- A length of 2^63 or more passes the length test of the decoder, which compares after a signed conversion
  (`infrastructure/protowire/protowire.go:68`), and the allocation panics: `HugeLengthPanics`,
  `PanicsExactly`.
- The engine keeps a timestamp that does not parse as the zero time, the session analyzer skips the turn, so that a
  cold restart behind it shows to one and not to the other: `UnparsedTurnsDiffer`, `SameFlagsExactlyWhen`. That condition
  is for stamps both read alike, as they do every stamp with a Z. The engine appends a Z to any other, so that stamps
  with an offset, which the Claude Code adapter stores (`infrastructure/adapters/claudecode/adapter.go:138-140`), parse for
  the analyzer only, and stamps without a zone for the engine only: `OffsetStampsDiffer`, `ZonelessStampsDiffer`.
- The number printed as new events (`cmd/token-monitor/main.go:55-59`) sums `CollectResult.Inserted`, which the text at
  `internal/collection/usage_event.go:28` calls new events written to the store but every adapter sets to the events it
  emitted (`infrastructure/adapters/codex/adapter.go:105`): `SecondRunAddsNothing`, `PrintedIsInsertedExactlyWhen`.

## Model

| member | source | states |
|---|---|---|
| `CodexAdapter.Collect` | infrastructure/adapters/codex/adapter.go:45-107 | the walk over all files and lines, with its two counter maps, returns one event for each walked record that is not skipped, in order: the record's id, session, project, model, tools and error flag, its formatted time, the class of its tools and model, no branch, no cache tokens, and as input and output the growth of its session's counters, or the bare counter after a drop; `Found` counts every record, `Inserted` the events |
| `CodexAdapter.CollectFile` | infrastructure/adapters/codex/adapter.go:57-103 | one file on from any state keeps the two maps equal to the last counters of every session seen so far, over all files; blank and malformed lines and unreadable files change nothing |
| `CodexAdapter.CollectRecord` | infrastructure/adapters/codex/adapter.go:73-100 | one record on, both memories hold its session's new counters; what is appended, if anything, carries the record's fields each in its place |
| `CodexAdapter.CounterDelta` | infrastructure/adapters/codex/adapter.go:74-81 | a counter's growth over what its session is remembered to have stood at, or the counter itself after a drop |
| `CodexAdapter.TurnsAreEvents` | infrastructure/adapters/codex/adapter.go:84-100 | the turns of a log are the events of exactly its records that are not skipped, one each and in order, every field where it belongs |
| `CodexAdapter.WalkInOrder` | infrastructure/adapters/codex/adapter.go:57-72 | one entry or line more adds its records at the end; entries passed over, unreadable files, blank and malformed lines add none |
| `CodexAdapter.TurnsNonNegative` | infrastructure/adapters/codex/adapter.go:74-81 | with counters that are never negative, no emitted delta is negative |
| `CodexAdapter.EmittedAndSkipped` | infrastructure/adapters/codex/adapter.go:74-86 | for every log, negative counters included and however sessions interleave: the input (and output) emitted for a session and what its skipped records add to that counter sum to its last counter plus the value just before each drop |
| `CodexAdapter.ConservedExactlyWhen` | infrastructure/adapters/codex/adapter.go:84-86 | the emitted input, and likewise the emitted output, of a session is what its counter shows if and only if the input deltas of its skipped records sum to zero |
| `CodexAdapter.TokensConserved` | infrastructure/adapters/codex/adapter.go:74-86 | with counters that are never negative it always is: nothing is lost in skipped records |
| `CodexAdapter.TokensConservedWithoutDrops` | infrastructure/adapters/codex/adapter.go:74-86 | when the counters of a session never drop, its emitted tokens sum to its last counters |
| `CodexAdapter.NegativeCountersLoseTokens` | infrastructure/adapters/codex/adapter.go:84-86 | the concrete record (input 5, output -5) whose skip loses 5 input tokens |
| `EventStore.SqliteEventStore.constructor` | infrastructure/sqlite/db.go:14-31 | a new table is empty and keeps source and key unique |
| `EventStore.InsertEach` | infrastructure/sqlite/event_store.go:47-65 | the insert loop, up to the insert that fails if one does: the rows the transaction then sees, and the count of those it found new |
| `EventStore.SqliteEventStore.WriteEvents` | infrastructure/sqlite/event_store.go:26-67 | a committed batch is inserted row by row with repeats ignored, a batch failing anywhere leaves the table as it was; the count returned is the loop's, zero when it never began, that of the prefix when an insert failed, that of the whole batch when the commit failed |
| `EventStore.SqliteEventStore.LoadEvents` | infrastructure/sqlite/event_store.go:70-111 | returns exactly the stored rows not before the cutoff whose project and source are those asked for, if any are, each once and in timestamp order |
| `EventStore.MatchingMembers` | infrastructure/sqlite/event_store.go:73-84 | the rows loaded are exactly the stored ones that pass the filter, no key twice |
| `EventStore.InsertKeepsKeysDistinct` | infrastructure/sqlite/event_store.go:36-65 | insert-or-ignore keeps one row per source and key |
| `EventStore.InsertAllRegroups` | infrastructure/sqlite/event_store.go:48-65 | two batches one after the other leave the same table as their concatenation in one |
| `EventStore.RunIsOneWrite` | infrastructure/sqlite/event_store.go:26-67 | any sequence of writes, some failing, leaves the table that one write of all committed events would |
| `EventStore.InsertAllKeys` | infrastructure/sqlite/event_store.go:36-39 | a batch adds exactly its own keys, keeps keys unique and every stored row in its place |
| `EventStore.FirstWriteWins` | infrastructure/sqlite/event_store.go:36-39 | per key the table holds the first event among its rows and the batch |
| `EventStore.RunKeepsFirstWrites` | infrastructure/sqlite/event_store.go:26-67 | after any run of writes into an empty table, each key holds the first event ever committed under it, and no key two |
| `EventStore.ReportedCountsAddUp` | infrastructure/sqlite/event_store.go:47-66 | the counts of new rows that the insert loops of the successful writes return sum to the growth of the table |
| `EventStore.AllAreNewExactlyWhen` | infrastructure/sqlite/event_store.go:47-65 | the loop counts every event of a batch as new if and only if no key repeats in the batch and none is stored; it never counts more |
| `EventStore.TablesAgreeExactlyWhen` | infrastructure/sqlite/event_store.go:36-39 | two histories written into empty tables leave the same rows if and only if under every key both start with the same event or neither has any |
| `EventStore.RunAgreesExactlyWhen` | infrastructure/sqlite/event_store.go:26-67 | the same for a whole run of writes, some failing, against one batch |
| `EventStore.RewriteIsHarmless` | infrastructure/sqlite/event_store.go:36-39 | a batch all of whose keys are stored changes nothing, whatever its rows say |
| `EventStore.FreshWrite` | infrastructure/sqlite/event_store.go:48-65 | a batch without repeated keys written into an empty table is the table |
| `Collection.Handle` | application/collect.go:27-57 | the handler skips failed adapters and other sources, writes all remaining events as one batch, returns the results only when that batch committed, and leaves the table unchanged otherwise |
| `Collection.OneRunMore` | application/collect.go:31-48 | an adapter adds its events and its result exactly when it did not fail and its source is the one asked for, or none is |
| `Collection.FailSoft` | application/collect.go:31-39 | an adapter that failed or was filtered out, at any place of the list, leaves batch and results as without it |
| `Collection.HandlerCarriesCodex` | application/collect.go:40-42 | among adapters that emit no Codex events, the Codex part of the batch is exactly what the Codex adapter emitted, in order |
| `Collection.TurnsAreCodex` | infrastructure/adapters/codex/adapter.go:88-100 | every event of the adapter carries the Codex source |
| `Collection.CollectAndStore` | application/collect.go:27-57 | the adapter and the handler together: the run they amount to carries, for Codex, exactly the turns of the log walked, which is what the incremental theorems ask of a run |
| `Collection.PrintedIsInsertedExactlyWhen` | cmd/token-monitor/main.go:55-59 | the number printed as new events is never less than the rows added, and equals it if and only if the batch repeats no key and none of its keys is stored |
| `Collection.SecondRunAddsNothing` | infrastructure/adapters/codex/adapter.go:105 | every log collected a second time adds no row; a log of one record reports one event each time |
| `Collection.TurnsSurviveGrowth` | infrastructure/adapters/codex/adapter.go:52-103 | when each session only grows at its end, every turn of the old log is a turn of the new one, with the same tokens, however sessions and files interleave |
| `Collection.TurnsHaveDistinctKeys` | infrastructure/adapters/codex/adapter.go:88-91 | unique record ids give unique source and key pairs |
| `Collection.CodexRowsAreTurns` | infrastructure/sqlite/event_store.go:26-67 | after any runs over growing logs, every Codex row of the table is a turn of the final log |
| `Collection.IncrementalEqualsFresh` | infrastructure/adapters/codex/adapter.go:52-103 | any sequence of runs over growing logs, any of them but the last failing to write, leaves the same Codex rows as one collection of the final log into an empty table |
| `Collection.IncrementalConservesTokens` | infrastructure/sqlite/event_store.go:26-67 | so the stored tokens of each session sum to its final counters plus the value before each drop: none lost or counted twice |
| `Collection.FirstTurn` | infrastructure/adapters/codex/adapter.go:72-100 | under an id, the first event of a log is that of its first record with the id that is not skipped |
| `Collection.TwoRunsAgreeExactly` | infrastructure/adapters/codex/adapter.go:52-103 | for all logs, ids repeated or not: two runs leave the table of the second alone if and only if, under every id, whatever record the old log emits first, the new log first emits one with the same session, fields and deltas |
| `Collection.OutOfOrderGrowthDiffers` | infrastructure/adapters/codex/adapter.go:74-75 | when an older record turns up ahead of a collected one, the table counts 14 tokens where a fresh run counts 10 |
| `Collection.RepeatedIdsDiffer` | infrastructure/sqlite/event_store.go:36-39 | when two records share an id, the incremental table and the fresh one keep different events |
| `Protowire.ReadVarintExactly` | infrastructure/protowire/protowire.go:10-16 | a terminated varint is read, to the number its base-128 groups stand for, if and only if it has at most ten bytes and that number is below 2^64 |
| `Protowire.ReadVarintTruncated` | infrastructure/protowire/protowire.go:12-14 | a buffer that ends inside a varint is an error |
| `Protowire.VarintRoundTrip` | infrastructure/protowire/protowire.go:10-16 | each of the 2^64 values is read back from its encoding, whatever bytes follow |
| `Protowire.EncodeVarint` | infrastructure/protowire/protowire.go:10-16 | the reference encoding is well formed and stands for the number encoded |
| `Protowire.VarintFitsWord` | infrastructure/protowire/protowire.go:10-16 | whatever the bytes, a value read is a 64-bit number |
| `Protowire.ReadField` | infrastructure/protowire/protowire.go:39-82 | one turn of the decoding loop uses at least one byte and never more than are left |
| `Protowire.DecodeMessage` | infrastructure/protowire/protowire.go:36-85 | the decoder returns the fields that reading field after field yields, without error at an unreadable one, and panics only where that reading does |
| `Protowire.DecodeFields` | infrastructure/protowire/protowire.go:37-84 | the loop over positions, from the start of the buffer to its end, an unreadable field or the panic; every access is in bounds and every turn advances |
| `Protowire.DecodeNext` | infrastructure/protowire/protowire.go:39-83 | one turn of the loop ends with the answer for the whole message, or strictly advances the position |
| `Protowire.DecodeField` | infrastructure/protowire/protowire.go:40-82 | the body of the loop at a position reads what stands there as if the buffer began there |
| `Protowire.DecodePayload` | infrastructure/protowire/protowire.go:48-82 | the four wire types and the default, each with its early exit |
| `Protowire.ReadFieldExtends` | infrastructure/protowire/protowire.go:39-82 | a field once read is read alike from every longer buffer |
| `Protowire.PrefixDecodesToPrefix` | infrastructure/protowire/protowire.go:36-85 | every prefix of a buffer decodes to a prefix of its fields |
| `Protowire.DecodeConcatenation` | infrastructure/protowire/protowire.go:36-85 | after a buffer that is used up completely, what follows decodes as if it stood alone |
| `Protowire.ItemRoundTrip` | infrastructure/protowire/protowire.go:40-82 | an encoded field followed by anything is read back exactly, a fixed32 one passed over |
| `Protowire.MessageRoundTrip` | infrastructure/protowire/protowire.go:36-85 | every list of fields (numbers below 2^32, 64-bit values, lengths below 2^63) decodes from its encoding to exactly those fields in order, fixed32 ones left out |
| `Protowire.SpecifiedVarintMessage` | infrastructure/protowire/protowire.go:45-55 | the simple message of the Protocol Buffers Encoding specification, bytes 08 96 01, is field 1 with value 150 |
| `Protowire.Fixed64LowByteFirst` | infrastructure/protowire/protowire.go:56-61 | a fixed64 has its least significant byte first |
| `Protowire.BytesAndFixed32` | infrastructure/protowire/protowire.go:62-79 | wire type 2 is a length and that many bytes, wire type 5 four bytes that leave no field |
| `Protowire.OtherWireTypesStop` | infrastructure/protowire/protowire.go:80-82 | wire types 3, 4, 6 and 7 end the message, whatever follows |
| `Protowire.FieldPanicsExactly` | infrastructure/protowire/protowire.go:68-71 | a field makes the allocation panic if and only if it is length-delimited and its length is 2^63 or more |
| `Protowire.PanicsExactly` | infrastructure/protowire/protowire.go:63-74 | decoding a buffer panics if and only if such a field stands right after bytes that decode completely |
| `Protowire.HugeLengthPanics` | infrastructure/protowire/protowire.go:68-71 | the inputs: a tag and any length from 2^63 up, with nothing behind them, make decoding panic |
| `Protowire.IntField` | infrastructure/protowire/protowire.go:88-95 | the lookup loop returns the first varint under the number |
| `Protowire.DataField` | infrastructure/protowire/protowire.go:98-115 | the lookup loop returns the first data under the number, the loop of the string and of the message lookup |
| `Protowire.LookupsFindFirst` | infrastructure/protowire/protowire.go:88-115 | looking a number up in a decoded message finds what was first encoded under it with that wire type |
| `Pricing.PricingService.FirstMatch` | internal/analytics/pricing_service.go:25-26 | the search stops at the first entry whose lower-cased prefix starts the name, and at none when there is none |
| `Pricing.CostOfSums` | internal/analytics/pricing_service.go:23-36 | the costs of the turns of one model sum to the cost of their summed tokens, and so do the unpriced tokens |
| `Pricing.MillionTokensCostThePrice` | internal/analytics/pricing_service.go:27-31 | a million tokens of one kind cost the model's price of that kind, for each of the four |
| `Pricing.UnpricedTokensAreCounted` | internal/analytics/pricing_service.go:34-35 | what has no price costs nothing and is counted, all four kinds; what has one is not |
| `Pricing.NoPrefixIsShadowed` | internal/analytics/model_price.go:22-43 | no prefix of the price table properly starts a later one |
| `Pricing.FirstMatchIsLongest` | internal/analytics/model_price.go:20-43 | for every model name the entry found is the longest prefix in the table that fits |
| `MetricsEngine.Compute` | internal/analytics/metrics_engine.go:47-236 | the two passes return the grouped specification: per-session folds summed over sessions, per-model and per-activity totals, ratios with guarded division |
| `MetricsLaws.RatiosMean` | internal/analytics/metrics_engine.go:178-188 | every ratio times its denominator is its numerator, or it is zero over zero: cache reads over input and cache, retry tokens over spend (rework and retry alike), thinking over thinking and coding, bloated over long sessions, cold-restart tokens over input |
| `MetricsLaws.CountsMean` | internal/analytics/metrics_engine.go:213-235 | events, sessions, spend and cache totals are those of the log; long sessions are those of ten turns or more, bloated ones those of them whose later half has at least twice the context a turn of a positive earlier half, in whole numbers |
| `MetricsLaws.WasteIsExact` | internal/analytics/metrics_engine.go:110-135 | summed over the log as it is, sessions interleaved: retry tokens are the spend of turns without error right after an error of their session, cold-restart tokens the input of turns over five minutes after the one before them in their session |
| `MetricsLaws.FractionOfBoth` | internal/analytics/metrics_engine.go:186-188 | for thinking and coding that are not negative the ratio times both is the thinking |
| `MetricsLaws.PremiumTokensMean` | internal/analytics/metrics_engine.go:166-173 | premium spend counts a turn exactly when it has a session, is exploration or conversation, and its model's name holds a premium name |
| `MetricsLaws.ActivityBreakdownMeans` | internal/analytics/metrics_engine.go:191-200 | there is a breakdown for each of the six activities and no other, of its own turns' spend and its share of the whole |
| `MetricsLaws.ModelBreakdownMeans` | internal/analytics/metrics_engine.go:202-211 | there is a breakdown for each model of the log and no other, of its own turns' spend and its share of the whole |
| `MetricsLaws.BloatedMeans` | internal/analytics/metrics_engine.go:155-163 | a session is flagged bloated if and only if its context grows so, in whole numbers |
| `MetricsEngine.Aggregate` | internal/analytics/metrics_engine.go:77-136 | after the interleaved pass every map entry is the fold of its own group: session states, model and activity totals, order of first sight |
| `MetricsEngine.Accumulate` | internal/analytics/metrics_engine.go:110-135 | one turn on, the state machine of a session holds the fold of its turns: retry tokens are those of non-error turns right after an error, cold tokens those after a gap over five minutes |
| `MetricsEngine.Derive` | internal/analytics/metrics_engine.go:149-175 | the pass over the session map, in any order, sums what each session contributes |
| `MetricsEngine.DeriveOne` | internal/analytics/metrics_engine.go:149-174 | the contribution of one session to spend, retry, cold restart, bloat and premium waste |
| `MetricsEngine.Classify` | internal/analytics/metrics_engine.go:154-163 | a session is long from ten turns on, and bloated when the later half of its contexts averages at least twice a positive earlier half |
| `MetricsEngine.PremiumSpend` | internal/analytics/metrics_engine.go:166-174 | the inner loop sums the spend of premium turns on exploration or conversation whose session id is not empty, over the whole log |
| `MetricsEngine.AvgInt` | internal/analytics/metrics_engine.go:245-254 | the loop computes the average, zero for an empty list |
| `MetricsEngine.SpendOverSessions` | internal/analytics/metrics_engine.go:149-152 | spend summed over sessions is spend summed over the log |
| `MetricsEngine.BuildActivities` | internal/analytics/metrics_engine.go:191-200 | one breakdown for each of the six activities, with its tokens, share and cost |
| `MetricsEngine.BuildModels` | internal/analytics/metrics_engine.go:202-211 | one breakdown for each model in the log, with its tokens, share and cost |
| `MetricsLaws.InterleavingDoesNotMatter` | internal/analytics/metrics_engine.go:47-236 | two logs that interleave the same per-session turns have the same metrics |
| `MetricsLaws.WasteWithinSpend` | internal/analytics/metrics_engine.go:110-135 | within a session retry tokens never exceed spend, cold-restart tokens never exceed input, premium tokens never exceed spend |
| `MetricsLaws.DerivedTotalBounds` | internal/analytics/metrics_engine.go:149-163 | the same over all sessions, and no more bloated sessions than long ones |
| `MetricsLaws.RatiosAreShares` | internal/analytics/metrics.go:43-50 | for tokens that are never negative every ratio but the premium one, and the share of every model and every activity, lies between 0 and 1 |
| `MetricsLaws.PremiumWasteIsMultiplied` | internal/analytics/metrics_engine.go:165-182 | the premium ratio is the number of sessions times the premium spend, over the spend |
| `MetricsLaws.PremiumWasteIsAShareExactlyWhen` | internal/analytics/metrics.go:49 | the premium ratio lies between 0 and 1 if and only if sessions times premium spend does not exceed spend |
| `MetricsLaws.PremiumWasteCanExceedOne` | internal/analytics/metrics.go:43-49 | the concrete log of two one-turn sessions whose premium ratio is 2, against the comment |
| `MetricsLaws.ModelsAddUp` | internal/analytics/metrics_engine.go:202-211 | tokens and costs of the models sum to the totals |
| `MetricsLaws.ModelCostIsPriceOfTokens` | internal/analytics/metrics_engine.go:86-100 | the cost of a model is the price of its summed tokens |
| `MetricsLaws.TotalCostIsPricedByModel` | internal/analytics/metrics_engine.go:86-100 | the total cost, added up turn by turn, is the sum over models of the price of the model's summed tokens |
| `MetricsLaws.ActivitiesAddUp` | internal/analytics/metrics_engine.go:191-200 | tokens and costs of the six activities sum to the totals less those of unlisted activities |
| `MetricsLaws.NothingUnlisted` | internal/analytics/metrics_engine.go:93-94 | when every activity is one of the six, nothing is unlisted |
| `MetricsLaws.AnyEstimatedMembers` | internal/analytics/metrics_engine.go:88-91 | the estimate flag is set if and only if some turn has no price |
| `SessionAnalyzer.GroupBySession` | internal/deepanalysis/session_analyzer.go:31-46 | each accumulator holds exactly the turns of its session in order, with their activity counts and the project and source of the first; sessions in order of first sight |
| `SessionAnalyzer.ComputeSessionStats` | internal/deepanalysis/session_analyzer.go:24-58 | one statistic per session, in order of first sight, each the one of that session's turns |
| `SessionAnalyzer.BuildStat` | internal/deepanalysis/session_analyzer.go:94-193 | the statistic of a session: sums, cost, errors, fix iterations, cold restarts among parsed stamps, growth, duration, a most frequent activity |
| `SessionAnalyzer.StatMeans` | internal/deepanalysis/session_analyzer.go:118-192 | project and source are the first turn's, error turns the number of error turns, the average the whole tokens a turn, the duration the whole minutes from first to last parsed turn |
| `SessionAnalyzer.FixIterationsCount` | internal/deepanalysis/session_analyzer.go:121-124 | a fix iteration is counted exactly at a coding turn right after a testing one |
| `SessionAnalyzer.ScanTurns` | internal/deepanalysis/session_analyzer.go:113-124 | tokens, cost, error turns, and coding turns right after testing turns |
| `SessionAnalyzer.ScanStamps` | internal/deepanalysis/session_analyzer.go:126-134 | the parsed turns, and the cold restarts among neighbours of them |
| `SessionAnalyzer.Growth` | internal/deepanalysis/session_analyzer.go:138-153 | late average over early average of ten or more parsed turns, zero when the early half is not positive |
| `AnalyzersAgree.StatGrowthMeans` | internal/deepanalysis/session_analyzer.go:138-153 | for every statistic with n >= 10 parsed turns, mid = n / 2 and positive early tokens, growth times early tokens times (n - mid) is late tokens times mid; otherwise the growth is zero; it is 2 or more exactly when the later half averages at least double |
| `SessionAnalyzer.Dominant` | internal/deepanalysis/session_analyzer.go:163-170 | whatever the order of the map, an activity no other outnumbers |
| `SessionAnalyzer.FixIterationsBound` | internal/deepanalysis/session_analyzer.go:121-124 | fix iterations are at most half the turns |
| `SessionAnalyzer.ColdTurnsBound` | internal/deepanalysis/session_analyzer.go:126-134 | cold restarts are fewer than parsed turns |
| `SessionAnalyzer.StatBounds` | internal/deepanalysis/session_analyzer.go:94-193 | every statistic built has at most half its turns as fix iterations and at most all but one as cold restarts |
| `SessionAnalyzer.Top` | internal/deepanalysis/session_analyzer.go:65-77 | the list is sorted, holds min(8, qualifying) of the qualifying sessions, and none left out ranks above one listed |
| `SessionAnalyzer.DeepAnalyze` | internal/deepanalysis/session_analyzer.go:62-92 | the five lists, each the top of its own filter and order over the same statistics |
| `SessionAnalyzer.TopListsMean` | internal/deepanalysis/session_analyzer.go:79-91 | by their fields: by spend; two or more fix iterations, by them; ten turns or more, by average context; growth of 2 or more, by it; any cold restart, by their tokens. Each list has at most eight, and what qualifies and is missing met a full list of higher or equal rank |
| `AnalyzersAgree.ZStampsAreReadAlike` | internal/analytics/metrics_engine.go:111 | a stamp with a final Z is read alike by both, whether it parses or not |
| `AnalyzersAgree.FlagsAreCounted` | internal/deepanalysis/session_analyzer.go:126-131 | the turns flagged as cold restarts are those whose tokens each analyzer sums and whose number the session analyzer counts |
| `AnalyzersAgree.FlagsAgreeExactlyWhen` | internal/analytics/metrics_engine.go:110-115 | on stamps read alike the two disagree at a turn if and only if it resumes over five minutes after the last parsed turn while the one right before it did not parse (only the session analyzer flags it), or it does not parse and the one right before it lies over five minutes before year 1 (only the engine does) |
| `AnalyzersAgree.SameFlagsExactlyWhen` | internal/deepanalysis/session_analyzer.go:126-133 | so both flag the same turns of a session if and only if it has no such turn |
| `AnalyzersAgree.SameColdTurns` | internal/analytics/metrics_engine.go:110-115 | when all stamps are read alike and parse, both flag the same turns |
| `AnalyzersAgree.TokensAgree` | internal/deepanalysis/session_analyzer.go:113-115 | turn counts sum to the number of events, and session spend to the engine's spend plus cache tokens |
| `AnalyzersAgree.CostsAgree` | internal/deepanalysis/session_analyzer.go:116-117 | both count the same sessions and the same total cost |
| `AnalyzersAgree.LongSessionsAgree` | internal/deepanalysis/session_analyzer.go:88 | sessions of ten turns or more are the engine's long sessions |
| `AnalyzersAgree.SameBloatedSessions` | internal/deepanalysis/session_analyzer.go:138-153 | on parsed logs without output and cache creation, a session has a bloat trend if and only if its context grows as the engine's bloated ones do |
| `AnalyzersAgree.BloatSessionsAgree` | internal/analytics/metrics_engine.go:155-163 | so both count the same number of bloated sessions |
| `AnalyzersAgree.FiveMinutesExactly` | internal/analytics/metrics_engine.go:112 | to both, a gap of five minutes is no cold restart and one of a nanosecond more is |
| `AnalyzersAgree.ColdTokensAgree` | internal/deepanalysis/session_analyzer.go:128-131 | on stamps read alike, parsed or not, with no instant before year 1, the engine's cold-restart tokens never exceed the sum of the analyzer's |
| `AnalyzersAgree.UnparsedTurnsDiffer` | internal/deepanalysis/session_analyzer.go:126-133 | the concrete log with a Z stamp that does not parse on which the analyzer sees a cold restart and the engine none |
| `AnalyzersAgree.OffsetStampsDiffer` | infrastructure/adapters/claudecode/adapter.go:138-140 | two stamps with an offset, kept as they are: both parse, yet the engine, which appends a Z, sees no cold restart and the analyzer one |
| `AnalyzersAgree.ZonelessStampsDiffer` | internal/analytics/metrics_engine.go:111 | two stamps without a zone, which parse only with the engine's Z: the engine sees a cold restart and the analyzer none |
| `CronScheduler.Crontab.Install` | infrastructure/scheduler/cron.go:18-28 | appends the entry to the trimmed text unless the marker is there; an unreadable crontab counts as empty; an unwritable one stays and fails the call |
| `CronScheduler.Crontab.Remove` | infrastructure/scheduler/cron.go:31-43 | drops the marked lines, leaves an unreadable crontab alone |
| `CronScheduler.JoinSplit` | infrastructure/scheduler/cron.go:37-42 | joining the split lines gives the text back |
| `CronScheduler.SplitJoin` | infrastructure/scheduler/cron.go:37-42 | splitting joined lines gives the lines back |
| `CronScheduler.MarkerIsInALine` | infrastructure/scheduler/cron.go:24 | the marker occurs in the text if and only if it occurs in one of its lines |
| `CronScheduler.InstalledLines` | infrastructure/scheduler/cron.go:27 | an installed text has the trimmed lines, then one marked line, then the final newline |
| `CronScheduler.EntryRunsCollect` | infrastructure/scheduler/cron.go:23 | read word by word the entry is every tenth minute of every hour and day, the given binary, collect, and the marker |
| `CronScheduler.RemoveUndoesInstall` | infrastructure/scheduler/cron.go:18-43 | from a marker-free text, Remove after Install gives it back with its trailing newlines made one |
| `CronScheduler.RunsStayAsExpected` | infrastructure/scheduler/cron.go:18-43 | from a marker-free crontab, every sequence of installs and removes leaves the original, the original with one final newline, or that with one entry |
| `CronScheduler.RunsKeepUserLines` | infrastructure/scheduler/cron.go:18-43 | so the user's non-blank lines stay, in order, and at most one line is marked |
| `CronScheduler.InstallIsIdempotent` | infrastructure/scheduler/cron.go:24-26 | a second install, with any path, changes nothing |
| `CronScheduler.RemoveIsIdempotent` | infrastructure/scheduler/cron.go:36-42 | a second remove changes nothing, and no marker is left after the first |
| `CronScheduler.UnreadInstallKeepsLinesExactlyWhen` | infrastructure/scheduler/cron.go:19-22 | an install that could not read an existing crontab keeps the user's lines if and only if it cannot write either or there were none |
| `CronScheduler.UnreadInstallLosesLine` | infrastructure/scheduler/cron.go:19-27 | the concrete one-line crontab that an install unable to read it replaces |
| `Findings.ActiveFindings` | internal/insights/finding.go:87-95 | the loop lists the findings whose predicate holds, in table order |
| `Findings.ActiveMembers` | internal/insights/finding.go:87-95 | a finding is listed if and only if its threshold is crossed, and once |
| `Findings.ThresholdsMean` | internal/insights/finding.go:27-84 | the thresholds as whole-number comparisons, finding by finding; a key that is none is never active |
| `Recommendations.ComputeBlendedRates` | internal/insights/recommendation.go:94-110 | in whatever order the models come, both rates are total cost over the halved tokens, or zero without tokens |
| `Recommendations.Enrich` | internal/insights/recommendation.go:62-92 | the recommendations are the active findings, each with its own goal, evidence and savings, by savings descending, numbered from 1; the bill is the sum of their savings |
| `SavingsMeaning.EvidenceMeans` | internal/insights/recommendation.go:122-241 | target and evidence are those of the finding: its metric's value and its goal |
| `SavingsMeaning.RankedSavingsMean` | internal/insights/recommendation.go:94-120 | savings times days times the blended tokens are thirty times the avoidable tokens times the summed model costs, so they fall as the window grows; a fifth of a high cost; zero without days or tokens |
| `SavingsMeaning.SavingsMean` | internal/insights/recommendation.go:113-120 | the same of the savings function: over thirty days, all blended tokens save what all models cost |
| `SavingsMeaning.HalvesMean` | internal/insights/recommendation.go:100-104 | the blended tokens are twice half of each model's, an odd token lost, at the model's cost |
| `SavingsMeaning.GoalIsInactive` | internal/insights/finding.go:27-84 | no finding is active at its own goal |
| `SavingsMeaning.CacheAmount` | internal/insights/recommendation.go:124-129 | the cache amount is the whole part of the tokens between the hit ratio and 0.60 |
| `SavingsMeaning.RoughAmounts` | internal/insights/recommendation.go:186-217 | the other amounts are the whole tenth and twentieth of the spend and half of the retry tokens |
| `Recommendations.EnrichEach` | internal/insights/recommendation.go:70-74 | the loop enriches the active findings, each once and in table order |
| `Recommendations.RankedIsPermutation` | internal/insights/recommendation.go:67-83 | a finding is recommended if and only if it is active, no finding twice, with priority its place |
| `Recommendations.AvoidableNonNegative` | internal/insights/recommendation.go:122-228 | behind its threshold each avoidable amount is not negative and the cold-restart divisor is not zero |
| `Recommendations.SavingsSign` | internal/insights/recommendation.go:113-120 | savings of a non-negative amount are negative exactly for a negative number of days with something to save |
| `Recommendations.SavingsNonNegative` | internal/insights/recommendation.go:62-120 | for non-negative metrics no savings are negative if and only if the days are not negative or the savings of no active finding depend on them; for days that are not negative neither is the bill |
| `SavingsLaws.MetricsAreNonNegative` | internal/analytics/metrics_engine.go:47-236 | metrics of a log without negative tokens are not negative |
| `SavingsLaws.SavingsFromLog` | internal/insights/recommendation.go:62-120 | the same from any log without negative tokens, engine and recommendations together |
| `SavingsLaws.MetricsHaveWasteRatios` | internal/analytics/metrics_engine.go:180-183 | the metrics of a log tie each waste ratio to the tokens it is the ratio of |
| `SavingsLaws.ReworkReachesGoal` | internal/insights/recommendation.go:142-144 | retry tokens less the avoidable ones are the rework goal's share of the spend, or less than one token above it, never below |
| `SavingsLaws.PremiumReachesGoal` | internal/insights/recommendation.go:157-159 | the same for the premium amount and its goal |
| `SavingsLaws.ColdRestartReachesGoal` | internal/insights/recommendation.go:172-174 | the same for cold-restart tokens against input tokens, though the code computes it by dividing by the share |
| `FollowThrough.ResolvedMeansInactive` | internal/insights/follow_through.go:130-154 | on the value of a metric, a key counts as resolved if and only if its finding is not active on those metrics |
| `FollowThrough.FollowThroughStore.LoadRecords` | infrastructure/sqlite/followthrough_store.go:25-47 | returns every stored record once, in any order |
| `FollowThrough.FollowThroughStore.UpsertRecords` | infrastructure/sqlite/followthrough_store.go:50-84 | replaces records by key, later ones winning, or changes nothing when the transaction fails |
| `FollowThrough.Sync` | internal/insights/follow_through.go:42-94 | new keys get a baseline, known ones keep theirs and get the current value and a status; nothing changes when loading or writing fails |
| `FollowThrough.UpsertEach` | infrastructure/sqlite/followthrough_store.go:69-82 | the upsert loop replaces by key on the table the transaction sees |
| `FollowThrough.StatusMeansNearer` | internal/insights/follow_through.go:74-80 | for a finding active at baseline and now, the status is improving if and only if the value is strictly nearer to its goal than the baseline, and regressing otherwise |
| `FollowThrough.RunStatus` | internal/insights/follow_through.go:60-87 | over any run of calls fed by their own metrics the stored status is improving after one sync, and then says whether the latest value is nearer to the goal than the first |
| `FollowThrough.RunKeepsBaselines` | internal/insights/follow_through.go:42-94 | over any run of calls a key is stored if and only if it was ever synced; its baseline is the value at the first successful sync, its current value the one of the latest |
| `FollowThrough.EnrichedSyncNeverResolves` | application/report.go:29-31 | a sync fed by the recommendations of the same metrics never yields status resolved |
| `FollowThrough.RunNeverResolves` | application/push.go:28-30 | so over any run of such calls no stored record is ever resolved |
| `ExportMerger.Dedupe` | internal/team/export_merger.go:16-33 | the loop returns per user, in order of first sight, the latest of that user's exports |
| `ExportMerger.ListLatest` | internal/team/export_merger.go:28-32 | the second loop lists the latest exports in order of first sight |
| `ExportMerger.LatestIsEarliestGreatest` | internal/team/export_merger.go:24-26 | the one kept is the earliest among those with the greatest GeneratedAt |
| `ExportMerger.DedupedUsers` | internal/team/export_merger.go:18-31 | the result has one export for each user, in order of first sight |
| `ExportMerger.DedupeAbsorbs` | internal/team/export_merger.go:16-33 | deduping a deduped list with more appended equals deduping the whole |
| `ExportMerger.DedupeIsIdempotent` | internal/team/export_merger.go:16-33 | deduping twice is deduping once |
| `ExportMerger.MergeMetrics` | internal/team/export_merger.go:37-67 | the loop and the divisions compute the merged metrics, all zero for no exports |
| `ExportMerger.MergedMeaning` | internal/team/export_merger.go:43-65 | events, sessions, tokens and cost are sums; every ratio times the number of exports is the sum of theirs |
| `ExportMerger.MergeIsPermutationInvariant` | internal/team/export_merger.go:37-67 | the order of the exports does not matter |
| `ExportMerger.MergedRatioIsBetween` | internal/team/export_merger.go:57-65 | a merged ratio lies between any bounds that hold for every export's ratio |
| `ExportMerger.RollUp` | internal/team/export_merger.go:70-123 | one rollup per group with members present, by sorted name, and one for all |
| `ExportMerger.RollupsMean` | internal/team/export_merger.go:81-105 | a group has a rollup if and only if an export's user is a member; it carries the group's name and members and merges exactly the exports of those members |
| `ExportMerger.AllRollupMeans` | internal/team/export_merger.go:107-120 | the rollup of all merges every export and lists their users in order |
| `ExportMerger.SelectMembersOf` | internal/team/export_merger.go:83-92 | the exports of a group, in order |
| `ExportMerger.GroupNames` | internal/team/export_merger.go:75-79 | the group names, sorted and once each |
| `ExportMerger.RollupCountsMemberships` | internal/team/export_merger.go:81-105 | for any configuration the group totals count each export as often as its user is a member of groups |
| `ExportMerger.RollupConserves` | internal/team/export_merger.go:81-120 | when each user is in exactly one group, group sums equal those of all, and each ratio of all is the size-weighted mean of the group ratios |
| `ExportMerger.RollupsAddUp` | internal/team/export_merger.go:93-120 | so the events, sessions, tokens and cost shown for the groups add up to those shown for all, though a group without exports shows none |
| `Providers.FetchOpenAI` | infrastructure/providers/openai.go:42-95 | the page loop returns one usage per model of the rows of all pages, or fails on a failed page |
| `Providers.FetchAnthropic` | infrastructure/providers/anthropic.go:47-101 | the page loop returns one usage per model of the rows of all pages, or fails on a failed page |
| `Providers.AddOpenAIRows` | infrastructure/providers/openai.go:73-83 | rows added to the totals of earlier rows give the totals of both |
| `Providers.OpenAIRowAdds` | infrastructure/providers/openai.go:79-82 | a row adds its cached input to the cache reads, the rest of its input to the input, its output to the output |
| `Providers.AddAnthropicRows` | infrastructure/providers/anthropic.go:79-89 | rows added to the totals of earlier rows give the totals of both |
| `Providers.AnthropicRowAdds` | infrastructure/providers/anthropic.go:85-88 | a row adds each column to its own, both cache lifetimes to the cache creation |
| `Providers.OpenAITotal` | infrastructure/providers/openai.go:79-82 | the split into cached and uncached input cancels out of the total tokens |
| `Providers.AnthropicTotal` | infrastructure/providers/anthropic.go:85-88 | the total is the sum of the five token columns |
| `Providers.OpenAITotals` | infrastructure/providers/openai.go:73-83 | so the billed tokens per model are the summed input and output of its rows |
| `Providers.AnthropicTotals` | infrastructure/providers/anthropic.go:79-89 | so the billed tokens per model are the summed columns of its rows |
| `Providers.PagingDoesNotMatter` | infrastructure/providers/openai.go:85-88 | splitting a page in two, anywhere in the list, changes no row |
| `Providers.ReadingStops` | infrastructure/providers/openai.go:58-88 | what is read are the pages up to the first without a successor; a failure before that is the result |
| `Providers.ListUsages` | infrastructure/providers/anthropic.go:97-100 | the usages list each model once, in any order |
| `Reconciliation.ToLocalTotals` | application/util.go:37-43 | the loop sums all four token counts per model |
| `Reconciliation.Compare` | internal/reconciliation/service.go:11-58 | one row for each local model, with the verdict of the 5% comparison, and a breach if and only if some row exceeds |
| `Reconciliation.VerdictsMean` | internal/reconciliation/service.go:26-50 | in every result: local-only without a billed total; otherwise exceeding if and only if twenty times the local total is over twenty-one times the billed one; coverage times the billed total is the local one; a breach if and only if some model exceeds |
| `Reconciliation.CompareOne` | internal/reconciliation/service.go:26-50 | the three verdicts of one model, its coverage, and whether it is a breach |
| `Reconciliation.ReconcileOpenAI` | application/reconcile.go:49-61 | end to end, the rows compare summed local tokens with the summed input and output of all API rows, page boundaries and map order aside |
| `Reconciliation.ReconcileAnthropic` | application/reconcile.go:49-61 | end to end, the rows compare summed local tokens with the summed columns of all API rows |
| `Reconciliation.MapOrderDoesNotMatter` | internal/reconciliation/service.go:26-50 | any two results of the same totals have the same rows, as many as local models, and the same breach |

## Left out

- Walking files, JSON, HTTP, SQL execution and the `crontab` command: parsed lines, pages, rows and the crontab text are values, and whether each call fails is a parameter (a transaction outcome, readable and writable flags, a failed page).
- The clock: the time of a call and the cutoff of a load are parameters. Parsing and formatting RFC 3339 timestamps, lower-casing and classifying an activity are function parameters, so the theorems hold for every such function.
- Float rounding and machine-integer overflow: money and ratios are exact reals and tokens unbounded integers, except 64-bit varints and the signed conversion of a length, which are written out. The saturation of Go durations is not modelled.
- `UsageEvent`, `RawUsageEvent` and `StoredEvent` are one record here, as their fields mirror each other; the JSON text of the tools column is not modelled.
- `Uvarint` is written with multiplication and addition in place of shifts and bitwise or; the groups it joins do not overlap. Absent and empty field data are not told apart.
- The session states of the engine, the accumulators of the analyzer and the provider totals are map values here, replaced at each turn, where the program updates them through pointers held in a map; aliasing is not modelled.
- Session sums the engine keeps but never reads (per-session input, output and cache sums, error turns, activities, last tool), the order of sessions and the total output tokens.
- BuildStat: the one loop of `buildStat` is two methods here, `ScanTurns` and `ScanStamps`, over the same turns.
- LoadEvents: the order of rows with equal timestamps stays open, as the query leaves it.
- `sort.Slice`, `sort.Strings` and `ORDER BY` are modelled by what they promise, a sorted permutation; the order of equal elements stays open. Strings are compared by code point.
- Labels, messages and number formatting of recommendations; the `updated_at` column; personas and dominant activity of rollups (merging never fills the activities).
- The other adapters (Gemini, Claude Code, Copilot, Antigravity, Cursor): field copying and per-run dedupe; the Gemini keys use a counter shared across files, so incremental equivalence is not claimed for it.
- The activity classifier, persona assigner, token estimator, trends, team configuration parser, signing and trust, launchd, renderers and commands.
