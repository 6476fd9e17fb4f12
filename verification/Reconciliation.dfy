/** Billing data: the pages of a provider's usage API, added up per model. */
module Providers {
  import opened Wrappers
  import opened Grouping
  import opened MapSums

  datatype ProviderUsage = ProviderUsage(
    model: string,
    inputTokens: int,
    outputTokens: int,
    cacheReadTokens: int,
    cacheCreationTokens: int
  )

  const NO_USAGE := ProviderUsage("", 0, 0, 0, 0)

  function UsageModel(u: ProviderUsage): string { u.model }

  function TotalTokens(u: ProviderUsage): int {
    u.inputTokens + u.outputTokens + u.cacheReadTokens + u.cacheCreationTokens
  }

  /** A reply to one request: an error, or a page that may have a successor. */
  datatype Response<+R> = Failed | Page(rows: seq<R>, hasMore: bool)

  /** The rows up to the first page without a successor; None if a request fails or is never answered. */
  function AllRows<R>(responses: seq<Response<R>>): Option<seq<R>> {
    if responses == [] || responses[0].Failed? then None
    else if !responses[0].hasMore then Some(responses[0].rows)
    else
      match AllRows(responses[1..])
      case None => None
      case Some(rows) => Some(responses[0].rows + rows)
  }

  /** Only the rows matter, not where the pages break. */
  lemma {:induction false} PagingDoesNotMatter<R>(before: seq<Response<R>>, a: seq<R>, b: seq<R>, more: bool,
                                                  after: seq<Response<R>>)
    requires forall p :: p in before ==> p.Page? && p.hasMore
    ensures AllRows(before + [Page(a, true), Page(b, more)] + after) == AllRows(before + [Page(a + b, more)] + after)
  {
    if before == [] {
      var two, one := [Page(a, true), Page(b, more)] + after, [Page(a + b, more)] + after;
      assert before + [Page(a, true), Page(b, more)] + after == two && before + [Page(a + b, more)] + after == one;
      assert two[1..] == [Page(b, more)] + after && two[1..][1..] == after && one[1..] == after;
      if more && AllRows(after).Some? {
        assert a + (b + AllRows(after).value) == (a + b) + AllRows(after).value;
      }
    } else {
      PagingDoesNotMatter(before[1..], a, b, more, after);
      var two, one := before + [Page(a, true), Page(b, more)] + after, before + [Page(a + b, more)] + after;
      assert two[1..] == before[1..] + [Page(a, true), Page(b, more)] + after;
      assert one[1..] == before[1..] + [Page(a + b, more)] + after;
      assert before[0] in before && two[0] == one[0] == before[0];
    }
  }

  /** The pages that have a successor, and the first that has none, are what is read;
      an error before that is the end. */
  lemma {:induction false} ReadingStops<R>(before: seq<Response<R>>, rows: seq<R>, after: seq<Response<R>>)
    requires forall p :: p in before ==> p.Page? && p.hasMore
    ensures AllRows(before + [Page(rows, false)] + after) == Some(RowsOf(before) + rows)
    ensures AllRows(before + [Failed] + after) == None && AllRows(before) == None
  {
    var last, failed := before + [Page(rows, false)] + after, before + [Failed] + after;
    if before == [] {
      assert RowsOf(before) + rows == rows;
    } else {
      ReadingStops(before[1..], rows, after);
      assert last[1..] == before[1..] + [Page(rows, false)] + after && failed[1..] == before[1..] + [Failed] + after;
      assert before[0] in before && last[0] == failed[0] == before[0];
      assert before[0].rows + (RowsOf(before[1..]) + rows) == (before[0].rows + RowsOf(before[1..])) + rows;
    }
  }

  function RowsOf<R>(pages: seq<Response<R>>): seq<R>
    requires forall p :: p in pages ==> p.Page?
  {
    if pages == [] then [] else pages[0].rows + RowsOf(pages[1..])
  }

  /* OpenAI: input_tokens includes the cached ones */

  datatype OpenAIRow = OpenAIRow(model: string, inputTokens: int, inputCachedTokens: int, outputTokens: int)

  function OpenAIModel(r: OpenAIRow): string { r.model }

  function OpenAIUncached(r: OpenAIRow): int { r.inputTokens - r.inputCachedTokens }

  function OpenAICached(r: OpenAIRow): int { r.inputCachedTokens }

  function OpenAIOutput(r: OpenAIRow): int { r.outputTokens }

  /** What a row adds to the total: the cached tokens, taken from the input, come back as cache reads. */
  function OpenAITokens(r: OpenAIRow): int { r.inputTokens + r.outputTokens }

  /** The usage of one model's rows. */
  function OpenAIUsage(rows: seq<OpenAIRow>): ProviderUsage {
    if rows == [] then NO_USAGE
    else ProviderUsage(rows[0].model, Sum(rows, OpenAIUncached), Sum(rows, OpenAIOutput), Sum(rows, OpenAICached), 0)
  }

  /** What one more row adds: its cached input to the cache reads, the rest of its input to the input, its output. */
  lemma {:induction false} OpenAIRowAdds(rows: seq<OpenAIRow>, row: OpenAIRow)
    ensures
      var before, after := OpenAIUsage(rows), OpenAIUsage(rows + [row]);
      && after.model == (if rows == [] then row.model else before.model)
      && after.inputTokens + after.cacheReadTokens == before.inputTokens + before.cacheReadTokens + row.inputTokens
      && after.cacheReadTokens == before.cacheReadTokens + row.inputCachedTokens
      && after.outputTokens == before.outputTokens + row.outputTokens
      && after.cacheCreationTokens == before.cacheCreationTokens
  {
    assert Front(rows + [row]) == rows;
    if rows == [] {
      assert Sum(rows, OpenAIUncached) == 0 && Sum(rows, OpenAIOutput) == 0 && Sum(rows, OpenAICached) == 0;
    }
  }

  method FetchOpenAI(responses: seq<Response<OpenAIRow>>) returns (r: Result<seq<ProviderUsage>, ()>)
    ensures r.Ok? <==> AllRows(responses).Some?
    ensures r.Ok? ==> AreUsages(r.value, GroupMap(AllRows(responses).value, OpenAIModel, OpenAIUsage))
  {
    var totals: map<string, ProviderUsage> := map[];
    ghost var seen: seq<OpenAIRow> := [];
    var i := 0;
    assert responses[0..] == responses;
    PrependNothing(AllRows(responses));
    while true
      invariant 0 <= i <= |responses|
      invariant totals == GroupMap(seen, OpenAIModel, OpenAIUsage)
      invariant AllRows(responses) == Prepend(seen, AllRows(responses[i..]))
      decreases |responses| - i
    {
      if i == |responses| || responses[i].Failed? {
        return Err(());
      }
      var result := responses[i];
      totals := AddOpenAIRows(totals, result.rows, seen);
      ghost var before := seen;
      seen := seen + result.rows;
      if !result.hasMore {
        break;
      }
      assert responses[i..][1..] == responses[i + 1..];
      PrependTwice(before, result.rows, AllRows(responses[i + 1..]));
      i := i + 1;
    }
    OpenAIUsagesName(seen);
    var usages := ListUsages(totals);
    return Ok(usages);
  }

  method AddOpenAIRows(totals0: map<string, ProviderUsage>, rows: seq<OpenAIRow>, ghost seen: seq<OpenAIRow>)
    returns (totals: map<string, ProviderUsage>)
    requires totals0 == GroupMap(seen, OpenAIModel, OpenAIUsage)
    ensures totals == GroupMap(seen + rows, OpenAIModel, OpenAIUsage)
  {
    totals := totals0;
    assert seen + [] == seen;
    for i := 0 to |rows|
      invariant totals == GroupMap(seen + rows[..i], OpenAIModel, OpenAIUsage)
    {
      var row := rows[i];
      ghost var before := seen + rows[..i];
      assert seen + rows[..i + 1] == before + [row];
      KeyOccurs(before, OpenAIModel, row.model);
      GroupMapStep(before, row, OpenAIModel, OpenAIUsage);
      var u := if row.model in totals then totals[row.model] else ProviderUsage(row.model, 0, 0, 0, 0);
      u := AddOpenAIRow(u, row, Select(before, OpenAIModel, row.model));
      totals := totals[row.model := u];
    }
    assert rows[..|rows|] == rows;
  }

  method AddOpenAIRow(u: ProviderUsage, row: OpenAIRow, ghost group: seq<OpenAIRow>) returns (r: ProviderUsage)
    requires u == if group == [] then ProviderUsage(row.model, 0, 0, 0, 0) else OpenAIUsage(group)
    ensures r == OpenAIUsage(group + [row])
  {
    r := u.(inputTokens := u.inputTokens + (row.inputTokens - row.inputCachedTokens));
    r := r.(cacheReadTokens := r.cacheReadTokens + row.inputCachedTokens);
    r := r.(outputTokens := r.outputTokens + row.outputTokens);
    assert Front(group + [row]) == group;
    if group == [] {
      assert Sum(group, OpenAIUncached) == 0 && Sum(group, OpenAIOutput) == 0 && Sum(group, OpenAICached) == 0;
    }
  }

  lemma {:induction false} OpenAIUsagesName(rows: seq<OpenAIRow>)
    ensures NamesModels(GroupMap(rows, OpenAIModel, OpenAIUsage))
  {
    forall m | m in Keys(rows, OpenAIModel)
      ensures OpenAIUsage(Select(rows, OpenAIModel, m)).model == m
    {
      var group := Select(rows, OpenAIModel, m);
      KeyOccurs(rows, OpenAIModel, m);
      SelectMembers(rows, OpenAIModel, m);
      assert group[0] in group;
    }
  }

  /** The billed total of every model, from its rows. */
  lemma {:induction false} OpenAITotals(rows: seq<OpenAIRow>)
    ensures Billed(GroupMap(rows, OpenAIModel, OpenAIUsage)) == GroupTotals(rows, OpenAIModel, OpenAITokens)
  {
    forall m | m in Keys(rows, OpenAIModel)
      ensures TotalTokens(OpenAIUsage(Select(rows, OpenAIModel, m))) == Sum(Select(rows, OpenAIModel, m), OpenAITokens)
    {
      OpenAITotal(Select(rows, OpenAIModel, m));
    }
  }

  /* Anthropic */

  datatype AnthropicRow = AnthropicRow(
    model: string,
    uncachedInputTokens: int,
    outputTokens: int,
    cacheReadInputTokens: int,
    ephemeral5m: int,
    ephemeral1h: int
  )

  function AnthropicModel(r: AnthropicRow): string { r.model }

  function AnthropicInput(r: AnthropicRow): int { r.uncachedInputTokens }

  function AnthropicOutput(r: AnthropicRow): int { r.outputTokens }

  function AnthropicCacheRead(r: AnthropicRow): int { r.cacheReadInputTokens }

  function AnthropicCacheCreation(r: AnthropicRow): int { r.ephemeral5m + r.ephemeral1h }

  function AnthropicTokens(r: AnthropicRow): int {
    r.uncachedInputTokens + r.outputTokens + r.cacheReadInputTokens + r.ephemeral5m + r.ephemeral1h
  }

  function AnthropicUsage(rows: seq<AnthropicRow>): ProviderUsage {
    if rows == [] then NO_USAGE
    else
      ProviderUsage(rows[0].model, Sum(rows, AnthropicInput), Sum(rows, AnthropicOutput), Sum(rows, AnthropicCacheRead),
                    Sum(rows, AnthropicCacheCreation))
  }

  /** What one more row adds, column by column; both lifetimes of cache creation count. */
  lemma {:induction false} AnthropicRowAdds(rows: seq<AnthropicRow>, row: AnthropicRow)
    ensures
      var before, after := AnthropicUsage(rows), AnthropicUsage(rows + [row]);
      && after.model == (if rows == [] then row.model else before.model)
      && after.inputTokens == before.inputTokens + row.uncachedInputTokens
      && after.outputTokens == before.outputTokens + row.outputTokens
      && after.cacheReadTokens == before.cacheReadTokens + row.cacheReadInputTokens
      && after.cacheCreationTokens == before.cacheCreationTokens + row.ephemeral5m + row.ephemeral1h
  {
    assert Front(rows + [row]) == rows;
    if rows == [] {
      assert Sum(rows, AnthropicInput) == 0 && Sum(rows, AnthropicOutput) == 0;
      assert Sum(rows, AnthropicCacheRead) == 0 && Sum(rows, AnthropicCacheCreation) == 0;
    }
  }

  method FetchAnthropic(responses: seq<Response<AnthropicRow>>) returns (r: Result<seq<ProviderUsage>, ()>)
    ensures r.Ok? <==> AllRows(responses).Some?
    ensures r.Ok? ==> AreUsages(r.value, GroupMap(AllRows(responses).value, AnthropicModel, AnthropicUsage))
  {
    var totals: map<string, ProviderUsage> := map[];
    ghost var seen: seq<AnthropicRow> := [];
    var i := 0;
    assert responses[0..] == responses;
    PrependNothing(AllRows(responses));
    while true
      invariant 0 <= i <= |responses|
      invariant totals == GroupMap(seen, AnthropicModel, AnthropicUsage)
      invariant AllRows(responses) == Prepend(seen, AllRows(responses[i..]))
      decreases |responses| - i
    {
      if i == |responses| || responses[i].Failed? {
        return Err(());
      }
      var result := responses[i];
      totals := AddAnthropicRows(totals, result.rows, seen);
      ghost var before := seen;
      seen := seen + result.rows;
      if !result.hasMore {
        break;
      }
      assert responses[i..][1..] == responses[i + 1..];
      PrependTwice(before, result.rows, AllRows(responses[i + 1..]));
      i := i + 1;
    }
    AnthropicUsagesName(seen);
    var usages := ListUsages(totals);
    return Ok(usages);
  }

  method AddAnthropicRows(totals0: map<string, ProviderUsage>, rows: seq<AnthropicRow>, ghost seen: seq<AnthropicRow>)
    returns (totals: map<string, ProviderUsage>)
    requires totals0 == GroupMap(seen, AnthropicModel, AnthropicUsage)
    ensures totals == GroupMap(seen + rows, AnthropicModel, AnthropicUsage)
  {
    totals := totals0;
    assert seen + [] == seen;
    for i := 0 to |rows|
      invariant totals == GroupMap(seen + rows[..i], AnthropicModel, AnthropicUsage)
    {
      var row := rows[i];
      ghost var before := seen + rows[..i];
      assert seen + rows[..i + 1] == before + [row];
      KeyOccurs(before, AnthropicModel, row.model);
      GroupMapStep(before, row, AnthropicModel, AnthropicUsage);
      var u := if row.model in totals then totals[row.model] else ProviderUsage(row.model, 0, 0, 0, 0);
      u := AddAnthropicRow(u, row, Select(before, AnthropicModel, row.model));
      totals := totals[row.model := u];
    }
    assert rows[..|rows|] == rows;
  }

  method AddAnthropicRow(u: ProviderUsage, row: AnthropicRow, ghost group: seq<AnthropicRow>) returns (r: ProviderUsage)
    requires u == if group == [] then ProviderUsage(row.model, 0, 0, 0, 0) else AnthropicUsage(group)
    ensures r == AnthropicUsage(group + [row])
  {
    r := u.(inputTokens := u.inputTokens + row.uncachedInputTokens);
    r := r.(outputTokens := r.outputTokens + row.outputTokens);
    r := r.(cacheReadTokens := r.cacheReadTokens + row.cacheReadInputTokens);
    r := r.(cacheCreationTokens := r.cacheCreationTokens + row.ephemeral5m + row.ephemeral1h);
    assert Front(group + [row]) == group;
    if group == [] {
      assert Sum(group, AnthropicInput) == 0 && Sum(group, AnthropicOutput) == 0;
      assert Sum(group, AnthropicCacheRead) == 0 && Sum(group, AnthropicCacheCreation) == 0;
    }
  }

  lemma {:induction false} AnthropicUsagesName(rows: seq<AnthropicRow>)
    ensures NamesModels(GroupMap(rows, AnthropicModel, AnthropicUsage))
  {
    forall m | m in Keys(rows, AnthropicModel)
      ensures AnthropicUsage(Select(rows, AnthropicModel, m)).model == m
    {
      var group := Select(rows, AnthropicModel, m);
      KeyOccurs(rows, AnthropicModel, m);
      SelectMembers(rows, AnthropicModel, m);
      assert group[0] in group;
    }
  }

  /** The billed total of every model, from its rows. */
  lemma {:induction false} AnthropicTotals(rows: seq<AnthropicRow>)
    ensures Billed(GroupMap(rows, AnthropicModel, AnthropicUsage)) == GroupTotals(rows, AnthropicModel, AnthropicTokens)
  {
    forall m | m in Keys(rows, AnthropicModel)
      ensures TotalTokens(AnthropicUsage(Select(rows, AnthropicModel, m)))
           == Sum(Select(rows, AnthropicModel, m), AnthropicTokens)
    {
      AnthropicTotal(Select(rows, AnthropicModel, m));
    }
  }

  /* Shared */

  function Prepend<R>(rows: seq<R>, rest: Option<seq<R>>): Option<seq<R>> {
    match rest
    case None => None
    case Some(more) => Some(rows + more)
  }

  lemma {:induction false} PrependNothing<R>(rest: Option<seq<R>>)
    ensures Prepend([], rest) == rest
  {
    if rest.Some? {
      assert [] + rest.value == rest.value;
    }
  }

  lemma {:induction false} PrependTwice<R>(a: seq<R>, b: seq<R>, rest: Option<seq<R>>)
    ensures Prepend(a, Prepend(b, rest)) == Prepend(a + b, rest)
  {
    if rest.Some? {
      assert a + (b + rest.value) == (a + b) + rest.value;
    }
  }

  ghost predicate NamesModels(totals: map<string, ProviderUsage>) {
    forall m :: m in totals ==> totals[m].model == m
  }

  /** The values of the totals, each once, in any order. */
  ghost predicate AreUsages(usages: seq<ProviderUsage>, totals: map<string, ProviderUsage>) {
    && DistinctKeys(usages, UsageModel)
    && (forall m :: m in totals ==> totals[m] in usages)
    && NamesModels(totals)
    && (forall u :: u in usages ==> u.model in totals && totals[u.model] == u)
  }

  /** The total tokens of every model. */
  function Billed(totals: map<string, ProviderUsage>): map<string, int> {
    map m | m in totals :: TotalTokens(totals[m])
  }

  method ListUsages(totals: map<string, ProviderUsage>) returns (usages: seq<ProviderUsage>)
    requires NamesModels(totals)
    ensures AreUsages(usages, totals)
  {
    usages := [];
    var todo := totals.Keys;
    while todo != {}
      invariant todo <= totals.Keys && DistinctKeys(usages, UsageModel)
      invariant forall u :: u in usages <==> u.model in totals.Keys - todo && totals[u.model] == u
      decreases |todo|
    {
      var m :| m in todo;
      assert forall i :: 0 <= i < |usages| ==> usages[i] in usages;
      usages := usages + [totals[m]];
      todo := todo - {m};
    }
  }

  /** The total of a model's OpenAI usage is its input and output; the cached split cancels out. */
  lemma {:induction false} OpenAITotal(rows: seq<OpenAIRow>)
    ensures Sum(rows, OpenAIUncached) + Sum(rows, OpenAIOutput) + Sum(rows, OpenAICached) == Sum(rows, OpenAITokens)
    ensures TotalTokens(OpenAIUsage(rows)) == Sum(rows, OpenAITokens)
  {
    if rows == [] {
    } else {
      OpenAITotal(Front(rows));
    }
  }

  lemma {:induction false} AnthropicTotal(rows: seq<AnthropicRow>)
    ensures Sum(rows, AnthropicInput) + Sum(rows, AnthropicOutput) + Sum(rows, AnthropicCacheRead) +
            Sum(rows, AnthropicCacheCreation) == Sum(rows, AnthropicTokens)
    ensures TotalTokens(AnthropicUsage(rows)) == Sum(rows, AnthropicTokens)
  {
    if rows == [] {
    } else {
      AnthropicTotal(Front(rows));
    }
  }
}

/** Local totals against billed totals, model by model. */
module Reconciliation {
  import opened Wrappers
  import opened Grouping
  import opened MapSums
  import opened Usage
  import opened Providers

  datatype Verdict = Fine | LocalExceedsApi | LocalOnly

  datatype Row = Row(model: string, localTokens: int, apiTokens: int, coverage: real, verdict: Verdict)

  datatype Reconciled = Reconciled(rows: seq<Row>, breach: bool)

  const TOLERANCE := 1.05

  function RowModel(r: Row): string { r.model }

  function SafeDiv(num: int, denom: int): real {
    if denom == 0 then 0.0 else num as real / denom as real
  }

  /** The row of one model, from its local tokens and, if there are any, its billed tokens. */
  function RowFor(model: string, localTokens: int, api: Option<int>): Row {
    match api
    case None => Row(model, localTokens, 0, 0.0, LocalOnly)
    case Some(apiTokens) =>
      Row(model, localTokens, apiTokens, SafeDiv(localTokens, apiTokens),
          if localTokens as real > apiTokens as real * TOLERANCE then LocalExceedsApi else Fine)
  }

  function Lookup(m: map<string, int>, k: string): Option<int> {
    if k in m then Some(m[k]) else None
  }

  /** One row per local model, and the breach flag says whether one of them exceeds. */
  ghost predicate Reconciles(r: Reconciled, local: map<string, int>, api: map<string, int>) {
    && DistinctKeys(r.rows, RowModel)
    && (forall row ::
          row in r.rows <==> row.model in local && row == RowFor(row.model, local[row.model], Lookup(api, row.model)))
    && (r.breach <==> exists row :: row in r.rows && row.verdict == LocalExceedsApi)
  }

  /** In whole numbers: a local total exceeds when twenty times it are more than twenty-one times the billed total. */
  predicate Exceeds(localTokens: int, apiTokens: int) {
    20 * localTokens > 21 * apiTokens
  }

  /** What a row says: the local total, the billed one if there is one, the coverage that makes one of the other, and
      the verdict. */
  ghost predicate Says(row: Row, local: map<string, int>, api: map<string, int>) {
    && row.model in local && row.localTokens == local[row.model]
    && (row.verdict == LocalOnly <==> row.model !in api)
    && (row.model in api ==>
          && row.apiTokens == api[row.model]
          && (row.verdict == LocalExceedsApi <==> Exceeds(row.localTokens, row.apiTokens))
          && (row.verdict == Fine <==> !Exceeds(row.localTokens, row.apiTokens))
          && IsCoverage(row.coverage, row.localTokens, row.apiTokens))
  }

  predicate IsCoverage(coverage: real, localTokens: int, apiTokens: int) {
    if apiTokens == 0 then coverage == 0.0 else coverage * apiTokens as real == localTokens as real
  }

  ghost predicate SomeExceeds(local: map<string, int>, api: map<string, int>) {
    exists m :: m in local && m in api && Exceeds(local[m], api[m])
  }

  lemma {:induction false} RowSays(model: string, local: map<string, int>, api: map<string, int>)
    requires model in local
    ensures Says(RowFor(model, local[model], Lookup(api, model)), local, api)
  {
    if model in api {
      InTwentieths(local[model], api[model]);
    }
  }

  /** Every row says so, and there is a breach exactly when some billed model's total exceeds. */
  lemma {:induction false} VerdictsMean(r: Reconciled, local: map<string, int>, api: map<string, int>)
    requires Reconciles(r, local, api)
    ensures forall row :: row in r.rows ==> Says(row, local, api)
    ensures r.breach <==> SomeExceeds(local, api)
  {
    forall row | row in r.rows
      ensures Says(row, local, api)
    {
      RowSays(row.model, local, api);
    }
    if m :| m in local && m in api && Exceeds(local[m], api[m]) {
      var row := RowFor(m, local[m], Lookup(api, m));
      RowSays(m, local, api);
      assert row in r.rows;
    }
  }

  lemma {:induction false} InTwentieths(localTokens: int, apiTokens: int)
    ensures localTokens as real > apiTokens as real * TOLERANCE <==> Exceeds(localTokens, apiTokens)
  {
  }

  /** Billed tokens by model; of several entries for one model the last counts. */
  function Index(usages: seq<ProviderUsage>): map<string, int> {
    if usages == [] then map[] else Index(Front(usages))[Last(usages).model := TotalTokens(Last(usages))]
  }

  method Compare(localTotals: map<string, int>, apiUsages: seq<ProviderUsage>) returns (r: Reconciled)
    ensures Reconciles(r, localTotals, Index(apiUsages))
  {
    var apiByModel: map<string, int> := map[];
    for i := 0 to |apiUsages|
      invariant apiByModel == Index(apiUsages[..i])
    {
      Snoc(apiUsages, i);
      apiByModel := apiByModel[apiUsages[i].model := TotalTokens(apiUsages[i])];
    }
    assert apiUsages[..|apiUsages|] == apiUsages;
    var rows: seq<Row>, breach := [], false;
    var todo := localTotals.Keys;
    while todo != {}
      invariant todo <= localTotals.Keys && DistinctKeys(rows, RowModel)
      invariant forall row :: row in rows <==>
        row.model in localTotals.Keys - todo
            && row == RowFor(row.model, localTotals[row.model], Lookup(apiByModel, row.model))
      invariant breach <==> exists row :: row in rows && row.verdict == LocalExceedsApi
      decreases |todo|
    {
      var model :| model in todo;
      var row, exceeds := CompareOne(model, localTotals[model], apiByModel);
      assert forall i :: 0 <= i < |rows| ==> rows[i] in rows;
      rows := rows + [row];
      breach := breach || exceeds;
      todo := todo - {model};
    }
    r := Reconciled(rows, breach);
  }

  /** The body of the loop. */
  method CompareOne(model: string, localTok: int, apiByModel: map<string, int>) returns (row: Row, exceeds: bool)
    ensures row == RowFor(model, localTok, Lookup(apiByModel, model))
    ensures exceeds <==> row.verdict == LocalExceedsApi
  {
    var verdict, coverage, apiTok := Fine, 0.0, 0;
    exceeds := false;
    if model !in apiByModel {
      verdict := LocalOnly;
    } else {
      apiTok := apiByModel[model];
      coverage := SafeDiv(localTok, apiTok);
      if localTok as real > apiTok as real * TOLERANCE {
        verdict := LocalExceedsApi;
        exceeds := true;
      }
    }
    row := Row(model, localTok, apiTok, coverage, verdict);
  }

  method ToLocalTotals(events: seq<Event>) returns (totals: map<string, int>)
    ensures totals == GroupTotals(events, ModelOf, AllTokens)
  {
    totals := map[];
    for i := 0 to |events|
      invariant totals == GroupTotals(events[..i], ModelOf, AllTokens)
    {
      Snoc(events, i);
      var e := events[i];
      GroupTotalsStep(events[..i], e, ModelOf, AllTokens);
      totals := Add(totals, e.model,
                    e.inputTokens + e.outputTokens + e.cacheReadTokens + e.cacheCreationTokens);
    }
    assert events[..|events|] == events;
  }

  lemma {:induction false} IndexOfUsages(usages: seq<ProviderUsage>, totals: map<string, ProviderUsage>)
    requires AreUsages(usages, totals)
    ensures Index(usages) == Billed(totals)
  {
    IndexMembers(usages);
    assert forall i :: 0 <= i < |usages| ==> usages[i] in usages;
  }

  lemma {:induction false} IndexMembers(usages: seq<ProviderUsage>)
    requires DistinctKeys(usages, UsageModel)
    ensures forall u :: u in usages ==> u.model in Index(usages) && Index(usages)[u.model] == TotalTokens(u)
    ensures forall m :: m in Index(usages) ==> exists u :: u in usages && u.model == m
  {
    if usages == [] {
    } else {
      assert usages == Front(usages) + [Last(usages)];
      IndexMembers(Front(usages));
    }
  }

  /** Every local model has exactly one row: its summed local tokens against its summed billed tokens,
      whatever the paging and the order of the rows; the flag is up exactly when a row exceeds. */
  method ReconcileOpenAI(events: seq<Event>, responses: seq<Response<OpenAIRow>>) returns (r: Result<Reconciled, ()>)
    ensures r.Ok? <==> AllRows(responses).Some?
    ensures r.Ok? ==>
      Reconciles(r.value, GroupTotals(events, ModelOf, AllTokens),
                 GroupTotals(AllRows(responses).value, OpenAIModel, OpenAITokens))
  {
    var usages := FetchOpenAI(responses);
    if usages.Err? {
      return Err(());
    }
    var localTotals := ToLocalTotals(events);
    var result := Compare(localTotals, usages.value);
    IndexOfUsages(usages.value, GroupMap(AllRows(responses).value, OpenAIModel, OpenAIUsage));
    OpenAITotals(AllRows(responses).value);
    return Ok(result);
  }

  method ReconcileAnthropic(events: seq<Event>, responses: seq<Response<AnthropicRow>>)
    returns (r: Result<Reconciled, ()>)
    ensures r.Ok? <==> AllRows(responses).Some?
    ensures r.Ok? ==>
      Reconciles(r.value, GroupTotals(events, ModelOf, AllTokens),
                 GroupTotals(AllRows(responses).value, AnthropicModel, AnthropicTokens))
  {
    var usages := FetchAnthropic(responses);
    if usages.Err? {
      return Err(());
    }
    var localTotals := ToLocalTotals(events);
    var result := Compare(localTotals, usages.value);
    IndexOfUsages(usages.value, GroupMap(AllRows(responses).value, AnthropicModel, AnthropicUsage));
    AnthropicTotals(AllRows(responses).value);
    return Ok(result);
  }

  /** Two results for the same totals agree row for row, whatever order the maps were visited in. */
  lemma {:induction false} MapOrderDoesNotMatter(a: Reconciled, b: Reconciled, local: map<string, int>,
                                                 api: map<string, int>)
    requires Reconciles(a, local, api) && Reconciles(b, local, api)
    ensures multiset(a.rows) == multiset(b.rows) && a.breach == b.breach
    ensures |a.rows| == |local|
  {
    assert forall row :: row in a.rows <==> row in b.rows;
    forall row: Row
      ensures multiset(a.rows)[row] == multiset(b.rows)[row]
    {
      Multiplicity(a.rows, row);
      Multiplicity(b.rows, row);
    }
    RowsCoverModels(a, local, api);
  }

  lemma {:induction false} Multiplicity(rows: seq<Row>, row: Row)
    requires DistinctKeys(rows, RowModel)
    ensures multiset(rows)[row] == if row in rows then 1 else 0
  {
    if rows == [] {
    } else {
      assert rows == Front(rows) + [Last(rows)];
      Multiplicity(Front(rows), row);
    }
  }

  lemma {:induction false} RowsCoverModels(r: Reconciled, local: map<string, int>, api: map<string, int>)
    requires Reconciles(r, local, api)
    ensures |r.rows| == |local|
  {
    KeysMembers(r.rows, RowModel);
    KeyCount(r.rows);
    forall m
      ensures m in Keys(r.rows, RowModel) <==> m in local.Keys
    {
      if m in local {
        assert RowFor(m, local[m], Lookup(api, m)) in r.rows;
        assert RowModel(RowFor(m, local[m], Lookup(api, m))) == m;
      }
    }
    assert Keys(r.rows, RowModel) == local.Keys;
  }

  lemma {:induction false} KeyCount(rows: seq<Row>)
    requires DistinctKeys(rows, RowModel)
    ensures |Keys(rows, RowModel)| == |rows|
  {
    if rows == [] {
    } else {
      KeyCount(Front(rows));
      KeysMembers(Front(rows), RowModel);
    }
  }
}
