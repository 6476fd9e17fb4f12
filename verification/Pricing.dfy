/** The price table: the first matching prefix decides, and cost is linear in the tokens. */
module Pricing {
  import opened Wrappers
  import opened Grouping
  import opened Usage
  import Strings

  datatype ModelPrice = ModelPrice(prefix: string, input: real, output: real, cacheRead: real, cacheWrite: real)

  datatype Cost = Cost(usd: real, estimated: bool, unpricedTokens: int)

  const PRICES: seq<ModelPrice> := [
    ModelPrice("claude-opus-4", 15.0, 75.0, 1.5, 18.75),
    ModelPrice("claude-sonnet-4", 3.0, 15.0, 0.3, 3.75),
    ModelPrice("claude-haiku-4", 0.8, 4.0, 0.08, 1.0),
    ModelPrice("claude-3-5-sonnet", 3.0, 15.0, 0.3, 3.75),
    ModelPrice("claude-3-5-haiku", 0.8, 4.0, 0.08, 1.0),
    ModelPrice("claude-3-opus", 15.0, 75.0, 1.5, 18.75),
    ModelPrice("claude-3-sonnet", 3.0, 15.0, 0.3, 3.75),
    ModelPrice("claude-3-haiku", 0.25, 1.25, 0.03, 0.3),
    ModelPrice("gpt-4o", 2.5, 10.0, 1.25, 0.0),
    ModelPrice("gpt-4-turbo", 10.0, 30.0, 0.0, 0.0),
    ModelPrice("gpt-4", 30.0, 60.0, 0.0, 0.0),
    ModelPrice("gpt-3.5", 0.5, 1.5, 0.0, 0.0),
    ModelPrice("o1", 15.0, 60.0, 7.5, 0.0),
    ModelPrice("o3", 10.0, 40.0, 2.5, 0.0),
    ModelPrice("gemini-2.0-flash", 0.1, 0.4, 0.025, 0.0),
    ModelPrice("gemini-1.5-pro", 1.25, 5.0, 0.3125, 0.0),
    ModelPrice("gemini-1.5-flash", 0.075, 0.3, 0.01875, 0.0)
  ]

  const PREMIUM_PREFIXES: seq<string> := [
    "claude-opus", "gpt-4", "o1", "o3", "gemini-1.5-pro", "claude-3-opus",
    "claude-3-5-sonnet", "claude-sonnet-4", "claude-opus-4"
  ]

  /** `lower` is Go's strings.ToLower. */
  datatype PricingService = PricingService(prices: seq<ModelPrice>, lower: string -> string) {
    /** The index of the first price from `i` on whose prefix the name starts with. */
    function FirstMatch(name: string, i: nat): (r: Option<nat>)
      requires i <= |prices|
      ensures r.Some? ==> i <= r.value < |prices| && lower(prices[r.value].prefix) <= name
      ensures forall j :: i <= j < (if r.Some? then r.value else |prices|) ==> !(lower(prices[j].prefix) <= name)
      decreases |prices| - i
    {
      if i == |prices| then None
      else if lower(prices[i].prefix) <= name then Some(i)
      else FirstMatch(name, i + 1)
    }

    function PriceOf(model: string): Option<ModelPrice> {
      match FirstMatch(lower(model), 0)
      case None => None
      case Some(i) => Some(prices[i])
    }

    function CostOf(model: string, input: int, output: int, cacheRead: int, cacheWrite: int): Cost {
      match PriceOf(model)
      case None => Cost(0.0, true, input + output + cacheRead + cacheWrite)
      case Some(p) =>
        Cost(input as real * p.input / 1000000.0 + output as real * p.output / 1000000.0 +
             cacheRead as real * p.cacheRead / 1000000.0 + cacheWrite as real * p.cacheWrite / 1000000.0,
             false, 0)
    }

    function EventCost(e: Event): Cost {
      CostOf(e.model, e.inputTokens, e.outputTokens, e.cacheReadTokens, e.cacheCreationTokens)
    }

    function Usd(e: Event): real { EventCost(e).usd }

    function Unpriced(e: Event): int { EventCost(e).unpricedTokens }

    predicate IsPremiumModel(model: string) {
      exists k :: 0 <= k < |PREMIUM_PREFIXES| && Strings.Contains(lower(model), lower(PREMIUM_PREFIXES[k]))
    }
  }

  lemma {:induction false} PriceIsLinear(a: int, b: int, price: real)
    ensures (a + b) as real * price / 1000000.0 == a as real * price / 1000000.0 + b as real * price / 1000000.0
  {
  }

  /** Pricing the events of one model one by one is pricing their summed tokens. */
  lemma {:induction false} CostOfSums(pricing: PricingService, events: seq<Event>, model: string)
    requires forall e :: e in events ==> e.model == model
    ensures SumReal(events, pricing.Usd) == SummedCost(pricing, events, model).usd
    ensures Sum(events, pricing.Unpriced) == SummedCost(pricing, events, model).unpricedTokens
  {
    if events == [] {
    } else {
      assert events == Front(events) + [Last(events)];
      CostOfSums(pricing, Front(events), model);
      CostsAdd(pricing, model, Sum(Front(events), Input), Sum(Front(events), Output), Sum(Front(events), CacheRead),
               Sum(Front(events), CacheCreation), Last(events));
    }
  }

  function SummedCost(pricing: PricingService, events: seq<Event>, model: string): Cost {
    pricing.CostOf(model, Sum(events, Input), Sum(events, Output), Sum(events, CacheRead), Sum(events, CacheCreation))
  }

  lemma {:induction false} CostsAdd(pricing: PricingService, model: string,
                                    input: int, output: int, cacheRead: int, cacheWrite: int, e: Event)
    requires e.model == model
    ensures
      var before := pricing.CostOf(model, input, output, cacheRead, cacheWrite);
      var after := pricing.CostOf(model, input + e.inputTokens, output + e.outputTokens,
                                  cacheRead + e.cacheReadTokens, cacheWrite + e.cacheCreationTokens);
      after.usd == before.usd + pricing.Usd(e) && after.unpricedTokens == before.unpricedTokens + pricing.Unpriced(e)
  {
    if pricing.PriceOf(model).Some? {
      var p := pricing.PriceOf(model).value;
      PriceIsLinear(input, e.inputTokens, p.input);
      PriceIsLinear(output, e.outputTokens, p.output);
      PriceIsLinear(cacheRead, e.cacheReadTokens, p.cacheRead);
      PriceIsLinear(cacheWrite, e.cacheCreationTokens, p.cacheWrite);
    }
  }

  /** A million tokens of a kind cost the model's price for that kind, and nothing else does; with the sums above,
      this is the whole of the cost. */
  lemma {:induction false} MillionTokensCostThePrice(pricing: PricingService, model: string)
    requires pricing.PriceOf(model).Some?
    ensures
      var p := pricing.PriceOf(model).value;
      && pricing.CostOf(model, 1_000_000, 0, 0, 0) == Cost(p.input, false, 0)
      && pricing.CostOf(model, 0, 1_000_000, 0, 0) == Cost(p.output, false, 0)
      && pricing.CostOf(model, 0, 0, 1_000_000, 0) == Cost(p.cacheRead, false, 0)
      && pricing.CostOf(model, 0, 0, 0, 1_000_000) == Cost(p.cacheWrite, false, 0)
  {
  }

  /** What no price is found for costs nothing and is counted instead, every kind alike. */
  lemma {:induction false} UnpricedTokensAreCounted(pricing: PricingService, e: Event)
    ensures pricing.EventCost(e).estimated <==> pricing.PriceOf(e.model).None?
    ensures pricing.PriceOf(e.model).None? ==> pricing.Usd(e) == 0.0 && pricing.Unpriced(e) == AllTokens(e)
    ensures pricing.PriceOf(e.model).Some? ==> pricing.Unpriced(e) == 0
  {
  }

  /** A place at which each prefix of the table differs from all longer ones after it. */
  const DIFFERS: seq<nat> := [7, 7, 7, 0, 0, 9, 0, 0, 5, 1, 4, 1, 0, 0, 0, 11, 0]

  lemma {:induction false} NoClaudePrefixIsShadowed(i: nat, j: nat)
    requires i < 8 && i < j < |PRICES|
    ensures !(PRICES[i].prefix < PRICES[j].prefix)
  {
    var p, q := PRICES[i].prefix, PRICES[j].prefix;
    assert |p| < |q| ==> p[DIFFERS[i]] != q[DIFFERS[i]];
  }

  lemma {:induction false} NoOtherPrefixIsShadowed(i: nat, j: nat)
    requires 8 <= i < j < |PRICES|
    ensures !(PRICES[i].prefix < PRICES[j].prefix)
  {
    var p, q := PRICES[i].prefix, PRICES[j].prefix;
    assert |p| < |q| ==> p[DIFFERS[i]] != q[DIFFERS[i]];
  }

  /** No later prefix of the table extends an earlier one. */
  lemma {:induction false} NoPrefixIsShadowed(i: nat, j: nat)
    requires i < j < |PRICES|
    ensures !(PRICES[i].prefix < PRICES[j].prefix)
  {
    if i < 8 {
      NoClaudePrefixIsShadowed(i, j);
    } else {
      NoOtherPrefixIsShadowed(i, j);
    }
  }

  /** On the shipped table the first matching prefix is also the longest matching one. */
  lemma {:induction false} FirstMatchIsLongest(pricing: PricingService, model: string, j: nat)
    requires pricing.prices == PRICES && j < |PRICES|
    requires forall k :: 0 <= k < |PRICES| ==> pricing.lower(PRICES[k].prefix) == PRICES[k].prefix
    requires PRICES[j].prefix <= pricing.lower(model)
    ensures pricing.PriceOf(model).Some? && |PRICES[j].prefix| <= |pricing.PriceOf(model).value.prefix|
  {
    var name := pricing.lower(model);
    var i := pricing.FirstMatch(name, 0).value;
    if i < j && |PRICES[i].prefix| < |PRICES[j].prefix| {
      assert PRICES[i].prefix == name[..|PRICES[i].prefix|];
      assert PRICES[j].prefix == name[..|PRICES[j].prefix|];
      NoPrefixIsShadowed(i, j);
    }
  }
}
