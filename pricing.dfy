/**
 * The pricing engine: a character-count token estimate, a per-provider cost
 * table, the fixed threshold price rule and the refund table. All pure.
 */
module Pricing {
  import opened Money
  import opened Models
  import opened Schemas

  /** One model's price per 1000 tokens. */
  datatype ModelRate = ModelRate(model: string, input: real, output: real)

  /** The cost table; each provider's models in the order they are listed. */
  function ProviderCosts(): map<string, seq<ModelRate>> {
    map[
      "openai" := [ModelRate("gpt-4o-mini", 0.00015, 0.0006),
                   ModelRate("gpt-4-turbo", 0.01, 0.03),
                   ModelRate("gpt-3.5-turbo", 0.0005, 0.0015)],
      "claude" := [ModelRate("claude-3-opus", 0.015, 0.075),
                   ModelRate("claude-3-sonnet", 0.003, 0.015),
                   ModelRate("claude-3-haiku", 0.00025, 0.00125)],
      "gemini" := [ModelRate("gemini-1.5-flash", 0.00010, 0.0004),
                   ModelRate("gemini-pro", 0.00025, 0.0005)],
      "ollama" := [ModelRate("default", 0.0, 0.0)],
      "auto" := [ModelRate("default", 0.00015, 0.0006)]
    ]
  }

  /** The table key used for a provider name: unknown names are priced as "auto". */
  function PricingKey(provider: string): (k: string)
    ensures k in ProviderCosts() && ProviderCosts()[k] != []
    ensures k == if provider in ProviderCosts() then provider else "auto"
  {
    if provider in ProviderCosts() then provider else "auto"
  }

  /** The rate of the first-listed model of a provider. */
  function FirstRate(provider: string): ModelRate {
    ProviderCosts()[PricingKey(provider)][0]
  }

  /** Cost of one token under the 25% input / 75% output split. */
  function BlendedRate(r: ModelRate): real {
    (0.25 * r.input + 0.75 * r.output) / 1000.0
  }

  /**
   * Token estimate for a description: a quarter of the characters as input,
   * three times that as output, plus a 20% buffer, truncated to an integer.
   * Python computes `int((i + 3 * i) * 1.2)`; the model computes it in integers.
   */
  function EstimateTokens(description: string): (n: nat)
    ensures n as real <= (4 * (|description| / 4)) as real * 1.2 < n as real + 1.0
  {
    var inputTokens := |description| / 4;
    var outputTokens := inputTokens * 3;
    var n := (48 * inputTokens) / 10;
    assert 10 * n <= 48 * inputTokens < 10 * n + 10;
    assert (4 * inputTokens) as real * 1.2 == (48 * inputTokens) as real / 10.0;
    assert inputTokens + outputTokens == 4 * inputTokens;
    n
  }

  /** The estimate grows with the description's length. */
  lemma EstimateTokensMonotone(a: string, b: string)
    requires |a| <= |b|
    ensures EstimateTokens(a) <= EstimateTokens(b)
  {
    var ia, ib := |a| / 4, |b| / 4;
    assert ia <= ib;
    var na, nb := (48 * ia) / 10, (48 * ib) / 10;
    assert 10 * na <= 48 * ia <= 48 * ib < 10 * nb + 10;
  }

  /** Descriptions shorter than four characters are estimated at no tokens. */
  lemma EstimateTokensShort(d: string)
    requires |d| < 4
    ensures EstimateTokens(d) == 0
  {
  }

  /** The largest accepted description is estimated at 6000 tokens. */
  lemma EstimateTokensBound(d: string)
    requires |d| <= 5000
    ensures EstimateTokens(d) <= 6000
  {
    var e := seq(5000, i => 'x');
    EstimateTokensMonotone(d, e);
    assert EstimateTokens(e) == 6000;
  }

  /** Base AI cost of a number of tokens with a provider's first-listed model. */
  function GetProviderCost(provider: string, tokens: int): (c: real)
    ensures c == tokens as real * BlendedRate(FirstRate(provider))
    ensures PricingKey(provider) == "ollama" ==> c == 0.0
    ensures provider !in ProviderCosts() ==> c == tokens as real * BlendedRate(FirstRate("auto"))
  {
    var pricing := FirstRate(provider);
    var inputTokens := tokens as real * 0.25;
    var outputTokens := tokens as real * 0.75;
    var inputCost := (inputTokens / 1000.0) * pricing.input;
    var outputCost := (outputTokens / 1000.0) * pricing.output;
    SplitCost(tokens as real, pricing.input, pricing.output);
    inputCost + outputCost
  }

  lemma SplitCost(t: real, i: real, o: real)
    ensures ((t * 0.25) / 1000.0) * i + ((t * 0.75) / 1000.0) * o == t * ((0.25 * i + 0.75 * o) / 1000.0)
  {
  }

  /** Every first-listed rate is non-negative and at most Claude Opus's. */
  lemma BlendedRateBounds(provider: string)
    ensures 0.0 <= BlendedRate(FirstRate(provider)) <= 0.00006
  {
  }

  /** The base cost is non-negative and grows with the token count. */
  lemma ProviderCostMonotone(provider: string, t1: int, t2: int)
    requires 0 <= t1 <= t2
    ensures 0.0 <= GetProviderCost(provider, t1) <= GetProviderCost(provider, t2)
  {
    BlendedRateBounds(provider);
    var r := BlendedRate(FirstRate(provider));
    assert t1 as real * r <= t2 as real * r;
  }

  /** The price breakdown returned for a task. */
  datatype PriceQuote = PriceQuote(
    baseCost: real,
    aiCost: real,
    providerCost: real,
    totalPrice: real,
    currency: string,
    pricingRule: string)

  /** The threshold rule before rounding: flat 1.50 up to 0.49, else three times the cost. */
  function ThresholdPrice(aiCost: real): real {
    if aiCost <= 0.49 then 1.50 else aiCost * 3.0
  }

  /** The price of a task. Urgency and description are accepted but do not enter the price. */
  function CalculateTaskPrice(description: string, urgency: TaskUrgency, provider: string, estimatedTokens: int): (q: PriceQuote)
    ensures GetProviderCost(provider, estimatedTokens) <= 0.49 ==> q.totalPrice == 1.50
    ensures GetProviderCost(provider, estimatedTokens) > 0.49 ==>
              q.totalPrice == Round(3.0 * GetProviderCost(provider, estimatedTokens), 2)
    ensures q.baseCost == q.aiCost == q.providerCost == Round(GetProviderCost(provider, estimatedTokens), 4)
    ensures q.currency == "EUR" && q.currency != PriceEstimateDefaultCurrency
  {
    var aiCost := GetProviderCost(provider, estimatedTokens);
    var totalPrice := ThresholdPrice(aiCost);
    assert Scale(1.50, 2) == 150.0;
    RoundOnGrid(1.50, 2);
    PriceQuote(Round(aiCost, 4), Round(aiCost, 4), Round(aiCost, 4), Round(totalPrice, 2),
               "EUR", "≤0.49€→1.50€ | ≥0.50€→×3")
  }

  /** The quote does not depend on urgency or on the description's text. */
  lemma PriceIgnoresUrgencyAndDescription(d1: string, d2: string, u1: TaskUrgency, u2: TaskUrgency, provider: string, tokens: int)
    ensures CalculateTaskPrice(d1, u1, provider, tokens) == CalculateTaskPrice(d2, u2, provider, tokens)
  {
  }

  /**
   * Costs just above the threshold are priced below the flat minimum: the
   * rule switches from 1.50 to three times the cost at 0.49, not at 0.50.
   */
  lemma PriceDipsAboveThreshold(provider: string, tokens: int)
    requires 0.49 < GetProviderCost(provider, tokens)
    requires 3.0 * GetProviderCost(provider, tokens) < 1.495
    ensures CalculateTaskPrice("", Flexible, provider, tokens).totalPrice < 1.50
  {
    var c := GetProviderCost(provider, tokens);
    var r := Round(3.0 * c, 2);
    var y := Scale(3.0 * c, 2);
    assert y < 149.5;
    var k := RoundHalfEven(y);
    assert k < 150;
    assert r == k as real / 100.0;
  }

  /** The same drop on exact numbers: a cost of 0.49 prices at 1.50, a cost of 0.495 at 1.48. */
  lemma ThresholdPriceNotMonotone()
    ensures Round(ThresholdPrice(0.49), 2) == 1.50
    ensures Round(ThresholdPrice(0.495), 2) == 1.48
  {
    assert Scale(1.50, 2) == 150.0;
    RoundOnGrid(1.50, 2);
    assert ThresholdPrice(0.495) == 1.485;
    assert Scale(1.485, 2) == 148.5;
    assert (148.5).Floor == 148;
  }

  /**
   * Every description the API accepts (at most 5000 characters) is priced at
   * exactly 1.50, whatever the provider: the largest base cost is 0.36.
   */
  lemma AcceptedTasksPriceFlat(t: TaskCreate, provider: string)
    requires ValidTaskCreate(t)
    ensures GetProviderCost(provider, EstimateTokens(t.description)) <= 0.36
    ensures CalculateTaskPrice(t.description, t.urgency, provider, EstimateTokens(t.description)).totalPrice == 1.50
  {
    var n := EstimateTokens(t.description);
    EstimateTokensBound(t.description);
    BlendedRateBounds(provider);
    var r := BlendedRate(FirstRate(provider));
    assert n as real * r <= 6000.0 * r;
  }

  /**
   * The refund table by status: everything before analysis starts, 80% while
   * analysing, clarifying or planning, nothing afterwards. The actual cost is
   * not consulted.
   */
  function CalculateRefund(status: TaskStatus, estimatedCost: real, actualCost: real): (r: real)
    ensures status == Pending ==> r == estimatedCost
    ensures status in {Analyzing, Clarifying, Planning} ==> r == 0.8 * estimatedCost
    ensures status !in {Pending, Analyzing, Clarifying, Planning} ==> r == 0.0
    ensures 0.0 <= estimatedCost ==> 0.0 <= r <= estimatedCost
  {
    if status == Pending then estimatedCost
    else if status in {Analyzing, Clarifying, Planning} then estimatedCost * 0.8
    else 0.0
  }
}
