/**
 * The estimator agent: a length-based cost tier, a threefold margin and an
 * urgency multiplier, each rounded to cents.
 */
module Estimator {
  import opened Wrappers
  import opened Money

  /** The urgencies the estimator distinguishes. */
  datatype Urgency = Flexible | Tomorrow | Today | Asap

  /** The estimator's input record: either field may be absent. */
  datatype EstimatorInput = EstimatorInput(description: Option<string>, urgency: Option<Urgency>)

  function DescriptionOf(input: EstimatorInput): string {
    input.description.GetOr("")
  }

  function UrgencyOf(input: EstimatorInput): Urgency {
    input.urgency.GetOr(Flexible)
  }

  datatype Estimate = Estimate(aiCostEstimate: real, basePrice: real, finalPrice: real, currency: string, eta: string)

  /** The AI cost tier: 0.50, plus 0.50 past 50 characters, plus 2.00 past 200. */
  function BaseCost(description: string): (c: real)
    ensures |description| <= 50 ==> c == 0.5
    ensures 50 < |description| <= 200 ==> c == 1.0
    ensures 200 < |description| ==> c == 3.0
  {
    var c0 := 0.5;
    var c1 := if |description| > 50 then c0 + 0.5 else c0;
    if |description| > 200 then c1 + 2.0 else c1
  }

  /** The urgency multiplier; an urgency it does not know costs no extra. */
  function Multiplier(urgency: Urgency): (m: real)
    ensures urgency == Asap ==> m == 2.5
    ensures urgency == Today ==> m == 1.8
    ensures urgency == Tomorrow ==> m == 1.3
    ensures urgency == Flexible ==> m == 1.0
  {
    if urgency == Asap then 2.5
    else if urgency == Today then 1.8
    else if urgency == Tomorrow then 1.3
    else 1.0
  }

  /** The estimate for an input record; a missing description is empty, a missing urgency flexible. */
  function Run(input: EstimatorInput): Estimate {
    var description := DescriptionOf(input);
    var urgency := UrgencyOf(input);
    var baseCost := BaseCost(description);
    var basePrice := baseCost * 3.0;
    var finalPrice := basePrice * Multiplier(urgency);
    Estimate(Round(baseCost, 2), Round(basePrice, 2), Round(finalPrice, 2), "USD",
             if urgency == Asap then "2 hours" else "1 day")
  }

  /** A whole number of cents is left alone by rounding to cents. */
  lemma Cents(n: int)
    ensures Round(n as real / 100.0, 2) == n as real / 100.0
  {
    var x := n as real / 100.0;
    assert Pow10(2) == 100;
    assert Scale(x, 2) == n as real;
    RoundOnGrid(x, 2);
  }

  /** A tier and its threefold price are whole cents. */
  lemma TierOnCents(c: real)
    requires c == 0.5 || c == 1.0 || c == 3.0
    ensures Round(c, 2) == c && Round(c * 3.0, 2) == c * 3.0
  {
    if c == 0.5 {
      Cents(50); Cents(150);
    } else if c == 1.0 {
      Cents(100); Cents(300);
    } else {
      Cents(300); Cents(900);
    }
  }

  /**
   * Every tier and multiplier lands on whole cents, so rounding changes
   * nothing: the reported prices are exactly three times the cost and that
   * times the multiplier.
   */
  lemma RunIsExact(input: EstimatorInput)
    ensures Run(input).aiCostEstimate == BaseCost(DescriptionOf(input))
    ensures Run(input).basePrice == 3.0 * BaseCost(DescriptionOf(input))
    ensures Run(input).finalPrice == 3.0 * BaseCost(DescriptionOf(input)) * Multiplier(UrgencyOf(input))
  {
    TierOnCents(BaseCost(DescriptionOf(input)));
    match UrgencyOf(input)
    case Flexible => FlexibleIsExact(input);
    case Tomorrow => TomorrowIsExact(input);
    case Today => TodayIsExact(input);
    case Asap => AsapIsExact(input);
  }

  /** Urgency by urgency, the final price is exactly the threefold tier times the multiplier. */
  lemma FlexibleIsExact(input: EstimatorInput)
    requires UrgencyOf(input) == Flexible
    ensures Run(input).finalPrice == 3.0 * BaseCost(DescriptionOf(input)) * 1.0
  {
    var n := |DescriptionOf(input)|;
    if n <= 50 { Cents(150); } else if n <= 200 { Cents(300); } else { Cents(900); }
  }

  lemma TomorrowIsExact(input: EstimatorInput)
    requires UrgencyOf(input) == Tomorrow
    ensures Run(input).finalPrice == 3.0 * BaseCost(DescriptionOf(input)) * 1.3
  {
    var n := |DescriptionOf(input)|;
    if n <= 50 { Cents(195); } else if n <= 200 { Cents(390); } else { Cents(1170); }
  }

  lemma TodayIsExact(input: EstimatorInput)
    requires UrgencyOf(input) == Today
    ensures Run(input).finalPrice == 3.0 * BaseCost(DescriptionOf(input)) * 1.8
  {
    var n := |DescriptionOf(input)|;
    if n <= 50 { Cents(270); } else if n <= 200 { Cents(540); } else { Cents(1620); }
  }

  lemma AsapIsExact(input: EstimatorInput)
    requires UrgencyOf(input) == Asap
    ensures Run(input).finalPrice == 3.0 * BaseCost(DescriptionOf(input)) * 2.5
  {
    var n := |DescriptionOf(input)|;
    if n <= 50 { Cents(375); } else if n <= 200 { Cents(750); } else { Cents(2250); }
  }

  /** The final price never falls below the base price. */
  lemma FinalAtLeastBase(input: EstimatorInput)
    ensures Run(input).basePrice <= Run(input).finalPrice
  {
    RunIsExact(input);
  }

  /** A longer description is never cheaper at the same urgency. */
  lemma MonotoneInLength(d1: string, d2: string, urgency: Urgency)
    requires |d1| <= |d2|
    ensures Run(EstimatorInput(Some(d1), Some(urgency))).finalPrice
         <= Run(EstimatorInput(Some(d2), Some(urgency))).finalPrice
  {
    var i1 := EstimatorInput(Some(d1), Some(urgency));
    var i2 := EstimatorInput(Some(d2), Some(urgency));
    RunIsExact(i1);
    RunIsExact(i2);
    MulMonotone(3.0 * BaseCost(d1), 3.0 * BaseCost(d2), Multiplier(urgency));
  }

  /** More urgency never costs less: asap, then today, then tomorrow, then flexible. */
  lemma MonotoneInUrgency(description: string)
    ensures Run(EstimatorInput(Some(description), Some(Flexible))).finalPrice
         <= Run(EstimatorInput(Some(description), Some(Tomorrow))).finalPrice
         <= Run(EstimatorInput(Some(description), Some(Today))).finalPrice
         <= Run(EstimatorInput(Some(description), Some(Asap))).finalPrice
  {
    RunIsExact(EstimatorInput(Some(description), Some(Flexible)));
    RunIsExact(EstimatorInput(Some(description), Some(Tomorrow)));
    RunIsExact(EstimatorInput(Some(description), Some(Today)));
    RunIsExact(EstimatorInput(Some(description), Some(Asap)));
  }

  /** The estimate's currency and delivery time: two hours only for asap. */
  lemma CurrencyAndEta(input: EstimatorInput)
    ensures Run(input).currency == "USD"
    ensures Run(input).eta == "2 hours" <==> UrgencyOf(input) == Asap
  {
  }
}
