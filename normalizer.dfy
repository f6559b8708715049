/** The feature normaliser of the rate-check form: the credit-score curve and
    the two rescalings that turn raw amounts and the loan term into the
    0..1 features the scoring service expects. All three are pure. */
module Normalizer {
  import opened JsNumbers

  /** The default ceiling of `normalizeValue`; every caller uses it. */
  const Ceiling: real := 100000.0

  /** Decimals kept by the probability curve and by the rescalings. */
  const ProbabilityDigits: nat := 2
  const FeatureDigits: nat := 4

  /** The credit-score bands named in the curve's comments. */
  datatype Tier = Excellent | Good | Fair | Poor | Unrated

  /** Which branch of the curve's if-chain a score takes; `Unrated` is the
      fall-through that leaves the probability at 0. */
  function TierOf(score: real): Tier
  {
    if 750.0 <= score <= 850.0 then Excellent
    else if 700.0 <= score < 750.0 then Good
    else if 650.0 <= score < 700.0 then Fair
    else if 300.0 <= score < 650.0 then Poor
    else Unrated
  }

  /** The curve before rounding: within each tier a line from the tier's
      start value, with the tier's own slope. */
  function RawProbability(score: real): real
  {
    match TierOf(score)
    case Excellent => 0.95 + (score - 750.0) * (0.04 / 100.0)
    case Good => 0.80 + (score - 700.0) * (0.14 / 50.0)
    case Fair => 0.50 + (score - 650.0) * (0.29 / 50.0)
    case Poor => Max(0.0, (score - 300.0) * (0.49 / 350.0))
    case Unrated => 0.0
  }

  /** `calculateProbability`: the curve rounded to two decimals. Every score
      maps into [0, 0.99], and a score outside 300..850 maps to 0. */
  function CalculateProbability(score: real): (p: real)
    ensures 0.0 <= p <= 0.99
    ensures (score < 300.0 || 850.0 < score) ==> p == 0.0
  {
    ProbabilityBands(score);
    ToFixed(RawProbability(score), ProbabilityDigits)
  }

  /** Before rounding, each tier stays inside the band its comment names. */
  lemma RawProbabilityBands(score: real)
    ensures match TierOf(score)
      case Excellent => 0.95 <= RawProbability(score) <= 0.99
      case Good => 0.80 <= RawProbability(score) < 0.94
      case Fair => 0.50 <= RawProbability(score) < 0.79
      case Poor => 0.0 <= RawProbability(score) < 0.49
      case Unrated => RawProbability(score) == 0.0
  {
  }

  lemma UnitValues()
    ensures Unit(ProbabilityDigits) == 100.0
    ensures Unit(FeatureDigits) == 10000.0
  {
  }

  /** Rounding to two decimals keeps a value inside a band whose ends are
      themselves two-decimal values. */
  lemma RoundedWithin(x: real, lo: int, hi: int)
    requires lo as real / 100.0 <= x <= hi as real / 100.0
    ensures lo as real / 100.0 <= ToFixed(x, ProbabilityDigits) <= hi as real / 100.0
  {
    UnitValues();
    RoundToUnitMonotone(lo as real / 100.0, x, 100.0);
    RoundToUnitMonotone(x, hi as real / 100.0, 100.0);
    RoundToUnitOfGrid(lo, 100.0);
    RoundToUnitOfGrid(hi, 100.0);
  }

  /** After rounding, each tier still lies in its band: Excellent 0.95-0.99,
      Good 0.80-0.94, Fair 0.50-0.79, Poor 0.00-0.49, anything else 0. */
  lemma ProbabilityBands(score: real)
    ensures var p := ToFixed(RawProbability(score), ProbabilityDigits);
      match TierOf(score)
      case Excellent => 0.95 <= p <= 0.99
      case Good => 0.80 <= p <= 0.94
      case Fair => 0.50 <= p <= 0.79
      case Poor => 0.0 <= p <= 0.49
      case Unrated => p == 0.0
  {
    RawProbabilityBands(score);
    match TierOf(score)
    case Excellent => RoundedWithin(RawProbability(score), 95, 99);
    case Good => RoundedWithin(RawProbability(score), 80, 94);
    case Fair => RoundedWithin(RawProbability(score), 50, 79);
    case Poor => RoundedWithin(RawProbability(score), 0, 49);
    case Unrated => RoundedWithin(RawProbability(score), 0, 0);
  }

  /** Between 300 and 850 the curve never goes down, across the tier
      boundaries included (each boundary is a jump upwards). */
  lemma RawProbabilityMonotone(a: real, b: real)
    requires 300.0 <= a <= b <= 850.0
    ensures RawProbability(a) <= RawProbability(b)
  {
    RawProbabilityBands(a);
    RawProbabilityBands(b);
  }

  lemma ProbabilityMonotone(a: real, b: real)
    requires 300.0 <= a <= b <= 850.0
    ensures CalculateProbability(a) <= CalculateProbability(b)
  {
    RawProbabilityMonotone(a, b);
    UnitValues();
    RoundToUnitMonotone(RawProbability(a), RawProbability(b), 100.0);
  }

  /** The curve's values at the ends of each tier, and the jumps at 650, 700
      and 750 where one tier's formula hands over to the next. */
  lemma ProbabilityLandmarks()
    ensures CalculateProbability(300.0) == 0.0
    ensures CalculateProbability(649.0) == 0.49
    ensures CalculateProbability(650.0) == 0.50
    ensures CalculateProbability(699.0) == 0.78
    ensures CalculateProbability(700.0) == 0.80
    ensures CalculateProbability(749.0) == 0.94
    ensures CalculateProbability(750.0) == 0.95
    ensures CalculateProbability(850.0) == 0.99
    ensures CalculateProbability(851.0) == 0.0
  {
    UnitValues();
  }

  /** `normalizeValue` with its default ceiling: the amount as a fraction of
      100000, rounded to four decimals, and never above 1. */
  function NormalizeValue(v: real): (r: real)
    ensures r <= 1.0
    ensures v >= Ceiling ==> r == 1.0
    ensures v >= 0.0 ==> r >= 0.0
    ensures 0.0 <= v <= Ceiling ==> r == ToFixed(v / Ceiling, FeatureDigits)
    ensures 0.0 <= v <= Ceiling ==> v / Ceiling - 0.00005 < r <= v / Ceiling + 0.00005
  {
    NormalizeValueFacts(v);
    Min(ToFixed(v / Ceiling, FeatureDigits), 1.0)
  }

  lemma NormalizeValueFacts(v: real)
    ensures v >= Ceiling ==> ToFixed(v / Ceiling, FeatureDigits) >= 1.0
    ensures v >= 0.0 ==> ToFixed(v / Ceiling, FeatureDigits) >= 0.0
    ensures 0.0 <= v <= Ceiling ==> ToFixed(v / Ceiling, FeatureDigits) <= 1.0
    ensures 0.0 <= v ==>
      v / Ceiling - 0.00005 < ToFixed(v / Ceiling, FeatureDigits) <= v / Ceiling + 0.00005
  {
    UnitValues();
    RoundToUnitOfGrid(10000, 10000.0);
    RoundToUnitSign(v / Ceiling, 10000.0);
    if v >= Ceiling {
      RoundToUnitMonotone(1.0, v / Ceiling, 10000.0);
    }
    if 0.0 <= v <= Ceiling {
      RoundToUnitMonotone(v / Ceiling, 1.0, 10000.0);
    }
    if 0.0 <= v {
      RoundToUnitError(v / Ceiling, 10000.0);
    }
  }

  /** A larger amount never normalises to a smaller feature. */
  lemma NormalizeValueMonotone(a: real, b: real)
    requires a <= b
    ensures NormalizeValue(a) <= NormalizeValue(b)
  {
    UnitValues();
    RoundToUnitMonotone(a / Ceiling, b / Ceiling, 10000.0);
  }

  /** `normalizeLoanTerm`: months 1..12 rescaled linearly onto 0..1 and
      rounded to four decimals; 1 month is 0 and 12 months is 1. */
  function NormalizeLoanTerm(months: real): (r: real)
    ensures months == 1.0 ==> r == 0.0
    ensures months == 12.0 ==> r == 1.0
    ensures 1.0 <= months <= 12.0 ==> 0.0 <= r <= 1.0
  {
    LoanTermFacts(months);
    ToFixed((months - 1.0) / 11.0, FeatureDigits)
  }

  lemma LoanTermFacts(months: real)
    ensures months == 1.0 ==> ToFixed((months - 1.0) / 11.0, FeatureDigits) == 0.0
    ensures months == 12.0 ==> ToFixed((months - 1.0) / 11.0, FeatureDigits) == 1.0
    ensures 1.0 <= months <= 12.0 ==> 0.0 <= ToFixed((months - 1.0) / 11.0, FeatureDigits) <= 1.0
  {
    UnitValues();
    RoundToUnitOfGrid(0, 10000.0);
    RoundToUnitOfGrid(10000, 10000.0);
    if 1.0 <= months <= 12.0 {
      RoundToUnitMonotone(0.0, (months - 1.0) / 11.0, 10000.0);
      RoundToUnitMonotone((months - 1.0) / 11.0, 1.0, 10000.0);
    }
  }

  /** A longer term never normalises to a smaller feature. */
  lemma LoanTermMonotone(a: real, b: real)
    requires a <= b
    ensures NormalizeLoanTerm(a) <= NormalizeLoanTerm(b)
  {
    UnitValues();
    RoundToUnitMonotone((a - 1.0) / 11.0, (b - 1.0) / 11.0, 10000.0);
  }

  /** Over whole months from 1 to 12 the feature strictly increases: one more
      month adds 1/11, far more than four-decimal rounding can absorb. */
  lemma LoanTermStrictlyIncreasing(a: int, b: int)
    requires 1 <= a < b <= 12
    ensures NormalizeLoanTerm(a as real) < NormalizeLoanTerm(b as real)
  {
    var x, y := (a as real - 1.0) / 11.0, (b as real - 1.0) / 11.0;
    assert y - x >= 1.0 / 11.0;
    UnitValues();
    RoundToUnitError(x, 10000.0);
    RoundToUnitError(y, 10000.0);
  }
}
