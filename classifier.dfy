/** The BMI classifier: the two name tables, the category/risk lookup on a BMI
    value, rounding to one decimal, and the BMI computation from height and weight. */
module BmiClassifier {

  /** The six weight categories (the `bmiCategories` table). */
  datatype Category =
    | Underweight
    | NormalWeight
    | Overweight
    | ModeratelyObese
    | SeverelyObese
    | VerySeverelyObese

  /** The six health-risk tiers (the `healthRisks` table). */
  datatype HealthRisk =
    | MalnutritionRisk
    | LowRisk
    | EnhancedRisk
    | MediumRisk
    | HighRisk
    | VeryHighRisk

  /** The object the classifier returns: `{ bmiCategory, healthRisk }`. */
  datatype Classification = Classification(bmiCategory: Category, healthRisk: HealthRisk)

  /** The text written to the report for a category. */
  function CategoryName(c: Category): string
  {
    match c
    case Underweight => "Underweight"
    case NormalWeight => "Normal weight"
    case Overweight => "Overweight"
    case ModeratelyObese => "Moderately obese"
    case SeverelyObese => "Severely obese"
    case VerySeverelyObese => "Very severely obese"
  }

  /** The text written to the report for a risk tier. */
  function RiskName(r: HealthRisk): string
  {
    match r
    case MalnutritionRisk => "Malnutrition risk"
    case LowRisk => "Low risk"
    case EnhancedRisk => "Enhanced risk"
    case MediumRisk => "Medium risk"
    case HighRisk => "High risk"
    case VeryHighRisk => "Very high risk"
  }

  /** Two categories have the same name only if they are the same category, so
      comparing names (as the tally does) is comparing categories. */
  lemma CategoryNamesDistinct(a: Category, b: Category)
    ensures CategoryName(a) == CategoryName(b) <==> a == b
  {
  }

  /** The risk tier that belongs to each category, one table row each. */
  function PairedRisk(c: Category): HealthRisk
  {
    match c
    case Underweight => MalnutritionRisk
    case NormalWeight => LowRisk
    case Overweight => EnhancedRisk
    case ModeratelyObese => MediumRisk
    case SeverelyObese => HighRisk
    case VerySeverelyObese => VeryHighRisk
  }

  /** Severity order of the categories, from lightest to heaviest. */
  function Rank(c: Category): nat
  {
    match c
    case Underweight => 0
    case NormalWeight => 1
    case Overweight => 2
    case ModeratelyObese => 3
    case SeverelyObese => 4
    case VerySeverelyObese => 5
  }

  /** The if/else chain of the classifier, with its comparisons exactly as written.
      Any value outside the five explicit ranges falls to the last branch. */
  function Classify(bmi: real): (r: Classification)
    ensures r.healthRisk == PairedRisk(r.bmiCategory)
  {
    if bmi <= 18.4 then
      Classification(Underweight, MalnutritionRisk)
    else if 18.5 <= bmi <= 24.5 then
      Classification(NormalWeight, LowRisk)
    else if 25.0 <= bmi <= 29.9 then
      Classification(Overweight, EnhancedRisk)
    else if 30.0 <= bmi <= 34.9 then
      Classification(ModeratelyObese, MediumRisk)
    else if 35.0 <= bmi <= 39.9 then
      Classification(SeverelyObese, HighRisk)
    else
      Classification(VerySeverelyObese, VeryHighRisk)
  }

  /** On the real line the explicit ranges leave gaps; values in them reach the
      last branch. */
  lemma GapsFallToLastBranch(bmi: real)
    requires
      || 18.4 < bmi < 18.5
      || 24.5 < bmi < 25.0
      || 29.9 < bmi < 30.0
      || 34.9 < bmi < 35.0
      || 39.9 < bmi < 40.0
    ensures Classify(bmi) == Classification(VerySeverelyObese, VeryHighRisk)
  {
  }

  /** The value of a one-decimal BMI written as a whole number of tenths
      (18.4 is 184). */
  function OneDecimal(tenths: int): real
  {
    tenths as real / 10.0
  }

  /** The classifier on one-decimal values, as bands of tenths: the gaps at
      18.4/18.5, 29.9/30.0, 34.9/35.0 and 39.9/40.0 hold no one-decimal value,
      while 24.6 to 24.9 land in the last branch. */
  lemma OneDecimalBands(t: int)
    ensures Classify(OneDecimal(t)).bmiCategory == Underweight <==> t <= 184
    ensures Classify(OneDecimal(t)).bmiCategory == NormalWeight <==> 185 <= t <= 245
    ensures Classify(OneDecimal(t)).bmiCategory == Overweight <==> 250 <= t <= 299
    ensures Classify(OneDecimal(t)).bmiCategory == ModeratelyObese <==> 300 <= t <= 349
    ensures Classify(OneDecimal(t)).bmiCategory == SeverelyObese <==> 350 <= t <= 399
    ensures Classify(OneDecimal(t)).bmiCategory == VerySeverelyObese <==> 246 <= t <= 249 || 400 <= t
  {
  }

  /** No one-decimal value lies strictly inside the gaps between the ranges,
      except the gap between 24.5 and 25.0. */
  lemma NoOneDecimalValueInGaps(t: int)
    ensures !(18.4 < OneDecimal(t) < 18.5)
    ensures !(29.9 < OneDecimal(t) < 30.0)
    ensures !(34.9 < OneDecimal(t) < 35.0)
    ensures !(39.9 < OneDecimal(t) < 40.0)
    ensures 24.5 < OneDecimal(t) < 25.0 <==> 246 <= t <= 249
  {
  }

  /** The one-decimal values 24.6, 24.7, 24.8 and 24.9 are classified as the
      heaviest category. */
  lemma QuirkValues(t: int)
    requires 246 <= t <= 249
    ensures Classify(OneDecimal(t)) == Classification(VerySeverelyObese, VeryHighRisk)
  {
  }

  /** The boundary values of the table. */
  lemma BoundaryValues()
    ensures Classify(OneDecimal(184)) == Classification(Underweight, MalnutritionRisk)
    ensures Classify(OneDecimal(185)) == Classification(NormalWeight, LowRisk)
    ensures Classify(OneDecimal(245)) == Classification(NormalWeight, LowRisk)
    ensures Classify(OneDecimal(250)) == Classification(Overweight, EnhancedRisk)
    ensures Classify(OneDecimal(299)) == Classification(Overweight, EnhancedRisk)
    ensures Classify(OneDecimal(300)) == Classification(ModeratelyObese, MediumRisk)
    ensures Classify(OneDecimal(349)) == Classification(ModeratelyObese, MediumRisk)
    ensures Classify(OneDecimal(350)) == Classification(SeverelyObese, HighRisk)
    ensures Classify(OneDecimal(399)) == Classification(SeverelyObese, HighRisk)
    ensures Classify(OneDecimal(400)) == Classification(VerySeverelyObese, VeryHighRisk)
  {
  }

  /** Outside 24.6 to 24.9, a heavier one-decimal BMI never gets a lighter
      category. */
  lemma MonotoneOutsideQuirk(t1: int, t2: int)
    requires t1 <= t2
    requires !(246 <= t1 <= 249) && !(246 <= t2 <= 249)
    ensures Rank(Classify(OneDecimal(t1)).bmiCategory) <= Rank(Classify(OneDecimal(t2)).bmiCategory)
  {
  }

  /** The quirk breaks the severity order: 24.9 is ranked above 25.0. */
  lemma QuirkBreaksOrder()
    ensures Rank(Classify(OneDecimal(249)).bmiCategory) > Rank(Classify(OneDecimal(250)).bmiCategory)
  {
  }

  /** `x.toFixed(1)` as a whole number of tenths, taken on the exact value of x:
      the nearest tenth, ties going away from zero (for x >= 0 the larger one,
      for x < 0 the sign is taken off, the magnitude rounded, and the sign put back). */
  function ToFixedTenths(x: real): (n: int)
    ensures x >= 0.0 ==> n as real - 0.5 <= 10.0 * x < n as real + 0.5
    ensures x < 0.0 ==> n as real - 0.5 < 10.0 * x <= n as real + 0.5
  {
    if x >= 0.0 then (10.0 * x + 0.5).Floor else - (-10.0 * x + 0.5).Floor
  }

  /** The rounding is the only whole number of tenths within half a tenth of x
      (with the tie rule above), so it is determined by that property. */
  lemma ToFixedTenthsUnique(x: real, m: int)
    requires x >= 0.0 ==> m as real - 0.5 <= 10.0 * x < m as real + 0.5
    requires x < 0.0 ==> m as real - 0.5 < 10.0 * x <= m as real + 0.5
    ensures m == ToFixedTenths(x)
  {
  }

  /** weight / (height in metres)², before rounding. */
  function ExactBmi(heightCm: real, weightKg: real): real
    requires heightCm > 0.0
  {
    var heightM := heightCm / 100.0;
    weightKg / (heightM * heightM)
  }

  /** The object the BMI computation returns: `{ bmiCategory, healthRisk, bmi }`,
      with `bmi` the one-decimal text as whole tenths. */
  datatype BmiData = BmiData(bmi: int, bmiCategory: Category, healthRisk: HealthRisk)

  /** BMI of a patient, rounded to one decimal, and the classification of that
      rounded value. */
  function GetBmiData(heightCm: real, weightKg: real): (r: BmiData)
    requires heightCm > 0.0
    ensures r.bmi == ToFixedTenths(ExactBmi(heightCm, weightKg))
    ensures r.bmi as real - 0.5 <= 10.0 * ExactBmi(heightCm, weightKg) <= r.bmi as real + 0.5
    ensures Classify(OneDecimal(r.bmi)) == Classification(r.bmiCategory, r.healthRisk)
    ensures r.healthRisk == PairedRisk(r.bmiCategory)
  {
    var bmi := ToFixedTenths(ExactBmi(heightCm, weightKg));
    var c := Classify(OneDecimal(bmi));
    BmiData(bmi, c.bmiCategory, c.healthRisk)
  }

  /** 180 cm and 75 kg give 23.1, normal weight, low risk. */
  lemma Scenario180Cm75Kg()
    ensures GetBmiData(180.0, 75.0) == BmiData(231, NormalWeight, LowRisk)
  {
  }

  /** Classification happens after rounding: an exact BMI of 24.96 is in the gap
      before 25.0, but it is rounded to 25.0 and classified as overweight. */
  lemma ClassifiedAfterRounding()
    ensures Classify(ExactBmi(100.0, 24.96)).bmiCategory == VerySeverelyObese
    ensures GetBmiData(100.0, 24.96).bmi == 250
    ensures GetBmiData(100.0, 24.96).bmiCategory == Overweight
  {
  }
}
