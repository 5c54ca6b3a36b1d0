/**
 * The three pure pieces of the BMI calculator screen: the height normaliser,
 * the BMI formula and the category classifier. Kotlin's `Float` arithmetic is
 * modelled exactly over `real`.
 */
module BmiCalculator {
  import opened Wrappers

  /**
   * Kotlin's `String.toFloatOrNull`: the number a text denotes, or `None`.
   * Its internals are not modelled; every operation is proved for every
   * parser with the one property they rely on: empty text does not parse.
   */
  type Parser = f: string -> Option<real> | f("") == None
    witness (s: string) => None

  /** The unit tags the dropdown offers, in the order it lists them. */
  const Units: seq<string> := ["cm", "m", "inch", "ft/in"]

  const CentimetersPerMeter: real := 100.0
  const InchesPerFoot: real := 12.0
  const MetersPerInch: real := 0.0254

  /** The four labels, in increasing order of BMI. */
  const Categories: seq<string> := ["Underweight", "Normal weight", "Overweight", "Obesity"]

  /** Lower bounds of the Normal weight, Overweight and Obesity bands. */
  const NormalFrom: real := 18.5
  const OverweightFrom: real := 24.9
  const ObesityFrom: real := 29.9

  /**
   * Height in metres from the primary and secondary height fields under the
   * selected unit tag. The primary field must parse; the secondary field is
   * read only for "ft/in", and counts as 0 inches when it does not parse.
   */
  function ConvertToMeters(parse: Parser, selectedUnit: string, height1: string, height2: string): (r: Option<real>)
    ensures r.Some? <==> parse(height1).Some? && selectedUnit in Units
    ensures r.Some? && selectedUnit == "cm" ==> r.value * CentimetersPerMeter == parse(height1).value
    ensures r.Some? && selectedUnit == "m" ==> r.value == parse(height1).value
    ensures r.Some? && selectedUnit == "inch" ==> r.value == parse(height1).value * MetersPerInch
    ensures r.Some? && selectedUnit == "ft/in" ==>
      r.value == (parse(height1).value * InchesPerFoot + parse(height2).GetOr(0.0)) * MetersPerInch
    ensures r.Some? && parse(height1).value > 0.0 && (selectedUnit == "ft/in" ==> parse(height2).GetOr(0.0) >= 0.0)
      ==> r.value > 0.0
  {
    match parse(height1)
    case None => None
    case Some(h1) =>
      if selectedUnit == "cm" then Some(h1 / CentimetersPerMeter)
      else if selectedUnit == "m" then Some(h1)
      else if selectedUnit == "inch" then Some(h1 * MetersPerInch)
      else if selectedUnit == "ft/in" then
        var h2 := parse(height2).GetOr(0.0);
        var totalInches := h1 * InchesPerFoot + h2;
        Some(totalInches * MetersPerInch)
      else None
  }

  /** Body Mass Index: weight in kilograms over the square of height in metres. */
  function CalculateBMI(weight: real, heightM: real): (bmi: real)
    requires heightM > 0.0
    ensures bmi * (heightM * heightM) == weight
    ensures weight > 0.0 ==> bmi > 0.0
  {
    SquarePositive(heightM);
    weight / (heightM * heightM)
  }

  lemma SquarePositive(h: real)
    requires h > 0.0
    ensures h * h > 0.0
  {
  }

  /**
   * The category of a BMI: first match on strict less-than against the
   * ascending thresholds, so each band is closed below and open above.
   */
  function GetBMICategory(bmi: real): (category: string)
    ensures category in Categories && category != ""
    ensures category == Categories[0] <==> bmi < NormalFrom
    ensures category == Categories[1] <==> NormalFrom <= bmi < OverweightFrom
    ensures category == Categories[2] <==> OverweightFrom <= bmi < ObesityFrom
    ensures category == Categories[3] <==> ObesityFrom <= bmi
  {
    if bmi < NormalFrom then "Underweight"
    else if bmi < OverweightFrom then "Normal weight"
    else if bmi < ObesityFrom then "Overweight"
    else "Obesity"
  }

  /** Position of a label in the ordering Underweight < Normal weight < Overweight < Obesity. */
  function CategoryRank(category: string): (rank: nat)
    requires category in Categories
    ensures rank < |Categories| && Categories[rank] == category
  {
    if category == Categories[0] then 0
    else if category == Categories[1] then 1
    else if category == Categories[2] then 2
    else 3
  }

  /** A larger BMI never gets an earlier category. */
  lemma CategoryMonotone(bmi1: real, bmi2: real)
    requires bmi1 <= bmi2
    ensures CategoryRank(GetBMICategory(bmi1)) <= CategoryRank(GetBMICategory(bmi2))
  {
  }

  /** Values on a threshold fall into the higher band. */
  lemma CategoryBoundaries()
    ensures GetBMICategory(18.49) == "Underweight"
    ensures GetBMICategory(18.5) == "Normal weight"
    ensures GetBMICategory(24.9) == "Overweight"
    ensures GetBMICategory(29.9) == "Obesity"
  {
  }

  /** An unparseable primary height gives no height, whatever the unit and the secondary field. */
  lemma UnparsedPrimaryGivesNoHeight(parse: Parser, selectedUnit: string, height1: string, height2: string)
    requires parse(height1).None?
    ensures ConvertToMeters(parse, selectedUnit, height1, height2).None?
  {
  }

  /** In "ft/in" an unparseable inches field behaves exactly like an inches field holding 0. */
  lemma UnparsedInchesCountAsZero(parse: Parser, height1: string, height2: string, zero: string)
    requires parse(height2).None? && parse(zero) == Some(0.0)
    ensures ConvertToMeters(parse, "ft/in", height1, height2) == ConvertToMeters(parse, "ft/in", height1, zero)
  {
  }

  /**
   * The units agree with one another: x cm is x/100 m, x in is 2.54·x cm,
   * and f ft i in is 12·f + i inches.
   */
  lemma UnitsAgree(parse: Parser, a: string, b: string, c: string, x: real, y: real)
    requires parse(a) == Some(x)
    ensures parse(b) == Some(x / 100.0) ==> ConvertToMeters(parse, "cm", a, "") == ConvertToMeters(parse, "m", b, "")
    ensures parse(b) == Some(2.54 * x) ==> ConvertToMeters(parse, "inch", a, "") == ConvertToMeters(parse, "cm", b, "")
    ensures parse(b) == Some(y) && parse(c) == Some(x * 12.0 + y) ==>
      ConvertToMeters(parse, "ft/in", a, b) == ConvertToMeters(parse, "inch", c, "")
  {
  }

  /** Reference heights: 180 cm, 70 in and 5 ft 11 in. */
  lemma ReferenceHeights(parse: Parser, s180: string, s70: string, s5: string, s11: string)
    requires parse(s180) == Some(180.0) && parse(s70) == Some(70.0)
    requires parse(s5) == Some(5.0) && parse(s11) == Some(11.0)
    ensures ConvertToMeters(parse, "cm", s180, "") == Some(1.8)
    ensures ConvertToMeters(parse, "inch", s70, "") == Some(1.778)
    ensures ConvertToMeters(parse, "ft/in", s5, s11) == Some(1.8034)
  {
  }
}
