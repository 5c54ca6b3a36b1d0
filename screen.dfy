/**
 * The state of the BMI calculator screen and the events that change it: the
 * six remembered state holders, the three text fields' edits, the unit
 * dropdown and the Calculate button.
 */
module BmiScreen {
  import opened Wrappers
  import opened BmiCalculator

  /** A snapshot of the screen's remembered state. */
  datatype ScreenState = ScreenState(
    weight: string,
    height1: string,
    height2: string,
    selectedUnit: string,
    bmiResult: Option<real>,
    bmiCategory: string)

  /**
   * What every reachable state satisfies: the unit is one the dropdown
   * offers, and a result is either absent with an empty category, or
   * positive with the category the classifier gives it.
   */
  predicate Consistent(s: ScreenState) {
    && s.selectedUnit in Units
    && (s.bmiResult.None? ==> s.bmiCategory == "")
    && (s.bmiResult.Some? ==> s.bmiResult.value > 0.0 && s.bmiCategory == GetBMICategory(s.bmiResult.value))
  }

  /** The state when the screen is first composed: empty fields, unit "cm", no result. */
  function InitialState(): (s: ScreenState)
    ensures Consistent(s)
    ensures s.bmiResult.None? && s.height1 == "" && s.height2 == "" && s.weight == ""
    ensures s.selectedUnit == "cm" && s.bmiCategory == ""
  {
    ScreenState("", "", "", "cm", None, "")
  }

  /** The dropdown's item handler: record the unit and empty both height fields. */
  function AfterSelectUnit(s: ScreenState, unit: string): (r: ScreenState)
    ensures Consistent(s) && unit in Units ==> Consistent(r)
    ensures r.selectedUnit == unit && r.height1 == "" && r.height2 == ""
    ensures r.weight == s.weight && r.bmiResult == s.bmiResult && r.bmiCategory == s.bmiCategory
  {
    s.(selectedUnit := unit, height1 := "", height2 := "")
  }

  /**
   * The Calculate button's handler: a result and its category when the
   * weight parses to a positive number and the height converts to a positive
   * number of metres; otherwise neither.
   */
  function AfterCalculate(parse: Parser, s: ScreenState): (r: ScreenState)
    ensures r.weight == s.weight && r.height1 == s.height1 && r.height2 == s.height2
    ensures r.selectedUnit == s.selectedUnit
    ensures s.selectedUnit in Units ==> Consistent(r)
    ensures r.bmiResult.Some? <==>
      && parse(s.weight).Some? && parse(s.weight).value > 0.0
      && var h := ConvertToMeters(parse, s.selectedUnit, s.height1, s.height2);
         h.Some? && h.value > 0.0
    ensures r.bmiResult.Some? ==>
      var h := ConvertToMeters(parse, s.selectedUnit, s.height1, s.height2).value;
      r.bmiResult.value * (h * h) == parse(s.weight).value
    ensures r.bmiResult.None? ==> r.bmiCategory == ""
  {
    var w := parse(s.weight);
    var h := ConvertToMeters(parse, s.selectedUnit, s.height1, s.height2);
    if w.Some? && w.value > 0.0 && h.Some? && h.value > 0.0 then
      var bmi := CalculateBMI(w.value, h.value);
      s.(bmiResult := Some(bmi), bmiCategory := GetBMICategory(bmi))
    else
      s.(bmiResult := None, bmiCategory := "")
  }

  /** A user action on the screen. */
  datatype Event =
    | EditWeight(text: string)
    | EditHeight1(text: string)
    | EditHeight2(text: string)
    | ChooseUnit(unit: string)
    | PressCalculate

  /** The dropdown lists only the four unit tags. */
  predicate Offered(e: Event) {
    e.ChooseUnit? ==> e.unit in Units
  }

  function Step(parse: Parser, s: ScreenState, e: Event): (r: ScreenState)
    ensures Consistent(s) && Offered(e) ==> Consistent(r)
  {
    match e
    case EditWeight(text) => s.(weight := text)
    case EditHeight1(text) => s.(height1 := text)
    case EditHeight2(text) => s.(height2 := text)
    case ChooseUnit(unit) => AfterSelectUnit(s, unit)
    case PressCalculate => AfterCalculate(parse, s)
  }

  /** The state after a sequence of events, in order. */
  function Run(parse: Parser, s: ScreenState, events: seq<Event>): ScreenState
    decreases |events|
  {
    if events == [] then s else Run(parse, Step(parse, s, events[0]), events[1..])
  }

  /** Every state reachable through offered events is consistent. */
  lemma {:induction false} RunKeepsConsistent(parse: Parser, s: ScreenState, events: seq<Event>)
    requires Consistent(s)
    requires forall i :: 0 <= i < |events| ==> Offered(events[i])
    ensures Consistent(Run(parse, s, events))
    decreases |events|
  {
    if events != [] {
      RunKeepsConsistent(parse, Step(parse, s, events[0]), events[1..]);
    }
  }

  /** From the initial state, a result is absent exactly when the category is empty. */
  lemma ResultAndCategoryTogether(parse: Parser, events: seq<Event>)
    requires forall i :: 0 <= i < |events| ==> Offered(events[i])
    ensures var s := Run(parse, InitialState(), events);
      s.selectedUnit in Units && (s.bmiResult.None? <==> s.bmiCategory == "")
  {
    RunKeepsConsistent(parse, InitialState(), events);
    var s := Run(parse, InitialState(), events);
    if s.bmiResult.Some? {
      assert s.bmiCategory == GetBMICategory(s.bmiResult.value);
    }
  }

  /** Calculating twice in a row gives the same state as calculating once. */
  lemma CalculateIdempotent(parse: Parser, s: ScreenState)
    ensures AfterCalculate(parse, AfterCalculate(parse, s)) == AfterCalculate(parse, s)
  {
  }

  /** Choosing a unit keeps the old result on screen, but calculating before re-entering a height clears it. */
  lemma SelectUnitThenCalculateClears(parse: Parser, s: ScreenState, unit: string)
    ensures AfterSelectUnit(s, unit).bmiResult == s.bmiResult
    ensures AfterCalculate(parse, AfterSelectUnit(s, unit)).bmiResult.None?
    ensures AfterCalculate(parse, AfterSelectUnit(s, unit)).bmiCategory == ""
  {
  }

  /** An unusable weight (one that does not parse, or is 0) gives no result, whatever the height fields hold. */
  lemma InvalidWeightGivesNoResult(parse: Parser, s: ScreenState)
    requires parse(s.weight).None? || parse(s.weight) == Some(0.0)
    ensures AfterCalculate(parse, s).bmiResult.None?
  {
  }

  /** 70 kg at 175 cm: BMI 70 / 1.75², about 22.86, "Normal weight". */
  lemma MetricExample(parse: Parser, s: ScreenState)
    requires parse(s.weight) == Some(70.0) && parse(s.height1) == Some(175.0) && s.selectedUnit == "cm"
    ensures var r := AfterCalculate(parse, s);
      && r.bmiResult == Some(70.0 / (1.75 * 1.75))
      && 22.85 < r.bmiResult.value < 22.86
      && r.bmiCategory == "Normal weight"
  {
  }

  /** 50 kg at 5 ft 0 in: height 1.524 m, BMI about 21.53, "Normal weight". */
  lemma ImperialExample(parse: Parser, s: ScreenState)
    requires parse(s.weight) == Some(50.0) && parse(s.height1) == Some(5.0) && parse(s.height2) == Some(0.0)
    requires s.selectedUnit == "ft/in"
    ensures ConvertToMeters(parse, s.selectedUnit, s.height1, s.height2) == Some(1.524)
    ensures var r := AfterCalculate(parse, s);
      && r.bmiResult == Some(50.0 / (1.524 * 1.524))
      && 21.52 < r.bmiResult.value < 21.53
      && r.bmiCategory == "Normal weight"
  {
  }

  /**
   * The screen's state holders. `parse` is the text-to-number conversion the
   * screen uses on its fields.
   */
  class Screen {
    const parse: Parser
    var weight: string
    var height1: string
    var height2: string
    var selectedUnit: string
    var bmiResult: Option<real>
    var bmiCategory: string

    function State(): ScreenState
      reads this
    {
      ScreenState(weight, height1, height2, selectedUnit, bmiResult, bmiCategory)
    }

    ghost predicate Valid()
      reads this
    {
      Consistent(State())
    }

    constructor (parse: Parser)
      ensures Valid() && this.parse == parse
      ensures State() == InitialState()
    {
      this.parse := parse;
      weight, height1, height2 := "", "", "";
      selectedUnit := "cm";
      bmiResult, bmiCategory := None, "";
    }

    method EditWeight(text: string)
      requires Valid()
      modifies this
      ensures Valid()
      ensures State() == old(State()).(weight := text)
    {
      weight := text;
    }

    method EditHeight1(text: string)
      requires Valid()
      modifies this
      ensures Valid()
      ensures State() == old(State()).(height1 := text)
    {
      height1 := text;
    }

    method EditHeight2(text: string)
      requires Valid()
      modifies this
      ensures Valid()
      ensures State() == old(State()).(height2 := text)
    {
      height2 := text;
    }

    /** A dropdown item was clicked. */
    method SelectUnit(unit: string)
      requires Valid() && unit in Units
      modifies this
      ensures Valid()
      ensures selectedUnit == unit && height1 == "" && height2 == ""
      ensures weight == old(weight) && bmiResult == old(bmiResult) && bmiCategory == old(bmiCategory)
      ensures State() == AfterSelectUnit(old(State()), unit)
    {
      selectedUnit := unit;
      height1 := "";
      height2 := "";
    }

    /** The Calculate button was clicked. */
    method Calculate()
      requires Valid()
      modifies this
      ensures Valid()
      ensures weight == old(weight) && height1 == old(height1) && height2 == old(height2)
      ensures selectedUnit == old(selectedUnit)
      ensures State() == AfterCalculate(parse, old(State()))
    {
      var w := parse(weight);
      var h := ConvertToMeters(parse, selectedUnit, height1, height2);
      if w.Some? && w.value > 0.0 && h.Some? && h.value > 0.0 {
        var bmi := CalculateBMI(w.value, h.value);
        bmiResult := Some(bmi);
        bmiCategory := GetBMICategory(bmi);
      } else {
        bmiResult := None;
        bmiCategory := "";
      }
    }
  }
}
