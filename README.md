# BMI Calculator — a Dafny model

This project models the logic of the single-screen Android BMI calculator
(`BMICalculatorScreen` in `MainActivity.kt`). The screen keeps six pieces of
remembered state: the weight text, two height texts, the selected unit tag,
the BMI result and the category label. Three local functions do the work:

- `convertToMeters` normalises the height fields to metres under one of the
  unit tags `"cm"`, `"m"`, `"inch"` and `"ft/in"`;
- `calculateBMI` is the formula weight / height²;
- `getBMICategory` is a strict less-than ladder over 18.5, 24.9 and 29.9.

Two handlers change the state. Picking a unit in the dropdown records it and
empties both height fields. The Calculate button either sets the result and
its category together or clears both.

Files:

- `wrappers.dfy` — module `Wrappers`: `Option`, for Kotlin's nullable values.
- `calculator.dfy` — module `BmiCalculator`: the three pure functions and
  lemmas about them.
- `screen.dfy` — module `BmiScreen`: the state as a value (`ScreenState`) and
  its transition functions, the event sequence semantics (`Step`, `Run`), and
  the class `Screen`, whose fields are the remembered state holders and whose
  methods are the handlers. Each method is proved to produce exactly the state
  its transition function describes, so what is proved about the functions
  holds of the class.

Modelling choices:

- Kotlin `Float` arithmetic is modelled over `real`. The decimal literals
  (0.0254, 18.5, 24.9, 29.9) are therefore exact.
- `String.toFloatOrNull` is a parameter `parse: Parser`. Every result holds
  for every parser that maps the empty text to `None`, as `toFloatOrNull`
  does.
- The unit is kept as its string tag, as in the source. The `else -> null`
  branch of `convertToMeters` is modelled, and the fact that it is never taken
  is the state invariant `selectedUnit in Units`. The dropdown only offers
  the four listed tags.
- The text fields' `onValueChange` assignments are included as events. This
  makes the invariant a statement about every event the screen handles.

## Model

| member | source | states |
|---|---|---|
| BmiCalculator.ConvertToMeters | app/src/main/java/com/example/bmicalculator/MainActivity.kt:42-55 | A height is produced exactly when the primary field parses and the unit is one of the four tags. cm divides by 100, m is unchanged, inch scales by 0.0254, and ft/in gives (feet·12 + inches)·0.0254 with an unparseable inches field read as 0. A positive entry gives a positive height. |
| BmiCalculator.UnparsedPrimaryGivesNoHeight | app/src/main/java/com/example/bmicalculator/MainActivity.kt:43 | An unparseable primary height gives no height, whatever the unit and the secondary field. |
| BmiCalculator.UnparsedInchesCountAsZero | app/src/main/java/com/example/bmicalculator/MainActivity.kt:49 | In ft/in, an unparseable inches field gives the same height as an inches field holding 0. |
| BmiCalculator.UnitsAgree | app/src/main/java/com/example/bmicalculator/MainActivity.kt:44-52 | The four conversions agree: x cm equals x/100 m, x in equals 2.54·x cm, and f ft i in equals 12·f + i inches. |
| BmiCalculator.ReferenceHeights | app/src/main/java/com/example/bmicalculator/MainActivity.kt:44-52 | 180 cm is 1.8 m, 70 in is 1.778 m, and 5 ft 11 in is 1.8034 m. |
| BmiCalculator.CalculateBMI | app/src/main/java/com/example/bmicalculator/MainActivity.kt:57-59 | The BMI times the square of the height is the weight. A positive weight gives a positive BMI. |
| BmiCalculator.GetBMICategory | app/src/main/java/com/example/bmicalculator/MainActivity.kt:61-67 | The label is one of the four non-empty categories. Each category holds exactly on its band: below 18.5, [18.5, 24.9), [24.9, 29.9), and 29.9 or more. |
| BmiCalculator.CategoryRank | app/src/main/java/com/example/bmicalculator/MainActivity.kt:62-67 | Each label has a position in the order Underweight < Normal weight < Overweight < Obesity. |
| BmiCalculator.CategoryMonotone | app/src/main/java/com/example/bmicalculator/MainActivity.kt:62-67 | A larger BMI never gets an earlier category. |
| BmiCalculator.CategoryBoundaries | app/src/main/java/com/example/bmicalculator/MainActivity.kt:63-66 | Over reals, 18.49 is Underweight. 18.5 is Normal weight, 24.9 is Overweight and 29.9 is Obesity, because the comparisons are strict. |
| BmiScreen.InitialState | app/src/main/java/com/example/bmicalculator/MainActivity.kt:32-40 | The initial state has empty fields, unit cm and no result, and it is consistent. |
| BmiScreen.AfterSelectUnit | app/src/main/java/com/example/bmicalculator/MainActivity.kt:107-111 | The unit becomes the chosen one and both height texts become empty. The weight, result and category are unchanged. Choosing a listed unit keeps the state consistent. |
| BmiScreen.AfterCalculate | app/src/main/java/com/example/bmicalculator/MainActivity.kt:154-165 | A result is present exactly when the weight parses to a positive number and the height converts to a positive number of metres. That result times the square of the height is the weight. With no result the category is empty. The input fields and the unit are unchanged. When the unit is one of the four listed tags, the new state is consistent. |
| BmiScreen.Step | app/src/main/java/com/example/bmicalculator/MainActivity.kt:81-165 | Every offered event (a text edit, a listed unit, Calculate) takes a consistent state to a consistent state. |
| BmiScreen.RunKeepsConsistent | app/src/main/java/com/example/bmicalculator/MainActivity.kt:32-165 | A consistent state stays consistent through any sequence of offered events. |
| BmiScreen.ResultAndCategoryTogether | app/src/main/java/com/example/bmicalculator/MainActivity.kt:39-40 | In every state reachable from the initial one, the unit is a listed tag, and the result is absent exactly when the category is empty. |
| BmiScreen.CalculateIdempotent | app/src/main/java/com/example/bmicalculator/MainActivity.kt:154-165 | Pressing Calculate twice gives the same state as pressing it once. |
| BmiScreen.SelectUnitThenCalculateClears | app/src/main/java/com/example/bmicalculator/MainActivity.kt:107-111 | Choosing a unit leaves the shown result in place. Pressing Calculate before re-entering a height clears it, because the empty height does not parse. |
| BmiScreen.InvalidWeightGivesNoResult | app/src/main/java/com/example/bmicalculator/MainActivity.kt:155-157 | A weight that does not parse, or that is 0, gives no result whatever the height fields hold. |
| BmiScreen.MetricExample | app/src/main/java/com/example/bmicalculator/MainActivity.kt:154-165 | 70 kg at 175 cm gives 70 / 1.75², between 22.85 and 22.86, Normal weight. |
| BmiScreen.ImperialExample | app/src/main/java/com/example/bmicalculator/MainActivity.kt:154-165 | 50 kg at 5 ft 0 in gives 1.524 m and a BMI between 21.52 and 21.53 (shown as 21.53), Normal weight. |
| BmiScreen.Screen.constructor | app/src/main/java/com/example/bmicalculator/MainActivity.kt:32-40 | The state holders start in the initial state, which is valid. |
| BmiScreen.Screen.EditWeight | app/src/main/java/com/example/bmicalculator/MainActivity.kt:81 | Only the weight text changes. |
| BmiScreen.Screen.EditHeight1 | app/src/main/java/com/example/bmicalculator/MainActivity.kt:124 | Only the primary height text changes (the same handler appears at line 143). |
| BmiScreen.Screen.EditHeight2 | app/src/main/java/com/example/bmicalculator/MainActivity.kt:133 | Only the secondary height text changes. |
| BmiScreen.Screen.SelectUnit | app/src/main/java/com/example/bmicalculator/MainActivity.kt:107-111 | The unit is set and both height texts are emptied. The weight, result and category are unchanged. The state stays valid, and it is the state AfterSelectUnit describes. |
| BmiScreen.Screen.Calculate | app/src/main/java/com/example/bmicalculator/MainActivity.kt:154-165 | The inputs and unit are unchanged. The new state is the one AfterCalculate describes, and it stays valid. |

## Left out

- `MainActivity.onCreate`, the theme and the Compose layout: framework plumbing with no behaviour of its own.
- The dropdown's `expanded` flag: it only opens and closes the menu.
- Result formatting with `"%.2f".format`: presentation, and locale-dependent.
- IEEE `Float` rounding, infinities and NaN: arithmetic is exact over `real`. One consequence is not captured. In Kotlin, `24.9f` and `29.9f`, widened for the comparison with the `Double` literals `24.9` and `29.9`, are slightly below them, so a `Float` BMI of `24.9f` would be labelled Normal weight and one of `29.9f` Overweight. No such value is modelled.
- The internals of `String.toFloatOrNull`: it is an abstract parameter. The only property used is that the empty text does not parse.
- CalculateBMI: requires a positive height. With a zero height Kotlin would give an infinity or NaN, but the function's one caller checks the height is positive first.
- BmiScreen.Offered: allows an edit of the secondary height field in any unit, although the field is only displayed in ft/in. The invariant is proved over this larger set of event sequences, so it holds for the smaller one too.
