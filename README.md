# BMI calculator core, modelled in Dafny

This project models the computational core of a single-page BMI calculator
(`script.js`). The page reads a weight and a height in either metric units
(kilograms, centimetres) or imperial units (pounds, feet and inches). It
checks them, converts them to kilograms and metres, computes the Body Mass
Index, puts it into a category (Underweight, Normal, Overweight, Obese), and
derives the healthy-weight range for the height. It then shows the height and
weight back in the selected units and places a marker on a BMI scale from 12
to 40.

The model works over Dafny's `real`. The script reads the unit toggle and
the input fields from shared page state. Every operation that reads page
state in the script takes that state as parameters instead: `ValidInputs`,
`Calculate` and `EvaluateForm` take the unit (`Metric | Imperial`) and the
five parsed fields, and `FormatHeight` and `FormatWeight` take the unit.
Each parsed field is a `Num`, either `Finite(value)` or `NonFinite`, so the
script's `isFinite` tests have something to test.

Modules:

- `Numbers`: parsed numbers, `Option`, and `Math.floor`, `Math.round`, `Math.min` and `Math.max`.
- `Measurement`: the validity check, the conversion to canonical kilograms and metres, and the BMI formulas.
- `Classification`: the category ladder.
- `WeightRange`: the healthy-weight range.
- `Display`: the height and weight tiles, and the scale marker.
- `Evaluate`: `EvaluateForm`, one full evaluation of the form, as done on every edit, unit switch and submit.

Three results follow from the code as written, and the model keeps them:

- An imperial height tile can read "5 ft 12 in". The code rounds the inches without carrying into the feet. `Display.TwelveInchesShown` exhibits the case, and `Evaluate.TwelveInchesFromForm` reaches it from the form (5 ft 11.6 in).
- The two imperial BMI formulas differ by a relative 9e-5 to 1e-4. `703 * lb / in^2` and `kg / m^2` are not equal to within 1e-6: 703 approximates 0.45359237 / 0.0254^2 ≈ 703.0696. `Measurement.ImperialBmiNearQuetelet` proves the exact ratio and both bounds.
- 50 kg at 200 cm gives BMI 12.5. The code then places the marker at 25/14 % (about 1.79 %), not at 0 %.

## Model

| member | source | states |
|---|---|---|
| `Numbers.Floor` | script.js:121 | `Math.floor`: the largest integer not above its argument |
| `Numbers.Round` | script.js:122 | `Math.round`: an integer within half of its argument, a half rounded upwards |
| `Numbers.Min` | script.js:159 | `Math.min`: a value no larger than either argument and equal to one of them |
| `Numbers.Max` | script.js:159 | `Math.max`: a value no smaller than either argument and equal to one of them |
| `Measurement.TotalInches` | script.js:70 | feet times 12 (the same sum is repeated at line 86) plus inches, a non-finite part counting as 0: taking off the inches and dividing by 12 gives back the feet; two missing parts give 0 |
| `Measurement.ValidInputs` | script.js:61-73 | metric: weight and height finite and positive; imperial: weight finite and positive and feet*12+inches positive, a non-finite part counting as 0 |
| `Measurement.ValidityExamples` | script.js:62-71 | weight 0 or -5, height 0, a non-finite weight, and feet=inches=0 are rejected; a missing feet part with 69 inches is accepted |
| `Measurement.MissingPartCountsAsZero` | script.js:68-71 | a non-finite feet or inches part gives the same validity and the same result as a 0 in its place |
| `Measurement.OtherUnitFieldsIgnored` | script.js:61-92 | validity and the computed values depend only on the fields of the selected unit |
| `Measurement.Quetelet` | script.js:80 | BMI from canonical values: BMI times height squared is the weight; positive for a positive weight |
| `Measurement.Calculate` | script.js:75-92 | for valid inputs BMI, height and weight are positive; metric kilograms are the entered ones and metres times 100 are the entered centimetres; imperial kilograms over 0.45359237 are the entered pounds and metres over 0.0254 are the total inches |
| `Measurement.MetricBmiIsQuetelet` | script.js:77-81 | metric BMI is exactly kilograms over metres squared |
| `Measurement.ConversionFactorsNearInverse` | script.js:89 | the display factor 2.20462262 (also used at lines 106-107 and 130) times the factor 0.45359237 lies strictly between 1 - 1e-8 and 1 |
| `Measurement.ImperialRatioBounds` | script.js:87-89 | the exact pound-and-inch factor exceeds 703 by a relative 9e-5 to 1e-4 |
| `Measurement.ImperialBmiNearQuetelet` | script.js:83-90 | imperial BMI comes from pounds and inches; kilograms over metres squared equals it times a fixed ratio and lies strictly between 1.00009 and 1.0001 times it |
| `Classification.Categorize` | script.js:94-100 | a non-finite BMI, and only that, gets the placeholder |
| `Classification.CategorizeIsBand` | script.js:94-100 | a finite BMI gets exactly the category whose interval (closed below, open above) holds it |
| `Classification.Boundaries` | script.js:96-99 | 18.4999 Underweight, 18.5 Normal, 24.9999 Normal, 25 Overweight, 29.9999 Overweight, 30 Obese |
| `Classification.CategorizeMonotone` | script.js:94-100 | a larger finite BMI never gets a lower category |
| `WeightRange.HealthyRange` | script.js:102-113 | the pound bounds are the kilogram bounds times 2.20462262 |
| `WeightRange.RangeOrdered` | script.js:104-107 | for a positive height both bounds are positive and the lower is below the upper, in kg and in lb |
| `WeightRange.BoundsAreNormalBmi` | script.js:103-105 | the bounds are the weights with BMI exactly 18.5 and 24.9 at that height, both categorised Normal |
| `WeightRange.RangeIncreasing` | script.js:104-107 | all four bounds strictly increase with height |
| `WeightRange.PoundsConvertBack` | script.js:106-107 | pound bounds times 0.45359237 fall short of the kilogram bounds by less than one part in 10^8 |
| `Display.FormatHeight` | script.js:115-125 | sentinel iff the height is non-finite or not positive; centimetres convert back exactly; the feet are the whole feet of the height (no carry), the inches are the remainder rounded half up (0 <= inches <= 12), and the total lies within half an inch of the height, a half rounded upwards |
| `Display.FormatWeight` | script.js:127-131 | sentinel iff the weight is non-finite or not positive; kilograms pass through; pounds are positive and convert back exactly |
| `Display.MarkerPosition` | script.js:158-160 | the marker lies in [0, 100], proportional on [12, 40], 0 below it and 100 above it |
| `Display.Marker` | script.js:158-163 | the marker is placed iff the BMI is finite, and then sits at `MarkerPosition` of that BMI, in [0, 100] |
| `Display.MarkerMonotone` | script.js:159 | a higher BMI never moves the marker left |
| `Display.MetricTilesRoundTrip` | script.js:115-131 | metric tiles show exactly the entered centimetres and kilograms |
| `Display.ImperialWeightRoundTrip` | script.js:89 | the imperial weight tile shows the entered pounds less under one part in 10^8 |
| `Display.WholeFeetInchesRoundTrip` | script.js:119-123 | whole feet with 0 to 11 whole inches are shown back exactly as entered |
| `Display.TwelveInchesShown` | script.js:120-123 | 71.6 inches is shown as 5 ft 12 in: no carry into the feet |
| `Evaluate.EvaluateForm` | script.js:133-178 | the panel is blank iff the inputs are invalid; otherwise it shows the BMI of `Calculate` (positive, classified into the category whose interval holds it), the marker at `MarkerPosition` of that BMI (on the scale), the tiles `FormatHeight`/`FormatWeight` of the canonical height and weight, and `HealthyRange` of that height |
| `Evaluate.RangeOfEnteredHeight` | script.js:169-177 | the range shown is that of the canonical height, and it is ordered |
| `Evaluate.MetricDefaults` | script.js:35-36 | 70 kg, 175 cm: BMI 70/1.75^2 (22.85..22.86), Normal, range 56.65625-76.25625 kg, tiles 175 cm and 70 kg |
| `Evaluate.ImperialDefaults` | script.js:37-39 | 154 lb, 5 ft 9 in: BMI 703*154/69^2 (22.73..22.74), Normal, tiles 5 ft 9 in and just under 154 lb |
| `Evaluate.UnderweightExample` | script.js:157-160 | 50 kg, 200 cm: BMI 12.5, Underweight, marker at 25/14 |
| `Evaluate.TwelveInchesFromForm` | script.js:84-89 | entering 5 ft 11.6 in makes the height tile read 5 ft 12 in |
| `Evaluate.InvalidInputsBlank` | script.js:133-147 | zero or negative weight, zero height, and 0 ft 0 in blank the panel; inches alone do not |

## Left out

- Page wiring is not modelled: element lookups, the unit toggle `setUnit` (it assigns the unit, toggles visibility and button state, then runs the same evaluation as an edit), event listeners, form submit and the reset button. The unit is a parameter instead. The reset values appear only as `Evaluate.DefaultFields`.
- Text rendering is not modelled: `toFixed(1)` rounding, the range separators, unit suffixes, badge labels and CSS class names. The model keeps the numeric values and a `Category` datatype, with `Unclassified` for the placeholder badge.
- Floating point is not modelled: IEEE-754 rounding and overflow are absent, and NaN and ±Infinity are merged into `NonFinite`. Parsing text with `parseFloat` is not modelled; fields arrive already parsed.
- Measurement.Calculate: requires valid inputs. Its only caller reaches it after the validity check. On invalid inputs the script would produce NaN, ±Infinity, zero or negative values that the page never shows.
- The `isFinite` guards on the computed BMI and height are not separate branches in the model. Over the reals they always pass for valid inputs. `Display.Marker` still has the non-finite branch.
- The off-screen marker position (`-9999px`) and the `style.left` assignment are not modelled. The model represents the off-screen marker as `None`.
