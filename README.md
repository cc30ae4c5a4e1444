# Body analysis: BMI band, waist-to-hip ratio and body shape

This project models the decision logic of the `BodyAnalysis` record in a small
Django fitness application (app/core/models.py). A user enters age, weight,
height, gender, activity level and bust, waist and hip measurements.
`calculate_stats` then fills in four result fields:

- `bmi`: weight over the square of the height in metres, rounded to two decimals;
- `bmi_status`: one of five Thai BMI band labels, chosen by an ordered if/elif chain;
- `whr`: waist over hip, rounded to two decimals, or 0 when the hip is not positive;
- `body_shape`: one of five Thai shape labels, chosen by an ordered decision tree
  over the WHR, with the bust/hip ratio as a tie-breaker.

Two read-only helpers use the stored shape. `get_image_folder` strips the word
"หุ่น" from the label to name the image folder. `get_workout_schedule` looks the
label up in a fixed table of five exercises per shape.

Files:

- `wrappers.dfy`: `Option` (a nullable column) and `Outcome` (an operation that may raise).
- `rounding.dfy`: Python's `round(x, 2)` on an exact value, kept in integer hundredths.
- `text.dfy`: Python's `s.replace(pat, "")`.
- `models.dfy`: the labels as datatypes with their Thai strings, and the specification
  functions `StatusFor` and `ShapeFor`. It also holds the two classification methods,
  the `BodyAnalysis` class with its `CalculateStats` method, the two helpers, and the
  lemmas.

Modelling choices:

- Measurements are exact `real`s. BMI and WHR are stored as integer hundredths and
  compared against the thresholds in the same unit: 18.5 is 1850 and 0.85 is 85.
  The bust/hip ratio is never rounded, so it stays a `real`.
- `calculate_stats` is a method of the `BodyAnalysis` class. It may change only the
  four result fields. The BMI chain and the shape tree are the methods
  `ClassifyBmiStatus` and `ClassifyBodyShape`, which are the source's steps 1 and 3.
  The shape tree starts from a local `Unspecified` shape and reassigns it, as the
  source does. The unrounded BMI, the WHR and the bust/hip ratio are the functions
  `Bmi`, `Whr` and `BustHipRatio`, which the method calls. Each step is proved equal to a specification function (`StatusFor`,
  `ShapeFor`), and the method is proved to leave the record `Analysed()`.
- A zero height makes Python raise `ZeroDivisionError` at line 59, before any field
  is written. The model returns `Fail(ZeroDivisionError)` and proves that the record
  is unchanged. The code has no other error path for finite measurements of physical
  size. A negative height or weight is processed like any other value.
- The BMI bands are written with one decimal (`<= 22.9`, then `>= 23.0`), but the BMI
  is rounded to two decimals. So a BMI of 22.95, 24.95 or 29.95 fails every test and
  is labelled "อ้วนระดับ 2" (obese level 2). The model keeps this behaviour.
  `StatusFor` states the gaps exactly. `TwoDecimalGap` shows that the order of
  severity breaks there. `OneDecimalBandsOrdered` shows that it holds for one-decimal
  values.
- The last fallback of the shape tree (line 110) cannot be reached. `ClassifyBodyShape`
  proves this with an `assert false` in that branch.
- `get_image_folder` and `get_workout_schedule` read only `self.body_shape`. They are
  modelled as functions of that field's value, an `Option<string>`, because any
  string or `None` may be stored there.

## Model

| member | source | states |
|---|---|---|
| `Rounding.RoundHalfEven` | app/core/models.py:59 | the result is an integer nearest to its argument; on an exact tie it is the even one |
| `Rounding.RoundHundredths` | app/core/models.py:74 | `round(x, 2)` in hundredths: within 0.005 of `x`, and ties go to the even hundredth |
| `Rounding.RoundHalfEvenUnique` | app/core/models.py:59 | nearest-integer and ties-to-even together determine the rounded value uniquely |
| `Rounding.RoundHundredthsMonotone` | app/core/models.py:59 | rounding to hundredths never reverses the order of two values |
| `Text.RemoveAll` | app/core/models.py:119 | `s.replace(pat, "")` is never longer than `s`, and it returns `s` itself when it removes nothing |
| `Text.RemoveAllWithoutOccurrence` | app/core/models.py:119 | a string that lacks one of the pattern's characters is returned unchanged |
| `Text.RemoveAllWithoutAnyOccurrence` | app/core/models.py:119 | a string in which the pattern occurs at no index is returned unchanged |
| `Text.RemoveAllShrinks` | app/core/models.py:119 | a string in which the pattern occurs at some index comes back strictly shorter |
| `Text.RemoveAllUnchanged` | app/core/models.py:119 | `s.replace(pat, "") == s` iff the pattern occurs nowhere in `s` |
| `Text.RemoveAllLeading` | app/core/models.py:119 | a leading occurrence of the pattern is dropped and the rest is processed on its own |
| `CoreModels.HeightSquared` | app/core/models.py:58-59 | the BMI divisor `(height / 100) ** 2` is zero exactly when the height is zero |
| `CoreModels.StatusLabel` | app/core/models.py:61-70 | the stored band text starts with "อ้วนระดับ " (obese level) exactly for the two obese bands, and then carries the level digit 1 or 2 |
| `CoreModels.ShapeLabel` | app/core/models.py:80-110 | every named shape is stored as "หุ่น" followed by its folder name; the unspecified shape is stored as "ไม่ระบุ" without the prefix |
| `CoreModels.Bmi` | app/core/models.py:58-59 | the unrounded BMI times the squared height in metres gives back the weight |
| `CoreModels.Whr` | app/core/models.py:72-76 | with a positive hip the WHR in hundredths is within 0.005 of waist / hip, and an exact tie goes to the even hundredth; otherwise it is 0 |
| `CoreModels.BustHipRatio` | app/core/models.py:83 | with a positive hip the ratio times the hip gives back the bust; otherwise it is 1.0 |
| `CoreModels.StatusFor` | app/core/models.py:61-70 | each band as a region: under 18.5; 18.5 to 22.9; 23.0 to 24.9; 25.0 to 29.9; obese level 2 above 29.9 and in the three gaps between bands |
| `CoreModels.ClassifyBmiStatus` | app/core/models.py:61-70 | the if/elif chain picks exactly the band `StatusFor` gives |
| `CoreModels.ShapeFor` | app/core/models.py:79-112 | never unspecified; apple iff WHR >= 0.85 whatever the bust; the region of each shape in the two overlapping bands, with the bust/hip tie-break; hourglass below 0.68 |
| `CoreModels.ClassifyBodyShape` | app/core/models.py:80-110 | the decision tree from the initial unspecified shape yields exactly `ShapeFor`, and its last fallback is unreachable |
| `CoreModels.ImageFolder` | app/core/models.py:115-119 | an empty or missing shape gives an empty folder name; otherwise the result is never longer than the stored text, and equals it iff "หุ่น" occurs nowhere in it |
| `CoreModels.WorkoutSchedule` | app/core/models.py:121-160 | the schedule is empty or holds exactly five exercises |
| `CoreModels.BodyAnalysis.constructor` | app/core/models.py:20-45 | a new record holds the given measurements and no results |
| `CoreModels.BodyAnalysis.CalculateStats` | app/core/models.py:56-112 | fails iff height is 0, leaving the record unchanged; otherwise the four result fields hold the rounded BMI, its band label, the WHR and the shape label; recomputation on an analysed record changes nothing; measurement fields never change |
| `CoreModels.FolderOfPrefixedLabel` | app/core/models.py:119 | stripping "หุ่น" from a named label leaves its folder name |
| `CoreModels.ImageFolderOfShape` | app/core/models.py:115-119 | the image folder of every stored shape label is that shape's folder name (for example "หุ่นแอปเปิ้ล" gives "แอปเปิ้ล"), never empty |
| `CoreModels.ImageFolderSinglePass` | app/core/models.py:119 | the prefix is removed in one left-to-right pass: "หหุ่นุ่น" gives "หุ่น", which still contains it |
| `CoreModels.StatusLabelInjective` | app/core/models.py:61-70 | distinct BMI bands are stored as distinct texts |
| `CoreModels.ShapeLabelInjective` | app/core/models.py:123-152 | distinct shapes are stored as distinct labels, so the schedule table has five distinct keys |
| `CoreModels.ScheduleOfNamedShape` | app/core/models.py:123-160 | a shape's label has a five-exercise schedule iff the shape is one of the five named ones, so "ไม่ระบุ" gets none |
| `CoreModels.ScheduleOfOtherValue` | app/core/models.py:160 | any value that is not a named shape label, `None` included, gets the empty schedule |
| `CoreModels.ClassifiedShapeHasPlan` | app/core/models.py:85-160 | whatever the measurements, the computed shape has a five-exercise schedule and its own image folder |
| `CoreModels.NonPositiveHip` | app/core/models.py:73-83 | with hip <= 0 the WHR is exactly 0, the bust/hip ratio exactly 1.0, and the shape is hourglass |
| `CoreModels.OneDecimalBandsOrdered` | app/core/models.py:61-70 | on one-decimal BMI values the bands are contiguous and ordered by severity |
| `CoreModels.TwoDecimalGap` | app/core/models.py:63-66 | 22.90 is normal, 22.95 is obese level 2 and 23.00 is overweight, so severity is not monotone on two-decimal values |
| `CoreModels.ScenarioNormalBmi` | app/core/models.py:58-64 | weight 50 kg and height 160 cm give BMI 19.53, which is normal |
| `CoreModels.ScenarioLowerTriangle` | app/core/models.py:96-100 | waist 70, hip 100 and bust 90 give WHR 0.70 and bust/hip 0.90, which is the lower triangle |
| `CoreModels.ScenarioUpperTriangle` | app/core/models.py:87-91 | waist 65, hip 80 and bust 88 give WHR 0.81 and bust/hip 1.10. The bust test comes first, so the shape is the upper triangle |
| `CoreModels.ScenarioApple` | app/core/models.py:74-86 | waist 90 and hip 95 give WHR 0.947, which rounds to 0.95 and is an apple whatever the bust |

## Left out

- `self.save()` (line 113) is persistence and is not modelled. The ORM field
  declarations, `Meta`, the `user` foreign key and `created_at` are not modelled
  either.
- `__str__` (lines 53-54) depends on the user model and on date formatting.
- The `TextChoices` enums and their translated labels (lines 6-15) become the plain
  datatypes `Gender` and `ActivityLevel`. Their stored codes and display texts are not
  modelled.
- app/core/views.py, app/user/views.py, app/core/urls.py and app/core/forms.py are not
  part of this model. They hold HTTP views, authentication, routing, the entry form
  and the history query.
- `RoundHundredths`: rounds the exact real quotient. Python rounds the double that its
  float arithmetic computes for that quotient. For the WHR that is the double nearest
  the quotient. For the BMI, three rounded operations (`/ 100`, `** 2` and the
  division) can leave it a few rounding errors away. The two results can differ by one
  hundredth when the quotient lies that close to a half-hundredth. IEEE-754 behaviour is not
  modelled in general. This includes a height so small that its square underflows to
  zero, and a height so large (above about 1.34e156) that `height_m ** 2` raises
  `OverflowError` at line 59. In that case the model returns `Pass`.
- Measurement fields that are `None` (the form requires them all) are not modelled.
  In Python they would make `calculate_stats` raise a `TypeError`.
