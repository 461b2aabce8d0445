# Hospital readmission predictor: feature derivation and risk decision

A Dafny model of the only logic in the readmission predictor service (`app.py`).
Both prediction endpoints, the dashboard form handler `predict_dashboard` and
the JSON handler `predict_readmission`, run the same pipeline on one patient's
ten intake fields:

1. The blood-pressure text `"S/D"` is split on `/`. Exactly two pieces must
   come out, and each must be read by Python's `int`. Otherwise a bare
   `except` swallows the error and both `systolic` and `diastolic` are `None`.
2. The age is binned with `pd.cut` on the edges `[0, 18, 35, 50, 65, 80, 120]`
   with six labels. The pandas defaults make each bin right-closed, and ages
   outside `(0, 120]` get no label (NaN).
3. The BMI gets one of four labels from the `bmi_cat` if-chain (`< 18.5`,
   `< 25`, `< 30`, otherwise "obese").
4. The ten intake columns and the four derived ones (`systolic`, `diastolic`,
   `age_group`, `bmi_cat`) make a one-row table of fourteen columns. The
   trained classifier reads that table and gives the probability of
   readmission. A probability of 0.5 or more is "High risk", and the
   probability is shown rounded to three decimals.

Modules, leaf first:

- `Wrappers` (`wrappers.dfy`): `Option` and `Result`.
- `IntParse` (`int_parse.dfy`): Python `int(s)` on text (whitespace strip,
  optional sign, decimal digits) and `str(n)` as its inverse.
- `StrSplit` (`split.dfy`): `str.split(sep)` and its inverse `Join`.
- `BloodPressure` (`blood_pressure.dfy`): the guarded split-and-parse.
- `AgeGroup` (`age_group.dfy`): numpy's `searchsorted` and `pd.cut`, and the
  six brackets.
- `Bmi` (`bmi.dfy`): the float values the comparisons see (finite, the two
  infinities, NaN) and `bmi_cat`.
- `Risk` (`risk.dfy`): the 0.5 threshold and `round(p, 3)`.
- `FeatureAssembly` (`features.dfy`): the columns, their names, and the row,
  built column by column.
- `Handlers` (`handlers.dfy`): the classifier as an opaque function value,
  the pipeline `Predict`, and the two handlers as methods. Each handler
  updates a local row one column at a time, as the source assigns DataFrame
  columns, and is proved to return `Predict` of its input. So the two
  endpoints agree on every input.

Three facts about the code that are easy to get wrong:

- The table has fourteen columns: the ten intake fields and four derived
  ones (`FeatureAssembly.ColumnCounts`).
- The BMI category column is named `bmi_cat` (app.py:83, 131).
- The bins are right-closed, so age 35 is in "19-35" and age 36 in "36-50"
  (`AgeGroup.AgeGroupBoundaries`).

## Model

| member | source | states |
|---|---|---|
| `IntParse.IsSpace` | app.py:67 | a character `int` skips around the number (CPython's whitespace: tab to carriage return, space, and the non-ASCII `str.isspace` characters) is never a digit, a sign or `/` |
| `IntParse.TrimStart` | app.py:67 | `int` skips leading whitespace: the result is the suffix after the leading run of whitespace and does not start with whitespace |
| `IntParse.TrimEnd` | app.py:67 | `int` ignores trailing whitespace: the result is the prefix before the trailing run of whitespace and does not end with whitespace |
| `IntParse.ParseDigits` | app.py:67 | a run of decimal digits is accepted exactly when it is non-empty and all digits, and its value is the sum of each digit times its power of ten, read from the most significant end |
| `IntParse.DigitsValueLast` | app.py:67 | reading the digits from the least significant end gives the same value: dropping the last digit divides by ten |
| `IntParse.ParseInt` | app.py:67 | `int(s)` succeeds exactly when s, with its surrounding whitespace stripped, is an optional sign and one or more digits, and then gives that numeral's value |
| `IntParse.ParseSigned` | app.py:67 | after stripping, `int` accepts exactly an optional sign followed by one or more digits, and gives the digits' value, negated after a `-`; a `-` gives a value <= 0, otherwise the value is >= 0 |
| `IntParse.SignedDigits` | app.py:67 | a `+` in front of a run of digits leaves its acceptance and value unchanged, a `-` negates the value |
| `IntParse.LeadingZero` | app.py:67 | a leading zero changes nothing: "080" reads as 80 |
| `IntParse.SeparatorNotSkipped` | app.py:67 | text starting with one of U+001C to U+001F is rejected by `int` |
| `IntParse.NatToDecimal` | app.py:67 | the decimal form of a natural number is a non-empty string of digits, without a leading zero when n > 0 |
| `IntParse.ToDecimal` | app.py:67 | `str(n)` is non-empty, starts with `-` exactly when n < 0, and is digits after that sign |
| `IntParse.ParseNatToDecimal` | app.py:67 | reading the digits of n gives back n (proof by induction on n) |
| `IntParse.ParseToDecimal` | app.py:67 | `int(str(n)) == n` for every integer n, negatives included |
| `IntParse.ParseIntSurroundingSpace` | app.py:67 | a whitespace character before or after the text does not change what `int` reads |
| `IntParse.ParseIntChars` | app.py:67 | text `int` accepts holds only whitespace, signs and digits, so never a `/` |
| `StrSplit.Join` | app.py:67 | joining pieces that do not hold the separator puts exactly one separator fewer than there are pieces into the text |
| `StrSplit.Split` | app.py:67 | `split` gives one more piece than there are separators, no piece holds the separator, and joining the pieces with the separator gives back the text |
| `StrSplit.SplitJoin` | app.py:67 | splitting a join of separator-free pieces gives back exactly those pieces, so `Split` and `Join` are inverse |
| `StrSplit.SplitWithoutSep` | app.py:67 | text without the separator splits into one piece, itself |
| `StrSplit.SplitTwo` | app.py:67 | x + "/" + y with no `/` in x or y splits into exactly [x, y] |
| `BloodPressure.ParseBloodPressure` | app.py:66-69 | systolic is present if and only if diastolic is; text with a `/` count other than one gives (None, None) |
| `BloodPressure.ParseLiterals` | app.py:115-118 | for any two strings `int` accepts, x + "/" + y parses to exactly (int(x), int(y)) |
| `BloodPressure.ParseRoundTrip` | app.py:66-67 | "S/D", written with `str`, parses to exactly (S, D) for all integers S and D |
| `BloodPressure.AcceptedShape` | app.py:66-69 | a reading is produced only when the text splits into exactly two pieces, both accepted by `int`, and the reading is their values |
| `BloodPressure.SeparatorPressureAbsent` | app.py:66-69 | a blood pressure starting with one of U+001C to U+001F gives (None, None), whatever follows |
| `BloodPressure.NoSeparatorIsAbsent` | app.py:66-69 | text with no `/` gives (None, None) |
| `BloodPressure.NotANumber` | app.py:115-118 | "not-a-number" gives (None, None) |
| `BloodPressure.OneTwentyOverEighty` | app.py:66-67 | "120/80" gives (120, 80) |
| `AgeGroup.SearchLeft` | app.py:76 | `searchsorted(side="left")`: every edge before the index is below x, and x is at most the edge at the index |
| `AgeGroup.Cut` | app.py:76 | a code from `pd.cut` names a bin (k, k+1) within the edges |
| `AgeGroup.CutInterval` | app.py:74-76 | with increasing edges, the code is missing exactly when x <= first edge or x > last edge; otherwise it is a k with bins[k] < x <= bins[k+1] |
| `AgeGroup.CutUnique` | app.py:74-76 | with increasing edges, the bin (bins[k], bins[k+1]] that contains x is the one `pd.cut` reports |
| `AgeGroup.AgeGroupOf` | app.py:74-76 | a group is only ever given to an age inside that group's right-closed bin |
| `AgeGroup.AgeGroupDefined` | app.py:74-76 | an age has a group exactly when 1 <= age <= 120 |
| `AgeGroup.AgeGroupInterval` | app.py:74-76 | an age gets the label g exactly when it lies in g's right-closed bin, from Youngest(g) to Oldest(g) |
| `AgeGroup.AgeGroupMonotone` | app.py:74-76 | for 1 <= a <= b <= 120 both ages have a group, and a's label index is at most b's |
| `AgeGroup.AgeGroupBoundaries` | app.py:74-76 | 18 is "0-18", 19 and 35 are "19-35", 36 and 50 are "36-50", 65 is "51-65", 80 is "66-80", 81 and 120 are "81+"; 0, 121 and -5 have no label |
| `Bmi.BmiCat` | app.py:78-82 | for a finite BMI each of the four labels holds exactly in its band, each band including its lower bound: < 18.5, [18.5, 25), [25, 30), >= 30 |
| `Bmi.BmiNonFinite` | app.py:126-130 | NaN and +inf fall through to "obese", -inf is "underweight" |
| `Bmi.BmiMonotone` | app.py:78-82 | a larger BMI (infinities included) never gets a lighter category |
| `Bmi.BmiExamples` | app.py:78-82 | 18.4 underweight, 18.5 and 24.9 normal, 25.0 and 29.9 overweight, 30.0 obese |
| `Risk.Decide` | app.py:87 | the decision is "High risk" exactly when the unrounded probability is at least 0.5 |
| `Risk.DecideThreshold` | app.py:87 | "High risk" if and only if p >= 0.5; 0.5 is high risk and 0.4999 low risk |
| `Risk.Thousandths` | app.py:91 | the kept thousandths are within half a unit of 1000 * p, and an exact tie goes to the even one |
| `Risk.Round3` | app.py:91 | the shown value has at most three decimals, rounding moves p by at most 0.0005 and keeps a probability in [0, 1] |
| `Risk.Round3HalfEven` | app.py:138 | an exact tie rounds to even: 0.0625 is shown as 0.062 |
| `Risk.DisplayedHalfCanBeLowRisk` | app.py:87-91 | the decision uses the unrounded value, so 0.4996 is "Low risk" but is shown as 0.5 |
| `FeatureAssembly.IntakeRow` | app.py:52-63 | the intake row has exactly the ten intake columns |
| `FeatureAssembly.DerivedRow` | app.py:70-83 | the derived values fill exactly the four derived columns |
| `FeatureAssembly.Assemble` | app.py:52-83 | the assembled row has exactly the fourteen columns; intake cells equal the submitted fields and derived cells equal the derived values |
| `FeatureAssembly.Derive` | app.py:66-83 | the derived values have both pressure components or neither, and an age group only for an age inside its bin |
| `FeatureAssembly.Features` | app.py:52-83 | the patient's row has the fourteen columns, the submitted fields unchanged and the four derived values |
| `FeatureAssembly.AssignDerived` | app.py:70-83 | assigning the four derived columns to a ten-column row adds exactly those four and leaves the intake cells alone |
| `FeatureAssembly.DerivedCells` | app.py:119-131 | the cells of the assembled row under `systolic`, `diastolic`, `age_group` and `bmi_cat` are the derived values |
| `FeatureAssembly.NameRoundTrip` | app.py:52-63 | reading a column's name gives back the column, and the name is one of the fourteen |
| `FeatureAssembly.NamedColumn` | app.py:52-63 | a name denotes a column exactly when it is one of the fourteen, and then it is that column's name |
| `FeatureAssembly.ColumnCounts` | app.py:52-83 | ten intake and four derived columns, disjoint, fourteen in all |
| `FeatureAssembly.NamesDistinct` | app.py:52-83 | no two columns share a name |
| `FeatureAssembly.PressureCellsAgree` | app.py:70-71 | the `systolic` and `diastolic` cells are both ints or both None |
| `FeatureAssembly.AgeGroupCellMissing` | app.py:76 | the `age_group` cell is missing (NaN) exactly when age <= 0 or age > 120; otherwise it holds the bin's label |
| `FeatureAssembly.TypicalPressure` | app.py:66-67 | "120/80" derives the reading (120, 80) |
| `FeatureAssembly.TypicalAgeGroup` | app.py:74-76 | age 45 derives the group "36-50" |
| `FeatureAssembly.TypicalDerived` | app.py:66-83 | age 45, "120/80" and BMI 22 derive (120, 80), "36-50" and "normal" |
| `FeatureAssembly.TypicalCells` | app.py:70-83 | those derived values become the cells 120, 80, the label "36-50" and the label "normal" |
| `FeatureAssembly.TypicalPatient` | app.py:52-83 | age 45, "120/80" and BMI 22 give systolic 120, diastolic 80, the `age_group` label "36-50" and the `bmi_cat` label "normal" |
| `FeatureAssembly.UnreadablePressure` | app.py:66-71 | "not-a-number" leaves both pressure cells None |
| `Handlers.Predict` | app.py:85-92 | the pipeline fails exactly when the classifier fails on the row, and with the classifier's error; otherwise the prediction is one of "High risk" and "Low risk", and "High risk" exactly when the probability is >= 0.5, the shown probability has at most three decimals, is within 0.0005 of it and stays in [0, 1] |
| `Handlers.PredictDashboard` | app.py:39-94 | the form handler, updating its row one column at a time, returns `Predict` of the ten form fields |
| `Handlers.PredictReadmission` | app.py:112-139 | the JSON handler, which reads the age back out of the table, returns `Predict` of the record, so both endpoints agree on every input |
| `Handlers.BloodPressureNeverFatal` | app.py:66-69 | a classifier that accepts every row with the fourteen columns always gives a result, whatever the blood-pressure text |
| `Handlers.TypicalPatientPrediction` | app.py:85-87 | for the typical patient the derived cells are as above and the prediction follows the 0.5 threshold on the classifier's probability |

## Left out

- HTTP routing, `Form(...)` fields, pydantic coercion of the request body, the Jinja2 template and the static mount (app.py:3-34, 98-108). The handlers take already-typed values.
- Loading the model with `joblib` (app.py:18-19): the classifier is a parameter, a function from the row to a probability or an error. Its internals and what it does with a missing `age_group` are not modelled.
- The response dictionaries and their differing key names (`probability` and `readmission_probability`). The handlers return the prediction and the rounded probability.
- `Risk.Round3`: models Python's correctly rounded `round(p, 3)` on the exact value of the double, with ties to even. The result is the exact real k / 1000, not the nearest double to it.
- `IntParse.ParseInt`, `IntParse.ParseSigned`, `IntParse.ParseDigits`: leave out two parts of Python's `int` grammar. Underscores between digits (`"1_000"`) are rejected here, while Python accepts them. Non-ASCII decimal digits are also rejected here. The whitespace it skips is CPython's: the ASCII tab, line feed, vertical tab, form feed, carriage return and space, and the non-ASCII `str.isspace` characters.
- `IntParse.ParseDigits`: accepts a run of digits of any length. Python 3.11 and later, and the 3.7 to 3.10 security releases, reject a decimal string of more than 4300 digits by default (`sys.int_info.default_max_str_digits`), and the bare `except` then gives (None, None). The repository does not fix the interpreter version, so the limit is not modelled.
- Floating point in general: the BMI is its exact real value or an infinity or NaN, and the classifier's probability is a real. Comparisons with 18.5, 25, 30 and 0.5 give the same answer on a double's exact value, because these constants are exact doubles.
- pandas dtypes: the `None` of an unreadable pressure and the NaN of an unbinned age are both `Missing`. Integer columns are unbounded, not int64.
- Concurrency and the process-wide shared classifier. The pipeline has no state of its own, so each request is a pure function of its input and the classifier.
