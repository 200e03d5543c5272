# BMI calculator: classifier and population tally

A Dafny model of the core of a small BMI calculator. The program reads a JSON
array of patient records (`heightCm`, `weightKg`, `gender`, ...). For each record
with a positive height and weight it computes the Body Mass Index, rounds it to
one decimal, classifies it into one of six weight categories with its health
risk, and appends a row to a "BMI report" sheet. It also keeps five counters
(`totalPatient`, `totalOverWeight`, `totalUnderWeight`, `totalNormalWeight`,
`totalIncorrectEntries`). At the end of the input one summary row holding these
counters is appended to an "obesity data" sheet.

Files:

- `wrappers.dfy`: module `Wrappers`, the `Option` type used for fields that may be absent.
- `classifier.dfy`: module `BmiClassifier`. The two name tables as datatypes
  `Category` and `HealthRisk`, the classifier `Classify` over a real BMI with the
  source's comparisons exactly as written, `toFixed(1)` as `ToFixedTenths`, and
  the BMI computation `GetBmiData`. A one-decimal BMI is a whole number of tenths
  (`OneDecimal(184)` is 18.4).
- `pipeline.dfy`: module `BmiPipeline`. Input records, the validity gate,
  detail rows, the counter update, and the reference functions `Details` and
  `TallyAll`, which give the report and the counters after a prefix of the input.
  The class `BmiReport` holds the counters and the two sheets as fields.
  `Step` is the per-record `data` handler and `Finish` is the `end` handler.
  `CalculateBmi` feeds an already parsed array to them in array order.

Points where the code behaves differently from what one might expect, kept as written:

- `toFixed(1)` rounds to the nearest tenth, taking the larger one on a tie. It
  does not truncate. The model rounds the exact BMI that way.
- The explicit ranges leave one-decimal values 24.6 to 24.9 uncovered. They reach
  the last branch and are classified "Very severely obese" / "Very high risk".
  The model keeps this (`QuirkValues`) and shows that it breaks the severity
  order (`QuirkBreaksOrder`). The usual normal range ends at 24.9, so this is
  probably not intended. The rest of the model still uses the code as written.
- Overweight and all three obesity categories go to the one counter
  `totalOverWeight`.

## Model

| member | source | states |
|---|---|---|
| BmiClassifier.CategoryNamesDistinct | calculateBmi.js:5-12 | the category names are pairwise different, so comparing a name with `bmiCategories.underweight` is comparing categories |
| BmiClassifier.Classify | calculateBmi.js:148-182 | total on every BMI value; the risk returned is always the one paired with the category (Underweight with Malnutrition, ..., Very severely obese with Very high) |
| BmiClassifier.GapsFallToLastBranch | calculateBmi.js:151-180 | real values strictly between 18.4 and 18.5, 24.5 and 25, 29.9 and 30, 34.9 and 35, 39.9 and 40 fall to the last branch |
| BmiClassifier.OneDecimalBands | calculateBmi.js:151-180 | for a one-decimal BMI, each category holds exactly when the tenths lie in its band: at most 184, 185-245, 250-299, 300-349, 350-399, and 246-249 or at least 400 for the last |
| BmiClassifier.NoOneDecimalValueInGaps | calculateBmi.js:151-176 | no one-decimal value lies inside the 18.4/18.5, 29.9/30, 34.9/35 and 39.9/40 gaps; inside 24.5/25 lie exactly 24.6 to 24.9 |
| BmiClassifier.QuirkValues | calculateBmi.js:156-180 | 24.6, 24.7, 24.8 and 24.9 are classified Very severely obese / Very high risk |
| BmiClassifier.BoundaryValues | calculateBmi.js:151-180 | 18.4 is Underweight; 18.5 and 24.5 are Normal weight; 25.0 and 29.9 Overweight; 30.0 and 34.9 Moderately obese; 35.0 and 39.9 Severely obese; 40.0 Very severely obese, each with its paired risk |
| BmiClassifier.MonotoneOutsideQuirk | calculateBmi.js:151-180 | outside 24.6-24.9 a larger one-decimal BMI never gets a lighter category |
| BmiClassifier.QuirkBreaksOrder | calculateBmi.js:156-164 | 24.9 is ranked heavier than 25.0, so the order fails at the quirk |
| BmiClassifier.ToFixedTenths | calculateBmi.js:139 | the result is within half a tenth of the value, with ties going away from zero |
| BmiClassifier.ToFixedTenthsUnique | calculateBmi.js:139 | any whole number of tenths with that nearness and tie rule is the rounding |
| BmiClassifier.GetBmiData | calculateBmi.js:135-141 | `bmi` is the `toFixed(1)` rounding of weight/(height/100)² (so within half a tenth of it, with the tie rule), and category and risk are the classification of that rounded `bmi` |
| BmiClassifier.Scenario180Cm75Kg | calculateBmi.js:135-141 | 180 cm and 75 kg give 23.1, Normal weight, Low risk |
| BmiClassifier.ClassifiedAfterRounding | calculateBmi.js:138-140 | an exact BMI of 24.96 would reach the last branch, but it is rounded to 25.0 first and classified Overweight |
| BmiPipeline.Accepted | calculateBmi.js:99 | a record passes the gate iff height and weight are both present and greater than zero |
| BmiPipeline.DetailRowOf | calculateBmi.js:101 | the row's `id` is the array index plus one; gender, height and weight pass through; bmi is the `toFixed(1)` rounding of the record's BMI, and category and risk are the classification of that rounded bmi |
| BmiPipeline.DetailRowIgnoresRecordId | calculateBmi.js:101 | an `id` carried by the record has no effect on its row |
| BmiPipeline.BucketOf | calculateBmi.js:103-109 | Underweight and Normal weight have their own buckets; the other four categories all go to the overweight bucket |
| BmiPipeline.OutcomeOf | calculateBmi.js:99-112 | a record is an incorrect entry iff it fails the gate |
| BmiPipeline.Tally | calculateBmi.js:103-113 | `totalPatient` grows by one, the bucket of the given outcome grows by one, no counter decreases, exactly one bucket grows by one, and the bucket sum stays equal to `totalPatient` |
| BmiPipeline.SummaryMatchesDetails | calculateBmi.js:29-35 | after any input (empty included) `totalPatient` is the number of records and the buckets sum to it; incorrect entries are the records without a row; the under/normal/over counters count the rows of their categories |
| BmiPipeline.DetailRowsFromRecords | calculateBmi.js:96-101 | every row with id k is the row built from the accepted record at index k−1 |
| BmiPipeline.DetailIdsIncrease | calculateBmi.js:96-101 | row ids are at most the input length and strictly increase down the sheet, so rows are in input order |
| BmiPipeline.AcceptedRecordHasRow | calculateBmi.js:99-101 | every accepted record at index k has a row with id k+1 |
| BmiPipeline.BmiReport.constructor | calculateBmi.js:29-35 | all counters start at zero and both sheets are empty |
| BmiPipeline.BmiReport.Step | calculateBmi.js:96-114 | the counters become the one-record update of the old ones; the sheet gains exactly the record's row if accepted and nothing otherwise; the summary sheet is untouched; the bucket invariant is kept |
| BmiPipeline.BmiReport.Finish | calculateBmi.js:116-117 | appends one summary row equal to the current counters and changes nothing else |
| BmiPipeline.CalculateBmi | calculateBmi.js:26-121 | the BMI sheet is `Details(records)`; the summary sheet is the single row `TallyAll(records)`, whose `totalPatient` is the number of records and whose buckets add up |
| BmiPipeline.ScenarioOneNormalPatient | calculateBmi.js:96-114 | one record of 180 cm / 75 kg gives one row with id 1 and bmi 23.1, and a summary of one patient of normal weight |
| BmiPipeline.ScenarioNegativeHeight | calculateBmi.js:99-112 | one record with height −5 gives no row and a summary of one patient, one incorrect entry |

## Left out

- Opening the input file, the "not found" error path and the promise's reject/resolve wiring (calculateBmi.js:27, 39-45, 119-125, index.js): I/O and asynchronous plumbing. The `end` handler's success signal is not modelled.
- Incremental JSON parsing and its syntax-error path (calculateBmi.js:37, 48, 122-125). It is a foreign library, so the input is a finite sequence of already parsed records.
- The spreadsheet writer: workbook and worksheet creation, column headers, cell fills, per-row and workbook `commit()`, and the timestamped file name (calculateBmi.js:50-93, 101, 117-118). It is a foreign library and presentation. The two sheets are append-only sequences of rows.
- Logging with `console.log`.
- GetBmiData: computes on exact reals, not IEEE doubles. The division error and the double's decimal expansion, which can move a value lying very near a half tenth, are not modelled. It also requires a positive height: its only caller passes the gate first, so the `Infinity` that a zero height would give cannot arise.
- ToFixedTenths: rounds the exact value. The exponential notation that `toFixed` uses for magnitudes of 10^21 and above is not modelled.
- Accepted: the numeric coercion of the language is taken as already done. A field is its numeric value or absent (`None`, which also stands for values that coerce to NaN). Numeric strings and booleans, which the language would coerce to numbers, are not represented.
- DetailRowOf: only the seven sheet columns are modelled. The other fields of the record, which the spread copies into the row object, are not written to the sheet by its column definitions and are left out.
- Record: an input element that is `null` makes the `data` handler throw when it reads `value.heightCm` (calculateBmi.js:99). That element is then neither counted nor given a row, and the run fails. The model's input holds only objects. Elements that are numbers, strings or arrays read every field as absent, which is `Record(None, None, None, None)`, an incorrect entry.
- The counters are unbounded integers. The loss of precision of the language's numbers above 2^53 is not modelled.
- BmiPipeline.BmiReport.Finish: nothing stops a second call. The input stream's `end` event fires once, and a second summary row cannot arise in `CalculateBmi`.
- test/index.js: its tests check only I/O outcomes (a missing file, bad JSON, a success result), which are outside the model.
