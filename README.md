# Hotel booking form: input normaliser, in Dafny

This project models the one piece of logic in the hotel-booking cancellation
predictor's web form (`app.py`). That logic is the normaliser that turns the user's
selections into the classifier's input table, plus the step that picks the notice
shown for the classifier's label. It has three parts:

- **Code extraction.** Each drop-down shows strings that pair a short code with a
  description, such as `"Online TA – Online travel website"`. The code is recovered
  with Python's `display.split(sep)[0]`. The meal field splits on a single space.
  Market segment, deposit type and customer type split on `" – "`: a space, U+2013
  EN DASH, and a space. `PyStr.SplitFirst` models `s.split(sep)[0]`. It is proved
  equal to an independent definition, `PyStr.IsFirstPiece`: the prefix before the
  first occurrence of the separator, or the whole string when the separator does
  not occur. Lemmas then fix the extracted code for every option the form offers.
- **Record assembly.** The one-row table has twenty columns. Ten are the four
  numbers, the four codes, the month and the country, all copied unchanged. The
  other ten hold fixed values: `booking_changes=0`, `stays_in_weekend_nights=0`,
  `stays_in_week_nights=1`, `required_car_parking_spaces=0`, `adr=100.0`, and 0
  for the remaining five. In the model the record is a datatype with one field per
  column, and `Features.Get` gives the column-by-column view of it. An enumerated
  `Column` type lists the twenty columns with their names. `Features.Defaults` is
  the documented table of the fixed values.
- **Outcome.** A label of 1 shows the cancellation warning, and any other label
  shows the confirmation. The classifier is an opaque parameter
  `predict: FeatureRecord -> int`.

Modules: `PyStr` (`py_str.dfy`) models Python's `str.split(sep)[0]`.
`BookingForm` (`booking_form.dfy`) holds the widgets, their options,
`BookingInput` and `Normalise`. `Features` (`features.dfy`) holds the columns and
the record. `Prediction` (`prediction.dfy`) holds the notice and the submission.

`split(sep)[0]` does not trim, so neither does the model. No listed option
needs trimming: the meal codes hold no space, and the other three fields are cut
before the space that starts `" – "`. The meal field splits on a single space.
The country field is taken verbatim, and the empty string is allowed too, as
`st.text_input` allows it.

Each option string is written in the model as `code + CodeSeparator +
description`. This is the same value as the literal in `app.py`, where the
separator is written directly as ` – `.

## Model

| member | source | states |
|---|---|---|
| `PyStr.SplitFirst` | app.py:188 | `s.split(sep)[0]` for a non-empty separator: the result is a prefix of `s`, no occurrence of `sep` starts inside it, and it either is all of `s` or is followed directly by `sep` |
| `PyStr.FirstPieceUnique` | app.py:188 | at most one string meets that description, so the first piece is well defined |
| `PyStr.SplitFirstIsFirstPiece` | app.py:188 | a string is the first piece of `s` split at `sep` exactly when it equals `SplitFirst(s, sep)` (both directions) |
| `PyStr.SplitFirstHasNoSeparator` | app.py:198 | the extracted code never contains the separator |
| `PyStr.SplitFirstWithoutSeparator` | app.py:209 | the whole string comes back exactly when the separator does not occur in it (both directions) |
| `PyStr.SplitFirstOfCoded` | app.py:177 | for `code + sep + rest`, where no occurrence of `sep` starts inside `code`, the result is `code` |
| `PyStr.CharFreeCode` | app.py:177 | for a one-character separator, a code without that character meets the condition of `SplitFirstOfCoded` |
| `PyStr.MiddleCharFreeCode` | app.py:188 | for a separator shaped `a b a`, such as `" – "`, a code without `b` meets that condition |
| `BookingForm.MealCodeOf` | app.py:177 | splitting an option at the first space gives its code when the code holds no space |
| `BookingForm.DashCodeOf` | app.py:188 | splitting an option at `" – "` gives its code when the code holds no en dash; spaces and ASCII hyphens in the code are kept |
| `BookingForm.IsFormInput` | app.py:163-222 | what the widgets can hand out: lead time in `[0,500]`, adults in `[1,5]`, children in `[0,5]`, babies in `[0,2]`, each drop-down on one of its listed options, the month one of the twelve month names, and any text for the country |
| `BookingForm.InitialInput` | app.py:163-222 | the form as first shown (initial numbers, first option of every drop-down, country `"PRT"`) is a legal input |
| `BookingForm.Normalise` | app.py:177-209 | numbers, month and country pass through unchanged; each of the four codes is the first piece of its display string at that field's separator |
| `BookingForm.MealOptionCodes` | app.py:168-177 | the four meal options yield exactly `BB`, `HB`, `FB` and `SC`, in order |
| `BookingForm.SegmentOptionCodes` | app.py:179-188 | the four segment options yield `Direct`, `Corporate`, `Online TA` and `Offline TA/TO`, with multi-word codes intact |
| `BookingForm.SegmentNeedsDashSeparator` | app.py:177-188 | splitting `Online TA – …` and `Offline TA/TO – …` at a single space would give `Online` and `Offline` instead |
| `BookingForm.DepositOptionCodes` | app.py:190-198 | the three deposit options yield `No Deposit`, `Non Refund` and `Refundable` |
| `BookingForm.DepositCodesDistinct` | app.py:190-198 | two different deposit options never give the same code |
| `BookingForm.CustomerOptionCodes` | app.py:200-209 | the four customer options yield `Transient`, `Contract`, `Transient-Party` and `Group` |
| `BookingForm.HyphenIsNotSeparator` | app.py:205-209 | `Transient-Party – …` keeps its hyphenated code, while splitting it at an ASCII hyphen would give `Transient` |
| `BookingForm.NormaliseFormInput` | app.py:163-222 | for every input the widgets can produce, each code is the one listed for the selected option, and the numbers stay in `[0,500]`, `[1,5]`, `[0,5]` and `[0,2]` |
| `BookingForm.InitialInputCodes` | app.py:163-222 | the initial form normalises to `50, 2, 0, 0, BB, Direct, No Deposit, Transient, January, PRT` |
| `BookingForm.LowerBoundaryScenario` | app.py:163-222 | the smallest numbers with `SC`, `Direct`, `No Deposit`, `Group`, January and an empty country are legal and pass through unchanged |
| `Features.ColumnName` | app.py:227-246 | the twenty column names of the table, one per column, each non-empty and starting with a lower-case letter |
| `Features.DistinctCount` | app.py:226-247 | a sequence without repetitions has as many distinct elements as entries; this is used to count the columns |
| `Features.ColumnsComplete` | app.py:226-247 | the column list names every column, each at its own position |
| `Features.HalvesDisjoint` | app.py:226-247 | no column is both a user column and a fixed column |
| `Features.DefaultsCoverFixedColumns` | app.py:237-246 | the documented defaults are exactly the ten fixed columns |
| `Features.ColumnsPartitioned` | app.py:226-247 | every column is either a user column or a fixed column, never both, and it has a default exactly when it is fixed |
| `Features.ColumnsDistinct` | app.py:226-247 | neither half of the column list repeats a column |
| `Features.ColumnNamesDistinct` | app.py:226-247 | the twenty column names are pairwise different, so the table has twenty distinct keys |
| `Features.ColumnCount` | app.py:226-247 | the table has exactly twenty columns: ten user columns and ten fixed ones |
| `Features.Assemble` | app.py:226-247 | the ten user columns read back as the normalised values unchanged, and every fixed column holds its documented default (`adr` is `100.0`, `stays_in_week_nights` is 1, and the rest are 0) |
| `Features.DefaultsIndependentOfInput` | app.py:237-246 | the fixed columns are the same whatever the form says |
| `Features.AssembleInjective` | app.py:227-236 | two records are equal exactly when their user values are equal, so nothing of the input is lost |
| `Features.RecordOf` | app.py:226-236 | the record of a submission carries its numbers, month and country verbatim and its codes as normalised |
| `Features.RecordOfFormInput` | app.py:163-166 | for every legal submission, the numbers in the record stay within their widget bounds and every code is one of the listed codes |
| `Features.UpperBoundaryScenario` | app.py:163-166 | the largest numbers `500, 5, 5, 2` are accepted and reach the record unchanged |
| `Prediction.Outcome` | app.py:251-254 | label 1 gives the cancellation warning and every other label gives the confirmation (both directions) |
| `Prediction.OutcomeExclusive` | app.py:251-254 | exactly one of the two notices is chosen for any label |
| `Prediction.Submit` | app.py:249-254 | for any classifier, the warning is shown exactly when the classifier labels the submission's record 1, and the confirmation otherwise |
| `Prediction.SubmitDependsOnlyOnRecord` | app.py:249-254 | two submissions that normalise alike get the same notice from any classifier |

## Left out

- Page layout and display: page configuration, CSS, titles, dividers, the info box,
  the footer and widget rendering (app.py:6-150, 160-161, 257-260). These are user
  interface only.
- Model loading: `joblib.load` and the `st.cache_resource` singleton
  (app.py:153-157). This is file I/O and a foreign library.
- `model.predict` (app.py:249): an opaque pre-trained classifier. The model takes
  it as a parameter `predict`, and says nothing about which labels it returns.
- The button: a submission happens only when the button is pressed (app.py:225).
  The model describes what one submission computes, not when it happens.
- The pandas DataFrame: the one-row table is modelled as a record with one field
  per column, with its column names given by `Features.ColumnName`. Column order
  and pandas dtypes are not modelled.
- Floating point: `adr` is the real literal `100.0`, and only that it is fixed is
  proved.
- Streamlit widget behaviour: the number widgets are modelled only by their bounds
  and initial values (`BookingForm.Accepts`), and the drop-downs only by their
  option lists. How the widgets reject out-of-range entries is not modelled.
