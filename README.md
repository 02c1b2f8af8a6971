# Utility-bill calculator, modelled in Dafny

The program is a desktop calculator for a household's utility bill. The user
enters current readings of three meters: hot water, cold water and electricity.
It works out each meter's usage since the previous readings. It bills sewage
on the sum of hot and cold water. It prices every usage at a fixed tariff and
saves the result. The repository holds two variants of this core, and both
are modelled:

- `jkx_calculator.py` (module `JkxCalculator`, file `jkx_calculator.dfy`).
  The tariffs come from the configuration. The history file has eight
  columns: date, the three current readings, the three usages and the total.
  The previous readings are the current readings of the history's last row.
  The class `UtilityApp` holds the history file and `prev_values`.
- `main.py` (module `ValuesApp`, file `values_app.dfy`). The tariffs are fixed
  constants. The previous readings live in a separate values file, which each
  save overwrites. Each save also appends the readings to a history file.
  The class `UtilityFiles` holds both files.

Shared definitions are in `meters.dfy` (module `Meters`): what a text entry
parses to, the error kinds, the tariffs, the cost formula, rounding to
kopecks and the "no meter went backwards" check. `lines.dfy` (module
`LineText`) models the text layer of main.py's values file: writing one value
per line and reading it back with `str.splitlines`. `ValuesApp` stores the
values file as the readings it holds. `LineText.SplitWriteRoundTrip` proves
that the line layer returns exactly the tokens written. Python's `str`/`float`
conversion of each token round-trips too (see "## Left out"). Together these
justify modelling the file as a `seq<real>`.

Modelling choices:

- Readings are `seq<real>`, as the source's lists are. `any(... zip(curr, prev))`
  only compares the common prefix, and indexing a list that is too short is
  the `IndexError` case. Both are modelled, the second as `MissingReading`.
- Dates are integer seconds. `datetime.now()` becomes the parameter `now`.
- A text entry is `Entry`: `Empty`, `Number(v)` or `Malformed`. This is what
  `float()` makes of the field's text. jkx_calculator.py turns an empty
  entry into the previous reading (`e.get() or pv`). main.py rejects it,
  because `float('')` raises `ValueError`.
- A file is `Option<CsvFile<Row>>`, where `None` means the file does not exist.
  main.py's values file is `Option<seq<real>>`.
- `round(x, 2)` is `Meters.Round2`: the nearest hundredth of the exact value,
  with ties going to the even neighbour.

Nothing in the code rejects a negative reading, so the model accepts any
reading and only requires usage to be non-negative. The regression test
compares only as many meters as both lists have (`zip`).

## Model

| member | source | states |
|---|---|---|
| `Meters.UnroundedCost` | jkx_calculator.py:109-115 | the cost is hot·(hot tariff + sewage) + cold·(cold tariff + sewage) + elec·electricity, so each cubic metre of water is billed once more as sewage; the cost is non-negative when usages and tariffs are |
| `Meters.Round2` | jkx_calculator.py:116 | `round(x, 2)`: the result is a whole number of kopecks, within half a kopeck of x, non-negative for non-negative x, and even in kopecks on an exact tie |
| `Meters.Round2OfCents` | main.py:64 | rounding an amount that is already whole kopecks leaves it unchanged |
| `LineText.FirstBreak` | main.py:35 | the first line boundary that `splitlines` finds: no boundary comes before it |
| `LineText.SplitLines` | main.py:35 | `str.splitlines()`: no line holds a boundary character, and non-empty text has at least one line |
| `LineText.WriteLines` | main.py:40-42 | writing `f"{v}\n"` for each value gives empty text exactly when there are no values |
| `LineText.SplitFirstLine` | main.py:35 | a line ended by `\n` splits off the front of the text as one line |
| `LineText.SplitWriteRoundTrip` | main.py:33-42 | reading the values file back gives exactly the tokens written, in order |
| `LineText.InitialTextReadsAsThreeZeros` | main.py:23-25 | the text `"0.0\n0.0\n0.0"` of a new values file reads as three zero tokens |
| `JkxCalculator.Calculate` | jkx_calculator.py:99-116 | fails with a regression exactly when some current reading is below the previous one; on success, previous + usage = current for each meter, each usage ≥ 0, and the total is the rounded tariff cost (within half a kopeck, ≥ 0 under non-negative tariffs) |
| `JkxCalculator.ResolveEntries` | jkx_calculator.py:217 | fails exactly when some entry is malformed; otherwise one reading per entry, where an empty entry gives the previous value and a number gives itself |
| `JkxCalculator.Submit` | jkx_calculator.py:216-221 | on_calculate's try block fails exactly when an entry is malformed or a typed number is below its previous reading; an empty entry gives that meter zero usage |
| `JkxCalculator.LastReadings` | jkx_calculator.py:93-96 | always three readings, and three zeros for an empty history |
| `JkxCalculator.PeriodFromLabel` | jkx_calculator.py:263-265 | the four menu labels, and only they, name a period, and the period's label is the text that chose it |
| `JkxCalculator.Cutoff` | jkx_calculator.py:266 | the cutoff of a window lies before now |
| `JkxCalculator.UsageViewAppend` | jkx_calculator.py:267-268 | after a row is appended to the history, the history tab's rows are the earlier ones followed by the new row's date, usages and total |
| `JkxCalculator.KeepSince` | jkx_calculator.py:267-268 | keeps exactly the rows dated at or after the cutoff, and is never longer than the input |
| `JkxCalculator.FilterByPeriod` | jkx_calculator.py:263-272 | "Все" is the identity; any other period keeps exactly the rows dated at or after now minus its 90, 180 or 365 days, and is never longer than the input |
| `JkxCalculator.KeepSinceAppend` | jkx_calculator.py:267-268 | filtering keeps order: filtering a concatenation is the concatenation of the filtered parts |
| `JkxCalculator.KeepSinceAllRecent` | jkx_calculator.py:267-268 | a history whose rows are all in the window is shown whole |
| `JkxCalculator.KeepSinceNarrows` | jkx_calculator.py:267-268 | filtering by a later cutoff after an earlier one equals filtering by the later cutoff alone |
| `JkxCalculator.ShorterPeriodWithinLonger` | jkx_calculator.py:263-272 | the 3-month view equals the 6-month or 1-year view filtered again to 3 months |
| `JkxCalculator.UtilityApp.constructor` | jkx_calculator.py:129-131 | at start-up the history file exists (created empty with its header if missing) and `prev_values` are its last readings |
| `JkxCalculator.UtilityApp.InitFiles` | jkx_calculator.py:34-48 | creates the history file with the eight-column header only when it is missing; an existing file is left untouched |
| `JkxCalculator.UtilityApp.ReadHistory` | jkx_calculator.py:51-69 | returns eight columns as long as the history, whose i-th entries rebuild the i-th row, in file order |
| `JkxCalculator.UtilityApp.WriteNewValues` | jkx_calculator.py:71-86 | appends exactly one row (now, three current readings, three usages, total); the header and earlier rows are unchanged |
| `JkxCalculator.UtilityApp.GetLastReadings` | jkx_calculator.py:88-96 | returns the last row's three current readings, or three zeros when there is no row |
| `JkxCalculator.UtilityApp.OnCalculate` | jkx_calculator.py:215-241 | a rejected input leaves the history and `prev_values` unchanged; an accepted one appends exactly one row for it and sets `prev_values` to the current readings; `prev_values` always equal the last row's readings |
| `JkxCalculator.UtilityApp.ResetForm` | jkx_calculator.py:248-250 | reloading `prev_values` from the history leaves them unchanged, since they already match the last row |
| `JkxCalculator.UtilityApp.DrawHistory` | jkx_calculator.py:259-272 | the rows shown are the history's usage view filtered by the chosen period |
| `ValuesApp.Calculate` | main.py:49-65 | fails with a regression exactly when some current reading is below the previous one; on success, previous + usage = current for each meter, each usage ≥ 0, sewage = hot + cold, and the total is the rounded 186.37·hot + 41.00·cold + 28.10·sewage + 4.95·elec, never negative |
| `ValuesApp.ParseEntries` | main.py:108 | fails exactly when some entry is not a number, including an empty one; otherwise the numbers in order |
| `ValuesApp.Submit` | main.py:107-110 | on_calculate's try block fails exactly when an entry is not a number, a number is below its previous reading, or fewer than three readings are at hand; any empty entry is rejected |
| `ValuesApp.UtilityFiles.constructor` | main.py:68-69 | at start-up both files exist, created with three zeros and with the four-column header where missing |
| `ValuesApp.UtilityFiles.InitFiles` | main.py:21-30 | creates the values file with three zeros and the history file with its header only when each is missing; an existing file is never overwritten |
| `ValuesApp.UtilityFiles.ReadPreviousValues` | main.py:33-36 | returns exactly the readings the values file holds |
| `ValuesApp.UtilityFiles.WriteNewValues` | main.py:39-46 | the values file holds exactly the new readings (overwritten, not appended), and the history gains exactly one row (now, readings) with earlier rows unchanged |
| `ValuesApp.UtilityFiles.OnCalculate` | main.py:106-120 | a rejected input changes neither file; an accepted one leaves the parsed readings in the values file and appends one history row with them |

## Left out

- The desktop UI is not modelled: widgets, layout, window geometry, theme switching, tabs, clipboard and message boxes. In both files this is toolkit plumbing.
- Chart drawing in `_draw_history` is not modelled. It is done by a plotting library.
- Loading `config.json` is not modelled. Its coefficients are the `tariffs` argument of `UtilityApp`'s constructor.
- File paths, encodings, CSV delimiters and quoting are not modelled. Files are sequences of rows. The model assumes an existing jkx history file has the eight-column layout. A file in main.py's four-column layout would raise `KeyError` when read. The two variants share one history file name with incompatible layouts, and no migration is modelled.
- `_parse_date`'s date formats and `datetime.now()` are not modelled. They depend on library parsing and the clock. Dates are integer seconds, and `now` is a parameter.
- Conversions between floats and text are abstracted: `float()` of an entry becomes `Entry`, and `str(v)`/`float(line)` in the values file become the tokens of `LineText`. `str(float)` gives the shortest text that `float()` reads back as the same value. `validate_float` is a keystroke filter and is not modelled. Python floats also admit `nan` and `inf`, which reals do not.
- Binary floating point is not modelled. Arithmetic is exact on reals, and the tariff literals such as 186.37 are exact decimals.
- Round2: rounds the exact real value. Python's `round(x, 2)` rounds the nearest binary float, so a tie that is not exact in binary can go the other way.
- `on_show_previous` in main.py is not modelled. It only displays the values file's first three readings.
- ResetForm: does not model refilling the entry fields with the previous readings or re-enabling the buttons. Those are widget state.
- DrawHistory: returns the rows to list but does not model their text formatting.
- ValuesApp.UtilityFiles.WriteNewValues: requires both files to exist, as they do after `init_files`. It does not model appending to a history file that is missing, which Python would create without a header.
- ValuesApp.UtilityFiles.OnCalculate: a values file with fewer than three readings raises `IndexError`, which the handler does not catch. The model reports this as `Failure(MissingReading)` with both files unchanged. That matches the state the exception leaves behind.
- `setup.py` is packaging metadata and is not modelled.
