# Weather report formatter, modelled in Dafny

`weather.py` turns a table of daily weather records (an ISO date, the day's
low and the day's high in degrees Fahrenheit) into two plain-text reports:

- an **overview** (`generate_summary`): the number of days, the lowest low
  and the day it falls on, the highest high and its day, and the mean low and
  mean high, each converted to Celsius and suffixed with `°C`;
- a **daily summary** (`generate_daily_summary`): one four-line block per
  day, in table order, giving the date, the minimum and the maximum.

Both rest on a few small helpers: `find_min` / `find_max`, which return the
extreme value together with the index of its *last* occurrence (or the empty
tuple for an empty list), `calculate_mean`, and `format_temperature`, which
appends the degree symbol.

The Dafny project is split the way the program's concerns are:

| file | module | contents |
|---|---|---|
| `wrappers.dfy` | `Wrappers` | `Option` (with `None` standing for Python's `()`) and `Result` |
| `errors.dfy` | `Errors` | the Python exceptions the core can raise, as values |
| `text.dfy` | `Text` | the decimal text an f-string gives a non-negative `int`, line construction, joining, and newline counting |
| `temperature.dfy` | `Temperature` | `DEGREE_SYMBOL`, `format_temperature` and its inverse, the Fahrenheit-to-Celsius formula |
| `reducers.dfy` | `Reducers` | `find_min`, `find_max` (loop methods, as in the source) against the reference functions `LastMin` / `LastMax`; `calculate_mean` |
| `reports.dfy` | `Reports` | `generate_summary` and `generate_daily_summary` (loop methods, as in the source) against the functions `OverviewText` / `DailyText`, and the properties of those texts |

The behaviour of the collaborators that belong to Python's libraries
(`convert_date`, which parses and reformats a date with `datetime`;
`convert_f_to_c`, which rounds a float; and the text an f-string gives a
float) is not modelled: the reports take them as three given functions in a
`Collaborators` value. Every statement about the reports holds for every
choice of those functions; the line-count statements additionally assume
that none of them produces a line break (`Reports.SingleLine`).

The records' temperatures are modelled as `int`, which is what the CSV
loader produces; `find_min`, `find_max` and `calculate_mean` convert them to
float, which for integers of magnitude at most 2^53 changes no comparison
and no equality. Means are computed on exact reals.

Two behaviours of the code are modelled exactly as written:

- `generate_summary` recomputes minimum, maximum, means and dates on every
  pass over a growing prefix of the table. The method keeps that loop; its
  contract shows that only the last pass, over the whole table, decides the
  text. This rests on `convert_date` being a total function in the model:
  in the source an earlier pass can already raise on the date of a prefix's
  running extreme, even when the final overview never prints that date.
- `generate_summary` on an empty table never binds `min_temp` and raises
  `UnboundLocalError` in its final f-string; `calculate_mean([])` raises
  `ZeroDivisionError`. Both are modelled as `Failure` results.
  `generate_daily_summary` on an empty table returns the empty string.

## Model

| member | source | states |
|---|---|---|
| Reducers.LastMin | weather.py:79-116 | `None` exactly for the empty list; otherwise the value is a minimum of the list, sits at the returned index, and no later index holds it (last occurrence on ties) |
| Reducers.LastMax | weather.py:120-154 | `None` exactly for the empty list; otherwise the value is a maximum of the list, sits at the returned index, and no later index holds it |
| Reducers.FindMin | weather.py:92-116 | the scan with `min_value` and `last_index` returns `()` for the empty list and otherwise the minimum and the index of its last occurrence, equal to `LastMin` |
| Reducers.FindMax | weather.py:130-154 | the scan with `max_value` and `last_index` returns `()` for the empty list and otherwise the maximum and the index of its last occurrence, equal to `LastMax` |
| Reducers.LastMinUnique | weather.py:85 | any value and index meeting the "minimum, last occurrence" description is what `find_min` returns: the description determines the result |
| Reducers.LastMaxUnique | weather.py:126 | any value and index meeting the "maximum, last occurrence" description is what `find_max` returns |
| Reducers.ReducersExample | weather.py:117 | on `[49, 57, 56, 55, 53, 49]` the minimum is 49 at index 5 (the last of two) and the maximum 57 at index 1 |
| Reducers.Mean | weather.py:48-57 | fails with `ZeroDivisionError` exactly on the empty list; otherwise the mean times the length is the sum |
| Reducers.MeanWithinExtremes | weather.py:56 | the mean of a non-empty list lies between its minimum and its maximum |
| Temperature.FormatTemperature | weather.py:4-17 | the result is the given text followed by the degree sign and `C`, nothing else |
| Temperature.FormatTemperatureRoundTrip | weather.py:17 | stripping the suffix from a formatted temperature gives the temperature back |
| Temperature.StripDegreeSymbolRoundTrip | weather.py:17 | every text ending in `°C` is the formatting of what precedes it |
| Temperature.FormatTemperatureInjective | weather.py:17 | distinct temperature texts give distinct formatted texts |
| Temperature.FahrenheitToCelsius | weather.py:43 | the unrounded Celsius value converts back to the Fahrenheit input, and is below zero exactly when the input is below 32 |
| Text.NatToDecimal | weather.py:180 | the day count renders as a non-empty run of decimal digits without a leading zero |
| Text.DecimalRoundTrip | weather.py:180 | reading the rendered digits back gives the day count |
| Text.NatToDecimalInjective | weather.py:180 | distinct day counts give distinct header texts |
| Reports.GenerateSummary | weather.py:158-185 | on an empty table the result is `UnboundLocalError`; otherwise the loop over growing prefixes yields the overview of the whole table |
| Reports.OverviewMeaning | weather.py:170-185 | the overview reports the table's least low and the date of its last occurrence, its greatest high and the date of its last occurrence, and the column sums divided by the record count |
| Reports.OverviewLinesShape | weather.py:179-185 | the five-line layout opens with the header and ends in a newline, and is five lines when its fields hold no line break |
| Reports.OverviewShape | weather.py:179-185 | the overview of N records opens with `"{N} Day Overview\n"`, ends in a newline, and has exactly five lines when no collaborator text breaks a line |
| Reports.GenerateDailySummary | weather.py:201-226 | the output is the records' blocks joined in table order (the empty string for an empty table) |
| Reports.DailyTextAppend | weather.py:216-225 | the daily summary of two tables one after the other is the first's followed by the second's |
| Reports.DailyTextBlockAt | weather.py:216-225 | record i's block sits exactly between the summary of the records before it and that of the records after it |
| Reports.DailyBlockLines | weather.py:225 | one record's block is four lines: heading, minimum, maximum and a blank line |
| Reports.DailyLineCount | weather.py:216-226 | the daily summary of N records has exactly 4N lines when no collaborator text breaks a line |

## Left out

- `load_data_from_csv` (weather.py:60-76): file I/O and the `csv` module; the model starts from the table it yields, with integer temperatures.
- `convert_date` (weather.py:21-32): date parsing and `strftime` belong to `datetime`; the reports take it as a given function, so the `ValueError` an invalid ISO date raises is not modelled. For `generate_summary` this also means that the error an earlier pass raises on the date of a prefix's running minimum or maximum (weather.py:177-178), a date the final text may not print, is not modelled.
- `convert_f_to_c` (weather.py:35-45): float arithmetic and `round(_, 1)` are not modelled; the reports take it as a given function, and `Temperature.FahrenheitToCelsius` states only the unrounded formula on exact reals. It stands alone: nothing in the model ties the given conversion of the reports to it.
- The text an f-string gives a float is a given function of the reports; only the decimal text of the `int` day count is modelled.
- Reducers.FindMin: takes integer lists; the `float()` conversion of number-like strings and of floats, and float comparison (`NaN`), are not modelled. Integers of magnitude above 2^53 are compared exactly, whereas `float()` can merge two of them (on `[9007199254740992, 9007199254740993]` the source returns index 1, the model index 0), and the `OverflowError` `float()` raises on integers beyond the float range is not modelled.
- Reducers.FindMax: takes integer lists, for the same reason as `FindMin`, with the same exact comparison above 2^53 and no `OverflowError`.
- Reducers.Mean: the mean is exact; floating-point rounding of the conversion, the sum and the division, and the `OverflowError` of `float()` on integers beyond the float range, are not modelled.
- Reports.GenerateDailySummary: `.strip()` on each formatted temperature is taken as the identity; the text of a float and the degree suffix have no surrounding whitespace, and Unicode whitespace is not modelled.
- Reports.GenerateSummary: the `ValueError` that unpacking `()` would raise cannot occur, since both lists are non-empty when `find_min` and `find_max` are called; the model shows this instead of modelling the error.
- The commented-out loops and the module-level comments of weather.py are not part of this model.
