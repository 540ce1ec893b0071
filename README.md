# shotz_plotz in Dafny

A model of the two functions that do the work in `shotz_plotz.py`, the
script that plots DE1+ espresso shot files:

- `process_data` turns the lines of a shot file into `labels` and `values`.
  A line is kept when it contains `{`, still holds a token after its braces
  are removed and it is split on whitespace, and starts with one of the seven
  channel names. Its first token becomes a label, and the remaining tokens go
  through `float` to become a row of samples.
- `data_plot` divides `values[2]` and the last two rows of `values` by 10
  in place. In a seven-channel shot these are the weight row and the two
  temperature rows. It then plots pressure, flow and flow weight
  against elapsed time, each cut to the shorter of the two rows, and sets the
  y axis to `0 .. ceil(vmax)`.

Files:

- `wrappers.dfy`: `Option` and `Result`.
- `py_text.dfy` (module `PyText`): the Python string operations the parser
  uses.
  - `str.replace(ch, '')` is `Erase`.
  - `str.split()` is `Split`. It splits on runs of the characters for which
    `str.isspace()` holds.
  - `Unwords` writes tokens back, separated by single spaces. It is the
    partner against which `Split` is proved.
- `py_float.dfy` (module `PyFloat`): Python's `float()` on decimal literals,
  as a partial function into the reals. It returns `None` where `float`
  raises `ValueError`, and also on the literals Python accepts that the
  model leaves out (listed under "Left out").
- `extractor.dfy` (module `Extractor`): `process_data`.
  - `ProcessData` is a method with the source's two loops.
  - It is proved equal to the specification function `ProcessDataSpec`.
  - The lemmas about filtering, order, shape and failure are stated on
    `ProcessDataSpec`.
  - `float` is a parameter of type `Converter`, so every property holds for
    any conversion. `PyFloat.ParseFloat` is the conversion Python uses.
  - `FormatLine` writes `{name v1 ... vn}` lines, each ending in the newline
    `readlines()` keeps. It is the partner of the line filter in the
    round-trip lemmas.
- `plotter.dfy` (module `Plotter`): `data_plot`.
  - `values` is a `ShotValues` object whose `rows` field the method changes
    in place.
  - matplotlib is a `Figure` object that records every `plt.plot` call as a
    `Series` and the last `plt.ylim` call as a `YRange`.
  - Python's `IndexError` and `ValueError` are the `PlotError` results.
  - When an error is raised, the rows already divided and the series already
    plotted stay as they are, as they do in Python.
  - `DataPlot` is proved against the specification function `DataPlotRun`.
- `scenario.dfy` (module `Scenario`): one complete shot file taken through
  both functions, plus a line naming an unknown channel and a sample that is
  not a number.

`data_plot` is written as two helper methods, one per phase:
`ScaleTemperaturesAndWeight` covers lines 67-71 and `PlotPressureAndFlows`
covers lines 80-86. `DataPlot` calls both. `process_data` likewise calls
`FilterLines` and `ConvertData`, one per loop.

## Model

| member | source | states |
|---|---|---|
| PyText.Erase | shotz_plotz.py:31-32 | removing a brace leaves no such brace and never lengthens the line |
| PyText.EraseKeepsOthers | shotz_plotz.py:31-32 | every other character of the line survives brace removal, and no new one appears |
| PyText.EraseAppend | shotz_plotz.py:31-32 | `replace` works piecewise: erasing from `a + b` is erasing from `a` then from `b` |
| PyText.EraseAbsent | shotz_plotz.py:31-32 | erasing a character the line does not contain leaves it unchanged |
| PyText.Split | shotz_plotz.py:33 | every piece `split()` returns is non-empty and holds no whitespace |
| PyText.SplitTokensFromText | shotz_plotz.py:33 | every character of every piece occurs in the split string |
| PyText.SplitKeepsText | shotz_plotz.py:33 | the pieces, laid end to end, are exactly the string's non-whitespace characters in order |
| PyText.SplitEmptyIff | shotz_plotz.py:33-34 | `split()` returns no pieces exactly when the string is all whitespace |
| PyText.SplitUnwords | shotz_plotz.py:33 | splitting tokens that were joined with single spaces gives back exactly those tokens |
| PyText.SplitUnwordsThen | shotz_plotz.py:33 | the same with trailing text that starts with whitespace, such as a line's newline: its tokens follow, and a bare newline adds none |
| PyFloat.ParseFloat | shotz_plotz.py:44 | `float` accepts only non-empty tokens made of digits, signs, `.`, `e` and `E` |
| PyFloat.ParseDigits | shotz_plotz.py:44 | a run of digits converts to the natural number it spells |
| PyFloat.ParseNatRoundTrip | shotz_plotz.py:44 | `float(str(n)) == n` for every natural number `n` |
| PyFloat.ParseFixedPoint | shotz_plotz.py:44 | `float("w.f")` is the decimal `w + f / 10^len(f)` |
| PyFloat.ParseScientific | shotz_plotz.py:44 | `float("<digits>e<digits>")` is the mantissa scaled by ten to the power of the exponent |
| PyFloat.ParseNegated | shotz_plotz.py:44 | a leading `-` negates the value, and the token is rejected exactly when the unsigned token is |
| Extractor.LineRow | shotz_plotz.py:29-38 | a line that yields a row yields a non-empty one that starts with a channel name |
| Extractor.KeptRows | shotz_plotz.py:28-38 | there is at most one row per line, and every row is non-empty and starts with a channel name |
| Extractor.KeptRowsAppend | shotz_plotz.py:28-38 | the rows of two files laid end to end are the rows of the first followed by the rows of the second |
| Extractor.KeptRowsSingle | shotz_plotz.py:28-38 | a one-line file yields that line's row, or nothing if the line is skipped |
| Extractor.LineRowTokens | shotz_plotz.py:30-35 | a kept line contains `{`, and its tokens are non-empty, have no whitespace or braces, and take their characters from the line |
| Extractor.KeptRowsAreDataRows | shotz_plotz.py:31-38 | every stored row is a channel name followed by tokens without braces or whitespace |
| Extractor.DroppedLineIsIgnored | shotz_plotz.py:30-35 | a line without `{`, or blank once its braces are gone, or not starting with a channel name, can be removed without changing the rows |
| Extractor.FormattedLineIsKept | shotz_plotz.py:30-38 | a line that passes the three checks contributes exactly its split tokens |
| Extractor.HeadersAreTokens | shotz_plotz.py:26 | the seven channel names are whitespace-free and brace-free tokens |
| Extractor.StripBraces | shotz_plotz.py:31-32 | removing `{` and then `}` from `{body}` and its newline gives back the brace-free body and the newline |
| Extractor.FormattedLineTokens | shotz_plotz.py:31-33 | the line `{name v1 ... vn}` with its newline, as `readlines()` returns it, contains `{` and splits into exactly `name, v1, ..., vn` |
| Extractor.FormattedLineRoundTrip | shotz_plotz.py:30-38 | that line with a channel name is kept, and its row is exactly `[name, v1, ..., vn]` |
| Extractor.UnknownChannelIsDropped | shotz_plotz.py:35 | a well-formed line whose first word is not a channel name yields no row |
| Extractor.DataRowRoundTrip | shotz_plotz.py:30-38 | a stored row written back as a line is read back as the same row |
| Extractor.FormattedShotRoundTrip | shotz_plotz.py:28-38 | a file written from stored rows, one line each, is read back as exactly those rows |
| Extractor.KeptPositionsIncrease | shotz_plotz.py:28-38 | the positions of the kept lines are line indices in strictly increasing order |
| Extractor.KeptRowsAtPositions | shotz_plotz.py:28-38 | row k is the row of the line at the k-th kept position |
| Extractor.KeptPositionsComplete | shotz_plotz.py:28-38 | every line the filter accepts is among the kept positions |
| Extractor.KeptRowsInLineOrder | shotz_plotz.py:28-38 | rows follow the order of their lines, one per accepted line and none from skipped ones |
| Extractor.Labels | shotz_plotz.py:41 | `[row[0] for row in data]` has one label per stored row, and label k is row k's first token |
| Extractor.ConvertRow | shotz_plotz.py:44 | `[float(c) for c in r[1:]]` succeeds exactly when every token converts, and then gives one value per token, in order; otherwise it fails on the first token that does not convert |
| Extractor.ConvertRowOf | shotz_plotz.py:44 | when every token converts to a given value, the row converts to exactly those values |
| Extractor.ConvertRows | shotz_plotz.py:42-44 | on success there is one value row per stored row |
| Extractor.ConvertRowsSucceedsIff | shotz_plotz.py:42-44 | the second loop succeeds exactly when every row converts |
| Extractor.ConvertRowsValues | shotz_plotz.py:42-44 | on success, value row k is row k's tokens after the name, converted |
| Extractor.ConvertRowsFailure | shotz_plotz.py:42-44 | on failure, the reported token is the one some row failed on |
| Extractor.ConvertRowsFailureToken | shotz_plotz.py:44 | on failure, the reported token is a non-numeric token after some row's channel name |
| Extractor.ConvertRowsFailsIff | shotz_plotz.py:42-44 | the second loop fails exactly when some token after a channel name is not a number |
| Extractor.ConvertRowsOf | shotz_plotz.py:42-44 | when every row converts to a given value row, the loop returns exactly those value rows |
| Extractor.ConvertRowsFailurePersists | shotz_plotz.py:42-44 | once a row fails to convert, the rows after it cannot change the outcome, because the exception ends the loop |
| Extractor.FilterLines | shotz_plotz.py:27-38 | the first loop builds exactly the stored rows of the file |
| Extractor.ConvertData | shotz_plotz.py:42-44 | the second loop returns exactly the converted rows, or the first failure |
| Extractor.ProcessDataSpec | shotz_plotz.py:22-45 | the value `process_data` returns: on success one label and one value row per kept line, every label a channel name |
| Extractor.ProcessData | shotz_plotz.py:22-45 | `process_data` returns the specified labels and values or error; on success there is one label and one value row per kept line, and every label is a channel name |
| Extractor.LabelsAreHeaders | shotz_plotz.py:35-41 | there are as many labels as value rows and kept lines, and label k is a channel name and the first token of kept line k |
| Extractor.ProcessDataFailsIff | shotz_plotz.py:42-45 | the call fails exactly when some sample token is not a number, and returns only that token, with no partial result |
| Extractor.ValuesAreConvertedTokens | shotz_plotz.py:42-44 | value row k has one sample per token after kept row k's channel name (none for a line holding only the name), and sample j is `float` of token j + 1 |
| Extractor.FormattedShotProcesses | shotz_plotz.py:22-45 | a file written from data rows whose samples all convert yields those rows' names and exactly the converted samples |
| Plotter.Figure.Plot | shotz_plotz.py:83 | `plt.plot` appends one series and leaves the y range alone |
| Plotter.Figure.SetYLim | shotz_plotz.py:86 | `plt.ylim` replaces the y range and leaves the series alone |
| Plotter.PyIndex | shotz_plotz.py:67-71 | `values[i]` exists exactly for `-n <= i < n`, and names element `i` or `n + i` |
| Plotter.SeqMax | shotz_plotz.py:85 | `max` of a non-empty list is one of its elements, and no element exceeds it |
| Plotter.Ceil | shotz_plotz.py:86 | `math.ceil(x)` is the integer `c` with `x <= c < x + 1` |
| Plotter.Scaled | shotz_plotz.py:67-71 | a scaled row has the same length, and ten times each new entry is the old entry |
| Plotter.DivideRow | shotz_plotz.py:67-71 | dividing `values[i]` goes through exactly when `-n <= i < n`, and then scales row `i` or `n + i` and leaves every other row as it was |
| Plotter.ScaleRows | shotz_plotz.py:66-71 | the three divisions all go through exactly when there are at least three rows, and no row changes length |
| Plotter.DivideRowBy10 | shotz_plotz.py:67 | `for c in range(len(values[i])): values[i][c] /= 10` divides the row `values[i]` names and no other, or raises and changes nothing |
| Plotter.ScaleTemperaturesAndWeight | shotz_plotz.py:66-71 | the rows become those after dividing `values[-1]`, `values[-2]` and `values[2]` in that order, stopping at the first index that raises |
| Plotter.PlotPressureAndFlows | shotz_plotz.py:80-86 | the figure gains the plotting loop's series, and the y range is set to `0 .. ceil(vmax)` only when the loop finishes |
| Plotter.PlotChannels | shotz_plotz.py:80-85 | the loop plots at most one series per channel, and when it finishes it has plotted one per channel and `vmax` is not negative |
| Plotter.DataPlotRun | shotz_plotz.py:63-86 | a call keeps the number and lengths of the rows, plots at most three series, and on success plots all three and returns a non-negative y top |
| Plotter.DataPlot | shotz_plotz.py:63-86 | the rows, the series added, the error raised and the y range are those the specification gives for the old rows |
| Plotter.PlotFailurePersists | shotz_plotz.py:81-85 | once the plotting loop has raised, the remaining channels change nothing |
| Plotter.ScalingOfCompleteShot | shotz_plotz.py:67-71 | with five or more rows, rows 2, n-2 and n-1 are each divided by 10 exactly once, every other row is unchanged, and no length changes |
| Plotter.ShortShotDividesRowTwoTwice | shotz_plotz.py:67-85 | with three or four rows, row 2 is also `values[-1]` or `values[-2]`, so it is divided by 100 before the plot loop raises |
| Plotter.TinyShotPlotsNothing | shotz_plotz.py:67-68 | with fewer than three rows the scaling raises `IndexError` before anything is plotted |
| Plotter.PlotLoopUnrolled | shotz_plotz.py:80-85 | with five or more rows, the loop over `(1, 3, 4)` plots pressure, then flow, then flow weight, raising at the first empty prefix; otherwise `vmax` is the maximum of 0 and the three prefix maxima |
| Plotter.DataPlotSucceedsIff | shotz_plotz.py:67-85 | `data_plot` returns normally exactly when there are five or more rows and rows 0, 1, 3 and 4 are non-empty |
| Plotter.PlottedSeriesAreAligned | shotz_plotz.py:80-83 | every series pairs `values[0][0:vlen]` with `values[i][0:vlen]`, where `vlen = min(tlen, len(values[i]))` and both have that length |
| Plotter.RunningMaxBounds | shotz_plotz.py:80-85 | `vmax` is never negative, bounds every plotted y value, and is 0 or one of those values |
| Plotter.YLimitCoversPlot | shotz_plotz.py:80-86 | the y top is a non-negative integer that no plotted value exceeds, and it is 0 or some plotted value lies above top - 1 |
| Plotter.CompleteShotPlotsThreeChannels | shotz_plotz.py:80-83 | a complete shot plots exactly pressure, flow and flow weight, in that order, each as aligned prefixes of the scaled rows |
| Scenario.ShotFileProcesses | shotz_plotz.py:22-45 | for any `float` that reads its samples, the example shot file gives the seven channel names and its samples as written |
| Scenario.ShotFileParses | shotz_plotz.py:22-45 | with Python's `float`, the example shot file gives the seven channel names and its samples as written |
| Scenario.UnknownChannelLineIsSkipped | shotz_plotz.py:35 | appending the line `{unknown_channel 1 2 3}` to the file changes nothing |
| Scenario.BadTokenFailsWith | shotz_plotz.py:44 | with the pressure line `{espresso_pressure 0.0 abc 6.0}`, any `float` that reads the shot's other samples and rejects `abc` makes the call fail naming `abc` |
| Scenario.BadTokenFails | shotz_plotz.py:44 | with Python's `float`, that file fails naming `abc` |
| Scenario.ShotPlot | shotz_plotz.py:63-86 | on the example shot, pressure stays `[0, 3, 6]`, weight becomes `[0, 0.1, 0.2]`, basket temperature becomes `[90, 90.1, 90.2]`, the three series are plotted, and the y top is 6 |

## Left out

- matplotlib itself. `plt.plot` and `plt.ylim` are `Figure.Plot` and `Figure.SetYLim`. Nothing is drawn. `grid`, `title`, `legend`, `xlabel`, `ylabel` and `show` (lines 108-115) are not modelled.
- The `legend` and `colors` tuples (lines 78-79). They are display constants. A `Series` records the channel index that selects the colour instead of the colour itself.
- The unused `labels` parameter of `data_plot`. `DataPlot` does not take it.
- `get_shot_data` (lines 47-61). It reads the file, so `ProcessData` takes the lines as a parameter. The `IOError` branch is I/O.
- `main` (lines 88-118). It handles `sys.argv`, `glob`, `print` and the module-level call. The one thing it shows about the model: each file's `data_plot` call replaces the y range of the previous file, and `Figure.SetYLim` states that replacement.
- IEEE-754 floating point. Samples are reals, so `/ 10` is exact division and `max` and `ceil` are exact.
- PyFloat.ParseFloat: accepts only decimal literals `[+|-](digits[.digits] | .digits)[(e|E)[+|-]digits]`. Python's `float` also accepts `inf`, `nan` and `infinity` in any case, digits separated by `_`, and the decimal digits of other scripts (Unicode category Nd, such as `٣` or the full-width `３`). The model reports those as not a number.
- Extractor.ProcessData: takes `float` as a parameter of type `Converter`. Every property holds for any conversion. The scenario instantiates it with `PyFloat.ParseFloat`.
- Aliasing between rows of `values`. Python builds each row as a new list, so no two rows share storage, and `ShotValues` keeps the rows as one `seq` of sequences.
