# Blevels session calculator in Dafny

This project models the per-bar session calculator `sethlement` of
`Blevels.js`, a charting indicator the host calls once per price bar, and
proves properties of that model.

- `init` parses an embedded text of `label, price` lines into an ordered
  level table. A line is kept only when it splits into exactly two
  comma-separated fields and its trimmed price field is read as a number by
  `parseFloat`.
- `map(d, i, history)` does four things on each bar:
  - On the New York Open (NYO) bar, whose clock equals `NYOHour:NYOMinute`,
    it records the open price, timestamp and index, clears the Initial
    Balance (IB) range and zeroes the VWAP sums.
  - On the bar one hour later (`(NYOHour + 1) % 24`, same minute), it scans
    backwards from the previous bar through `history`. It collects the run of
    bars at most 60 minutes older and takes their highest high and lowest low
    as the IB range.
  - It adds the bar's volume and volume × typical price to the anchored VWAP
    sums and computes the VWAP, which is absent unless the volume sum is
    positive.
  - On the last bar it builds the label list. The order is NYO, IBH and IBL,
    VWAP, then one label per level. It returns the list together with the
    VWAP value.

Files:
- `wrappers.dfy`: the `Option` type, which stands for JavaScript's
  `null`/`undefined`/`NaN`.
- `jstext.dfy`: the string built-ins the parser uses. These are `split` with
  a one-character separator, `trim`, `replace(/,/g, "")` and `parseFloat`.
  `parseFloat` skips whitespace, takes an optional sign, then reads the
  longest decimal literal, with digits, a point, digits and an exponent.
- `levels.dfy`: the level table, the `init` parsing loop
  (`Levels.ParseLevelText`), and the facts about the embedded text.
- `session.dfy`: the bar and label datatypes, the session clock, the IB
  lookback loop, the VWAP sums, the label pushes, and the class
  `Session.Sethlement`. The class has the source's mutable fields, with `Init`
  for `init` and `Map` for `map`.

Prices and sums are exact reals. Timestamps are integer milliseconds. The
host's `history.get(k)` is the sequence element at `k`; an index past the
end plays the part of a missing bar.

Facts about the code that shape the model:
- The NYO and IB bars are detected by exact equality of hour and minute.
- The IB is taken once, by a backward lookback on the IB bar; the open bar
  clears it.
- The VWAP accumulates from the first bar onward, before any open bar,
  because the source reads `(this.volumeSum || 0)`.

## Model

| member | source | states |
|---|---|---|
| JsText.Split | Blevels.js:20 | `split` yields one field more than there are separators, and no field contains the separator |
| JsText.JoinSplit | Blevels.js:20 | joining the fields of a split with the separator restores the original text |
| JsText.SplitJoin | Blevels.js:20 | splitting a join of separator-free fields gives back exactly those fields |
| JsText.SplitNoSeparator | Blevels.js:22 | a string without the separator splits into itself alone |
| JsText.SplitAfterField | Blevels.js:22 | a separator-free field followed by the separator splits off as the first field |
| JsText.CountAbsent | Blevels.js:22-23 | a string has zero separators exactly when the separator does not occur in it |
| JsText.TrimStart | Blevels.js:22 | the result is a suffix of the input; everything removed is whitespace, and the result does not start with whitespace |
| JsText.TrimEndIndex | Blevels.js:22 | the trailing whitespace run of a slice ends at the returned index, and the character just before it is not whitespace |
| JsText.Trim | Blevels.js:22 | `trim` returns a prefix of the leading-trimmed string with only whitespace dropped after it, and it neither starts nor ends with whitespace |
| JsText.RemoveCommas | Blevels.js:25 | `replace(/,/g, "")` leaves no comma |
| JsText.RemoveCommasNoop | Blevels.js:25 | on a comma-free string the replacement changes nothing, so it is a no-op after the comma split |
| JsText.DigitRun | Blevels.js:25 | the leading digit run is maximal: all digits, followed by a non-digit or the end |
| JsText.UnsignedValue | Blevels.js:25-26 | an unsigned literal is present exactly when the text starts with a digit or with a point and a digit, and its value is non-negative |
| JsText.ParseFloat | Blevels.js:25-26 | `parseFloat` yields a number (not NaN) exactly when, after whitespace and an optional sign, the text starts with a digit or a point and a digit |
| JsText.ParseFloatDecimal | Blevels.js:25 | a plain decimal `a.b` parses to the exact value of its digits |
| JsText.ParseFloatInteger | Blevels.js:25 | a plain digit string parses to its exact integer value |
| JsText.ParseFloatAt | Blevels.js:25 | a string of digits, a point and digits parses to its exact decimal value |
| JsText.UnsignedValueAt | Blevels.js:25 | the unsigned literal read from digits, a point and digits is the whole string |
| JsText.StartsDecimalDigit | Blevels.js:26 | a price field starting with a digit is not NaN |
| JsText.TrimLeadingBlank | Blevels.js:22 | trimming one leading blank before a non-blank starts the result at that non-blank |
| Levels.DefaultLevelText | Blevels.js:5-6 | the embedded level text: the 22 lines of `DefaultLevelLines`, in source order, joined by newlines |
| Levels.Fields | Blevels.js:22 | a line has one trimmed field more than it has commas |
| Levels.KeepSome | Blevels.js:21-29 | the parsing filter never yields more levels than lines |
| Levels.ParseLine | Blevels.js:22-28 | the level one line contributes: its trimmed first field and `parseFloat` of its comma-free trimmed second field when it has exactly two fields and that price is a number, nothing otherwise |
| Levels.ParseLevels | Blevels.js:21-29 | the level table of a list of lines: the levels of the kept lines, in line order |
| Levels.ParseLevelText | Blevels.js:19-30 | the `init` loop over the lines of a text yields exactly the filtered levels of its split lines, in line order |
| Levels.ParseLevelsStep | Blevels.js:21-29 | one more line appends that line's level if it is kept, and nothing otherwise |
| Levels.ParseLineKept | Blevels.js:22-28 | a line is kept if and only if it has exactly one comma and its trimmed second field starts like a number; the level is then the trimmed first field (comma-free, with no surrounding whitespace) and the parsed price |
| Levels.TrimNoComma | Blevels.js:22 | trimming a comma-free field keeps it comma-free |
| Levels.ParseLineNoComma | Blevels.js:22-23 | a line without a comma has one field and is skipped |
| Levels.ParseLineOf | Blevels.js:22-28 | `x,y` with comma-free parts gives the level (trim x, parseFloat of trim y) when that is a number, and nothing otherwise |
| Levels.KeepSomeAppend | Blevels.js:21-29 | parsing concatenated line lists concatenates their levels: order is kept and skipped lines add nothing |
| Levels.KeepSomeMembership | Blevels.js:21-29 | a level is in the table if and only if some line parses to it |
| Levels.KeepSomeAllPresent | Blevels.js:21-29 | when every line is kept, the k-th level is the k-th line's |
| Levels.LineKept | Blevels.js:22-27 | a `label, price` line whose price field is a blank and then a digit is kept |
| Levels.DefaultLevels | Blevels.js:5-6 | the embedded text yields 22 levels, the first being `PDH` at 24913.5 |
| Levels.DefaultLineKept | Blevels.js:6 | every line of the embedded text is kept and contains no newline |
| Levels.FirstDefaultLevel | Blevels.js:6 | the first line `PDH , 24913.5` parses to label `PDH` (trailing blank trimmed) at 24913.5 |
| Levels.FirstLabel | Blevels.js:22 | `"PDH "` trims to `"PDH"` |
| Levels.FirstPriceValue | Blevels.js:25 | `parseFloat("24913.5")` is exactly 24913.5 |
| Session.JsRemainder | Blevels.js:59 | JavaScript `%` differs from the dividend by a multiple of the divisor and lies in `[0, b)` for a non-negative dividend and in `(-b, 0]` for a negative one, which fixes it as `a - b * trunc(a / b)` |
| Session.IsNyoBar | Blevels.js:43 | the open bar: hour equals `NYOHour` and minute equals `NYOMinute` |
| Session.IbHour | Blevels.js:59 | the IB hour `(NYOHour + 1) % 24`, with JavaScript's remainder |
| Session.IsIbBar | Blevels.js:59 | the IB bar: hour equals the IB hour and minute equals `NYOMinute` |
| Session.NyoAndIbExclusive | Blevels.js:43-59 | no bar is both the open bar and the IB bar, for any configured open hour |
| Session.WithinLookback | Blevels.js:71-74 | a bar is collected when `(t - timestamp) / 60000 <= 60` |
| Session.WithinLookbackMillis | Blevels.js:71-74 | `delta <= 60` minutes holds exactly when the bar is at most 3,600,000 ms older |
| Session.IbRunLength | Blevels.js:65-79 | the scan takes at most `i` bars, all before index `i`, all present and within the lookback, and stops at index 0, a missing bar or the first bar too old |
| Session.IbWindow | Blevels.js:61-79 | the bars the lookback collects: the run counted by `IbRunLength`, newest first |
| Session.CollectIbBars | Blevels.js:61-79 | the lookback loop collects exactly the maximal run of preceding bars within the hour, newest first |
| Session.MaxHigh | Blevels.js:86 | `Math.max` of the highs bounds every high and is one of them |
| Session.MinLow | Blevels.js:87 | `Math.min` of the lows is below every low and is one of them |
| Session.IbRangeOrdered | Blevels.js:85-88 | over bars with low ≤ high, the IB low does not exceed the IB high |
| Session.TypicalPrice | Blevels.js:95 | the typical price `(high + low + close) / 3` |
| Session.Vwap | Blevels.js:101-104 | the VWAP is absent exactly when the volume sum is not positive, and otherwise times the volume sum equals the price-weighted sum |
| Session.SumsAppend | Blevels.js:98-99 | the running sums are additive over consecutive runs of bars |
| Session.ZeroVolumeNoVwap | Blevels.js:98-104 | over bars that all have zero volume the sums stay zero and the VWAP is absent |
| Session.SumWeightedBounds | Blevels.js:98-99 | with non-negative volumes, the weighted sum lies between the lowest and highest typical price times the volume |
| Session.VwapWithinTypicalRange | Blevels.js:94-104 | with non-negative volumes and a positive total, the VWAP lies within the range of the typical prices |
| Session.Truthy | Blevels.js:131 | JavaScript truthiness of an IB price: set and not zero |
| Session.NyoItems | Blevels.js:112-129 | the NYO label when `nyoPrice` is set, ten bars right at the NYO price |
| Session.IbItems | Blevels.js:131-152 | the IBH then IBL labels when both IB prices are truthy |
| Session.VwapItems | Blevels.js:156-166 | the VWAP label when the VWAP is present |
| Session.Labels | Blevels.js:110-189 | the last bar's label list: NYO, IB and VWAP labels at `index + 10`, then one label per level at `index + LabelOffset` |
| Session.LevelItems | Blevels.js:172-189 | one static label per level |
| Session.LevelItemsAt | Blevels.js:172-189 | the k-th static label carries the k-th level's name and price at the level offset |
| Session.LevelItemsStep | Blevels.js:172-189 | one more level appends exactly that level's label |
| Session.LabelsLength | Blevels.js:110-189 | the label count is 1 for a set NYO price, 2 when both IB prices are truthy, 1 for a present VWAP, plus one per level |
| Session.LabelsSessionOrder | Blevels.js:112-166 | NYO comes first, then IBH and IBL, then the VWAP, each ten bars right of the current bar at its own price |
| Session.LabelsLevelsLast | Blevels.js:172-189 | the static levels close the list in level order, at `index + LabelOffset` |
| Session.EmitSessionLabels | Blevels.js:112-166 | the NYO, IB and VWAP pushes give the conditional session labels in order |
| Session.EmitLabels | Blevels.js:110-189 | the last-bar pushes, including the loop over the levels, build exactly the specified label list |
| Session.Sethlement.Valid | Blevels.js:98-99 | the class invariant: both IB prices are set or neither is, and the two sums are the volume and weighted sums of the bars accumulated since the last open reset |
| Session.Sethlement.Init | Blevels.js:10-31 | after `init` there is no NYO price and no IB, the sums are zero, and the level table is the parse of the embedded text |
| Session.Sethlement.Map | Blevels.js:34-197 | the effect of one bar: the NYO fields change exactly on the open bar; the IB is cleared on the open bar, set to the lookback's max/min on the IB bar when the run is non-empty, and otherwise kept; the IB stays ordered over well-formed bars; each sum grows by this bar's share, from zero on the open bar; `vwapLine` is the VWAP of the new sums; items are empty unless this is the last bar |
| Session.Sethlement.ResetAtOpen | Blevels.js:43-55 | the open bar sets the anchor to its open price, timestamp and index, clears the IB and zeroes the sums |
| Session.Sethlement.CaptureIb | Blevels.js:59-89 | the IB bar sets the range to the max high and min low of the lookback run, or leaves it unchanged when the run is empty |
| Session.Sethlement.Accumulate | Blevels.js:94-104 | the bar's volume and volume × typical price are added to the sums, and the returned VWAP is that of the new sums |

## Left out

- FZ.js is not part of this model. It is a thin wrapper around an EMA helper whose source is not available, plus style configuration.
- The module export block (Blevels.js:201-220) is not modelled. It holds only parameter declarations, plotter and style registration, with no logic.
- Graphics helpers `du`/`px` and label presentation are not modelled. This covers the tag, key, text, font, colour, alignment and `global` flag. A label keeps only its kind, its bar position and its price.
- Number-to-string formatting (template literals, `toFixed(2)`) is not modelled. It only feeds the label text and keys.
- Floating point is not modelled: prices, sums, the typical price and the VWAP division are exact reals, with no rounding, overflow or Infinity.
- JsText.ParseFloat: the `Infinity` literal and digit strings beyond double range are not modelled, because the embedded table has neither.
- `Date.getHours`/`getMinutes` and the time zone are not modelled. The bar carries its local `hour` and `minute` next to its millisecond `timestamp`.
- Session.Sethlement.Init: `init` leaves `nyoTimestamp`, `nyoIndex` and the two sums undefined. The model starts them at `None` and `0.0`, which is what `map` reads through `(this.volumeSum || 0)`.
- Session.Sethlement.Init: the host's assignment of `props` before `init` is folded into the constructor's parameter.
- `levels` is a constant field. Only `init` assigns it, and `map` never changes it.
- The embedded text is written as its 22 lines joined by newlines, which is the same string as the source literal.
- Session.Sethlement.Map: `NYOHour`, `NYOMinute` and `LabelOffset` are taken to be integers. JavaScript coercion of non-numeric parameters is not modelled.
