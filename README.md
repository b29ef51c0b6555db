# Earnings dashboard generators, modelled in Dafny

The dashboard shows mock earnings. Two of its screens build their data with
small generators, and this project models those generators:

- The summary page (`app/filtro/page.tsx`) builds a fourteen-day series.
  Each day gets an earning shaped by a fixed pattern of factors and a little
  random jitter. Each record carries the running total. After the loop, the
  last record is reconciled so that the series ends exactly at a randomly
  chosen target between 26,000,000 and 26,999,998.
- The same page draws the running totals as a line chart in a 100 x 60 view
  box, and shows the total.
- The transaction list (`components/HistorialGanhos.tsx`) builds entries with
  ids `ganho-<index>`, the date "Hoy", an `HH:MM` time stepping back about two
  minutes per entry, and an amount between 10,000 and 80,998.
- Amounts are shown in Chilean pesos: "$" and the digits with a "." between
  groups of three.

Modules:

- `Draws` makes the random source explicit. Every `Math.random()` call becomes
  a real in [0, 1) that the caller supplies, in the order the source draws
  them.
- `Digits` models `toString` of a non-negative integer and `padStart(2, '0')`.
- `Currency` models `formatearCLP`. The source has two identical copies.
  `RegexSeparated` models the regular expression read left to right, and is
  proved equal to the right-to-left grouping `Grouped`.
- `Series` models `generarDatos14Dias`. The method `GenerateSeries` keeps the
  source's loop and its in-place update of the last record. It is proved
  equal to the specification function `Generated`, and the lemmas state what
  the series promises.
- `Chart` models the point and path computation of `GraficoLinea`.
- `History` models `generarNumeroAleatorio`, `generarHorarios` and
  `generarDatosMock`. The two generators are methods with loops, proved
  against functions of their draws.

One might expect the running total never to fall and no daily earning to be
negative. The code does not promise this for the last day. When the first
thirteen days already pass the target, the reconciliation moves the
difference into the last earning, which can make that earning negative and
the last running total fall. `Series.LastDayCanFall` exhibits such draws. The
model follows the code. `Series.SmallDifferenceKeepsRising` proves the rise
for the case where the loop's total is within the tolerance of the target.

The comment beside `minutosAtras` in `components/HistorialGanhos.tsx:33`
speaks of two to four minutes between entries. The code computes
`i * 2 + Math.floor(Math.random() * 3)`, so consecutive offsets differ by
anything from 0 to 4 minutes, and two neighbouring entries can show the same
time. `History.MinutesAgoCanRepeat` exhibits such draws. The model follows the
code.

## Model

| member | source | states |
|---|---|---|
| Draws.FloorScaled | app/filtro/page.tsx:22 | `Math.floor(Math.random() * k)` is an integer in [0, k) |
| Series.Target | app/filtro/page.tsx:22 | the target is between 26,000,000 and 26,999,998 |
| Series.Extra | app/filtro/page.tsx:58 | the extra jitter is between -2500 and 2499 |
| Series.MinDaily | app/filtro/page.tsx:59 | `Math.floor(baseDiaria * 0.5)` is the target divided by 28, rounded down |
| Series.MinDailyOfTarget | app/filtro/page.tsx:22-59 | for every target in range, the least daily earning exceeds the 1000 tolerance |
| Series.Shaped | app/filtro/page.tsx:54-55 | for a non-negative target, the shaped earning lies within 5% of the daily base times the day's factor, less one for the rounding down |
| Series.Earning | app/filtro/page.tsx:58-59 | the earning is the larger of the shaped earning plus the extra and the least earning: at least both, and equal to one of them |
| Series.Earnings | app/filtro/page.tsx:46-59 | one earning per day, fourteen in all |
| Series.RawSeries | app/filtro/page.tsx:46-73 | the loop pushes fourteen records |
| Series.RawSeriesStep | app/filtro/page.tsx:58-72 | each step of the loop appends day k + 1 with its label and earning, and its running total is the previous one plus that earning |
| Series.Reconciled | app/filtro/page.tsx:76-83 | all records but the last are kept; the last keeps its day and date, ends at the target, and its earning gains the difference to the target exactly when that difference exceeds the tolerance |
| Series.Reconcile | app/filtro/page.tsx:76-83 | the in-place update of the last record yields exactly `Reconciled` |
| Series.Generated | app/filtro/page.tsx:15-86 | the generated series has fourteen records, ends at the target, and its first thirteen records are those the loop built |
| Series.GenerateSeries | app/filtro/page.tsx:15-86 | the loop and the reconciliation return exactly `Generated`: fourteen raw records, then the last one reconciled |
| Series.DisplayedTotal | app/filtro/page.tsx:170 | the shown total is the last running total, or 0 for an empty series |
| Series.RawSeriesShape | app/filtro/page.tsx:46-73 | before reconciliation, record k is day k + 1 with the k-th label; every earning is at least the least earning; every running total is the sum of the earnings up to it |
| Series.RawSeriesIncreasing | app/filtro/page.tsx:59-61 | before reconciliation, running totals rise strictly from day to day |
| Series.ReconciledShape | app/filtro/page.tsx:76-83 | reconciliation keeps all but the last record; the last ends at the target; beyond the tolerance the last earning closes the gap from the previous total to the target, otherwise it is unchanged |
| Series.GeneratedEndsAtTarget | app/filtro/page.tsx:76-83 | the series has fourteen records in day order; the first thirteen are as the loop built them, each earning at least the least earning; the last running total and the displayed total are the target; beyond the tolerance the thirteenth running total plus the last earning is the target, within it the last earning is the loop's |
| Series.SmallDifferenceKeepsRising | app/filtro/page.tsx:80-83 | within the tolerance, the returned series rises strictly to the target |
| Series.LastDayCanFall | app/filtro/page.tsx:76-79 | for one concrete set of draws, the last earning is -429,181 and the last running total is below the previous one |
| Currency.RegexSeparated | app/filtro/page.tsx:90 | at most one digit is left alone; otherwise the first character stays first and one separator is added for every full group of three after it |
| Currency.FormatClp | components/HistorialGanhos.tsx:23-25 | the rendering starts with "$" and has at least one more character |
| Currency.RegexIsGrouping | app/filtro/page.tsx:90 | the left-to-right regular-expression substitution equals the right-to-left grouping in threes |
| Currency.RegexSeparatedSplit | app/filtro/page.tsx:90 | the substitution puts a "." before any suffix whose length is a positive multiple of three |
| Currency.RegexSeparatedShort | app/filtro/page.tsx:90 | three digits or fewer get no separator |
| Currency.GroupedStrip | app/filtro/page.tsx:90 | removing the separators from the grouping gives back the digits |
| Currency.GroupedDots | app/filtro/page.tsx:90 | each separator follows a group and precedes exactly three digits, then the end or another separator |
| Currency.GroupedDotsRight | app/filtro/page.tsx:90 | each separator has a multiple of three digits to its right |
| Currency.GroupedRuns | app/filtro/page.tsx:90 | no four consecutive characters are all digits |
| Currency.GroupedHasDot | app/filtro/page.tsx:90 | there is a separator exactly when there are more than three digits |
| Currency.FormatClpShape | app/filtro/page.tsx:89-91 | for a non-negative amount: "$", then the decimal digits of the amount when the dots are removed, with separators spaced and aligned in threes, and a separator exactly when the amount is 1000 or more |
| Currency.FormatClpNegative | app/filtro/page.tsx:89-91 | a negative amount renders as "$-" followed by the rendering of its magnitude |
| Currency.FormatClpMillion | app/filtro/page.tsx:89-91 | 1234567 renders as "$1.234.567" |
| Currency.FormatClpSmall | components/HistorialGanhos.tsx:23-25 | 999 renders as "$999" and 0 as "$0" |
| Digits.DecimalDigits | app/filtro/page.tsx:90 | `toString` of a non-negative integer yields at least one digit, and only digits |
| Digits.ValueOfDecimalDigits | app/filtro/page.tsx:90 | reading the digits back gives the number |
| Digits.DecimalDigitsInjective | components/HistorialGanhos.tsx:53 | distinct numbers have distinct renderings |
| Digits.NoLeadingZero | app/filtro/page.tsx:90 | the rendering starts with "0" only for 0 |
| Digits.DigitCount | app/filtro/page.tsx:90 | the rendering has at most k digits exactly when the number is below 10^k |
| Digits.PadStart2 | components/HistorialGanhos.tsx:35-36 | the result is s when s has two characters or more, otherwise s preceded by zeros up to length 2 |
| Chart.Values | app/filtro/page.tsx:102 | one value per record |
| Chart.Min | app/filtro/page.tsx:103 | the result is one of the values and no greater than any of them |
| Chart.Max | app/filtro/page.tsx:104 | the result is one of the values and no less than any of them |
| Chart.Range | app/filtro/page.tsx:105 | the range is at least 1, and every value lies between the least value and the least value plus the range |
| Chart.X | app/filtro/page.tsx:109 | the first point is at the left edge of the plot area, the last at its right edge, and every point in between |
| Chart.Y | app/filtro/page.tsx:110 | the least value is at the bottom of the plot area, the least plus the range at the top, and every value in between inside it |
| Chart.Points | app/filtro/page.tsx:108-112 | one point per record |
| Chart.PointsHorizontal | app/filtro/page.tsx:108-112 | the first point is at x = 8, the last at x = 92, and x rises strictly along the records |
| Chart.PointsVertical | app/filtro/page.tsx:102-112 | every y lies in [8, 52]; the least value is at the bottom; the greatest, when distinct, is at the top; equal values all sit at the bottom; a larger value is never lower; each point carries its record's running total |
| Chart.Segment | app/filtro/page.tsx:116 | the command is "M" for the first point and "L" for the others, then a space and the x coordinate's text |
| Chart.Join | app/filtro/page.tsx:117 | joining nothing gives ""; otherwise the result starts with the first part and ends with the last |
| Chart.PathData | app/filtro/page.tsx:115-117 | the path of at least one point starts with "M " |
| Chart.PathCommands | app/filtro/page.tsx:115-117 | the path starts with "M", has one "M" and one "L" for each further point, when no coordinate's text contains those letters |
| Chart.ChartOfGenerated | app/filtro/page.tsx:222 | the chart of a generated series has fourteen points, and the last one is at x = 92 and shows the target |
| History.RandomAmount | components/HistorialGanhos.tsx:15-20 | the amount lies between min and max + 998 |
| History.MinutesAgo | components/HistorialGanhos.tsx:33 | the i-th offset is between 2i and 2i + 2 minutes |
| History.MinutesAgoOrdered | components/HistorialGanhos.tsx:32-33 | offsets never decrease along the list, and consecutive offsets differ by at most four minutes |
| History.MinutesAgoCanRepeat | components/HistorialGanhos.tsx:33 | for one concrete pair of draws, the first two offsets are both two minutes, so the first two labels are equal |
| History.MinuteOfDay | components/HistorialGanhos.tsx:34 | the clock time is a minute of the day in [0, 1440) |
| History.TimeLabel | components/HistorialGanhos.tsx:35-37 | the label has five characters with ":" in the middle |
| History.TwoDigits | components/HistorialGanhos.tsx:35-36 | a number below 100 becomes two digits that read back to the number |
| History.PadStartTwoDigits | components/HistorialGanhos.tsx:35-36 | `toString` padded to two characters with "0" gives those two digits |
| History.FormatTime | components/HistorialGanhos.tsx:35-37 | formatting hours and minutes as the source does yields exactly `TimeLabel` |
| History.TimeLabelRoundTrip | components/HistorialGanhos.tsx:35-37 | the label is `HH:MM`, with hours below 24 and minutes below 60, which read back to the minute of the day |
| History.Times | components/HistorialGanhos.tsx:28-41 | one label per draw |
| History.GenerateTimes | components/HistorialGanhos.tsx:28-41 | the loop returns exactly `Times`: one label per step, the i-th being the time `MinutesAgo(i)` minutes before now |
| History.EntryId | components/HistorialGanhos.tsx:53 | the id is "ganho-" followed by digits only, which read back as the index |
| History.EntryIdsDistinct | components/HistorialGanhos.tsx:53 | different indices give different ids |
| History.Entries | components/HistorialGanhos.tsx:44-61 | one entry per time, each with an amount in [10000, 80998] |
| History.EntriesDistinctIds | components/HistorialGanhos.tsx:53 | the ids of the list are pairwise distinct |
| History.GenerateEntries | components/HistorialGanhos.tsx:44-61 | the loop returns exactly `Entries`: one entry per time, in order, with its id, "Hoy", its time and its amount |

## Left out

- Rendering is not modelled, and neither is `useMemo`. This covers the JSX and SVG markup, animations, icons, gradients, and the repeat of the points as circles.
- Floating point is not modelled. Products such as `baseDiaria * factor * (1 + variation)` use exact rationals, then `Floor`. IEEE-754 rounding can move a value by one unit at a floor boundary.
- Dates and the clock are inputs, not computed. Series takes the fourteen `fecha` labels (day of month plus the `es-CL` short month) as opaque strings. History takes the current time as a minute of the day. Time zones and daylight-saving jumps are left out.
- The `tipo` names of the patterns are left out, because nothing reads them.
- The default count 40 of `generarDatosMock`, and the count the list component passes, are values of the `count` parameter. The methods take the count as a `nat`, so negative or fractional counts are not modelled.
- Chart.PathCommands: number-to-string conversion is a parameter `num`. The path's exact coordinate text is therefore not modelled, only its command structure.
- Chart.Points: requires at least two records. With one record the source divides 0 by 0 and plots NaN. Callers always pass the fourteen-day series.
- Currency.FormatClp: models integer amounts only. `toString` of a fractional amount or of one at or above 10^21 is not modelled.
- History.MinutesAgoOrdered: states the ordering on offsets, not on the `HH:MM` labels. The labels wrap around midnight, so they are not ordered themselves.
