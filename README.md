# README generator of the desktop-framework benchmarks, in Dafny

This project models `runner/write_readme.js`, the script that turns the
benchmark results of the web-to-desktop framework comparison into the
project's README. The script does the following:

- It fills the three repository-statistics rows of the opening template:
  Github stars, forks and last update.
- For every application it writes a title, then five tables: build size,
  build time, memory of the main process and its children, system-measured
  memory, and start duration. After the tables come the footnotes of the
  application's custom messages.
- Every table has one column per library and one row per architecture that
  has statistics. A cell shows one of four things, in this order of
  precedence: a custom message marker, the Debug and/or Release values, a
  "Requested" link, or `?`.
- It ends with the closing template.

The model is organised by module:

- `Benchmarks` (benchmarks.dfy) holds the inputs: libraries, architectures,
  run samples, benchmark records and the keys the script builds.
- `Stats` (stats.dfy) holds the statistic builders: `getStat` and
  `getStatByTargets`, with the aggregates of `Aggregates` (aggregates.dfy).
- `Units` (units.dfy) holds the two formatters.
- `Render` (render.dfy) holds table rows and headers.
- `Template` (template.dfy) holds the substitution of the opening template.
- `Report` (report.dfy) holds the application loop and the whole README.
- `Text` (text.dfy) holds the string helpers: decimal text, `split('\n')`
  and concatenation.

Each loop of the script is a `method`. Each method is proved equal to a
function of its inputs, and the lemmas state what those functions produce.

Inputs and conversions:

- The file reads become parameters: `begin` and `end` for the template
  texts, `table` for `benchmarks.json`, `repo` for `stats.json`, and
  `Config` for the imports from `config.js`.
- The number-to-text conversion of the star and fork counts
  (`Math.round(n / 100) / 10`) is a parameter `kilo`.
- The order the start times are sorted in is a parameter `before`.

## Model

| member | source | states |
|---|---|---|
| Benchmarks.StatKeyInjective | runner/write_readme.js:53 | two statistic keys `libraryId/context` are equal only for the same library and context, so no statistic overwrites another |
| Benchmarks.Round | runner/write_readme.js:35 | `Math.round` gives the integer within one half of its argument |
| Aggregates.FloorDivIsEuclidean | runner/write_readme.js:61-63 | flooring the exact quotient of the sum by a positive run count is integer division |
| Aggregates.MeanMemory | runner/write_readme.js:60-70 | the memory statistic is the floored mean over all runs, missing medians counting as 0: q * n <= sum < (q + 1) * n; 0 when there are no runs |
| Aggregates.MeanMemoryExample | runner/write_readme.js:61-63 | medians 100, 200 and a missing one give 100 |
| Aggregates.StartTimeRuns | runner/write_readme.js:74 | the runs with a numeric start time, each listed once, in increasing order |
| Aggregates.NumericStartTimes | runner/write_readme.js:74 | the filter keeps one value per run with a numeric start time, repetitions included, in run order: value k is the start time of run k of `StartTimeRuns` |
| Aggregates.NumericStartTimesMembers | runner/write_readme.js:74 | a value is among the filtered start times exactly when some run started at it |
| Aggregates.SortBy | runner/write_readme.js:74 | the sort gives back a permutation of the start times |
| Aggregates.SortBySorted | runner/write_readme.js:74 | under any total order the sort result is ordered |
| Aggregates.StartTimeStat | runner/write_readme.js:72-81 | the start-time statistic is 0 when no run has a numeric start time, and otherwise the rounding of one of the filtered start times |
| Aggregates.TextOrderTotal | runner/write_readme.js:74 | the text order of `.sort()` without a comparator is total and transitive, so `StartTimeIsMiddle` applies to the sort as written |
| Aggregates.StartTimeIsMiddle | runner/write_readme.js:72-81 | the start-time statistic is 0 when no run has a numeric start time; otherwise it is the rounded start time m of a run with at most floor(n/2) times strictly before m and more than floor(n/2) at or before m |
| Aggregates.MedianStartTimeIsMedian | runner/write_readme.js:74-76 | sorted numerically, the statistic is the rounded median: at most floor(n/2) times are smaller and more than floor(n/2) are at most it |
| Aggregates.TextSortMisplacesMiddle | runner/write_readme.js:74-76 | with the default text order, start times 9, 10 and 100 give 100 where the numeric median is 10 |
| Stats.GetStat | runner/write_readme.js:10-28 | the loop over the libraries computes the build statistics map |
| Stats.BuildStatsOfKeys | runner/write_readme.js:17-25 | a library has a `/Release` entry exactly when its record exists and the field is truthy, and the entry holds that field |
| Stats.BuildStatsKeys | runner/write_readme.js:10-36 | an unknown architecture gives the empty map; otherwise the keys and values are exactly those of the libraries with a truthy field, build times rounded |
| Stats.GetStatByTargets | runner/write_readme.js:38-58 | the nested loops over libraries and contexts compute the per-context statistics map |
| Stats.WithContextsKeys | runner/write_readme.js:46-54 | after the inner loop the keys are the old ones plus one per context with runs |
| Stats.WithContextsValues | runner/write_readme.js:46-54 | each context with runs holds its aggregate |
| Stats.WithContextsKeeps | runner/write_readme.js:46-54 | the entries of other keys are unchanged |
| Stats.ContextStatsOfKeys | runner/write_readme.js:45-55 | the keys are exactly the `libraryId/context` pairs whose record has runs |
| Stats.ContextStatsOfValues | runner/write_readme.js:45-55 | each such key holds the aggregate of the runs of its library and context |
| Stats.ContextStatsKeys | runner/write_readme.js:38-58 | an unknown architecture gives the empty map; otherwise the keys are the pairs with runs and each holds the aggregate of its runs |
| Units.UnitIndex | runner/write_readme.js:90-93 | the number of divisions is the least k with data <= 1000 * 1000^k |
| Units.GetUnitFromMemory | runner/write_readme.js:86-96 | the division loop computes `≈` + floor(data / 1000^k) + the unit of index k |
| Units.MemoryTextScale | runner/write_readme.js:86-96 | the printed value is at most 1000; no division happens exactly when data <= 1000; above 1000 the value is at least 1 |
| Units.MemoryTextExamples | runner/write_readme.js:86-96 | 999 prints `≈999B`, 1500 prints `≈1KB`, 2500000 prints `≈2MB` |
| Units.FormatTime | runner/write_readme.js:98-104 | the text is `N/A` exactly for a negative time; otherwise it is `≈<digits>ms` whose digits read back as the time and have no leading zero |
| Units.FormatTimeExamples | runner/write_readme.js:98-104 | 42 prints `≈42ms`, 0 prints `≈0ms`, -1 prints `N/A` |
| Render.FindMessage | runner/write_readme.js:117 | a message is found exactly when one is configured for the library, and it is one configured for it |
| Render.FormatStat | runner/write_readme.js:125-132 | the formatter call is the byte or the time formatter of the table |
| Render.Cell | runner/write_readme.js:116-149 | every cell starts with a space and ends with `\|` |
| Render.CellOf | runner/write_readme.js:116-149 | the loop body computes the cell of the library |
| Render.RowCells | runner/write_readme.js:116-150 | the loop writes the cells of the libraries in order |
| Render.MarkdownTableLine | runner/write_readme.js:106-155 | the function computes the row of the architecture |
| Render.TableLineShape | runner/write_readme.js:106-155 | there is no row exactly when the statistics map is empty; otherwise the row is the architecture name, one cell per library in order, and a newline |
| Render.CustomMessageWins | runner/write_readme.js:117-120 | a configured custom message makes the cell ` N/A<sup>key</sup>\|` whatever the data |
| Render.DataCellShown | runner/write_readme.js:122-144 | with a truthy value and no message, the cell is `debug => release`, `debug` or `release`, depending on which are present |
| Render.NoDataCell | runner/write_readme.js:145-149 | with neither value nor message, the cell is the requested link when a URL is configured, else ` ? \|` |
| Render.GenerateHeader | runner/write_readme.js:157-169 | the loop computes the header |
| Render.HeaderCellsAt | runner/write_readme.js:160-163 | there is exactly one link cell per library, in order |
| Render.HeaderShape | runner/write_readme.js:157-169 | the header is the blank lines and corner cell, one ` [name](url) \|` cell per library, and a separator with n + 1 column markers |
| Template.MarkerOf | runner/write_readme.js:179-197 | a line is rebuilt exactly when it starts with one of the three row prefixes, and with the one reported |
| Template.MarkerRow | runner/write_readme.js:179-204 | the loop over the libraries computes the rebuilt row |
| Template.LineOf | runner/write_readme.js:178-206 | the loop body computes what one line becomes |
| Template.SubstituteTemplate | runner/write_readme.js:178-207 | the loop over the lines computes the substituted template |
| Template.RepoCellsAt | runner/write_readme.js:181-183 | a rebuilt row has one cell per library, in order |
| Template.MarkerRowShape | runner/write_readme.js:179-204 | a rebuilt row exists exactly when every library has repository statistics, and it is the label, the cells and `\|` with a newline |
| Template.LineTextsDefined | runner/write_readme.js:178-207 | substitution fails exactly when some line is a marker row and some library lacks statistics |
| Template.LineTextsFails | runner/write_readme.js:182 | one line that cannot be rebuilt makes the whole run fail |
| Template.LineTextsAt | runner/write_readme.js:178-207 | there is one text per line: the line with a newline, or its rebuilt row |
| Template.PassThrough | runner/write_readme.js:178-207 | a template without marker rows comes out unchanged, plus one final newline |
| Text.JoinSplit | runner/write_readme.js:178 | joining the split lines with newlines gives back the template |
| Text.SplitJoin | runner/write_readme.js:178 | splitting newline-free lines joined with newlines gives back the lines |
| Report.GetMetricStats | runner/write_readme.js:30-81 | each table takes the statistics of its own builder |
| Report.WriteRows | runner/write_readme.js:221-226 | the loop over the architectures writes their rows in order |
| Report.WriteMetric | runner/write_readme.js:219-226 | one table block is its heading, the header and the rows |
| Report.TableRows | runner/write_readme.js:221-226 | there is one row text per architecture, empty exactly when its statistics map is empty |
| Report.BuildCellsBare | runner/write_readme.js:128-133 | in the build tables a Release value is shown without the `(Release)` tag |
| Report.WriteFootnoteLines | runner/write_readme.js:278-280 | the loop writes one footnote per message, in order |
| Report.WriteFootnotes | runner/write_readme.js:276-282 | the footnotes are a blank line, the lines and two newlines when the application has a custom-messages entry (even an empty one), else nothing |
| Report.FootnoteLinesAt | runner/write_readme.js:278-280 | footnote i is `**<sup>key</sup>**: value` of message i |
| Report.FootnoteForEveryMessage | runner/write_readme.js:276-282 | every `N/A<sup>key</sup>` cell has its footnote under the tables |
| Report.NoFootnotes | runner/write_readme.js:276-282 | an application without a custom-messages entry has no footnotes and no message cells |
| Report.TableOrderSections | runner/write_readme.js:216-274 | the five tables come in the order build size, build time, memory, system memory, start duration |
| Report.WriteApp | runner/write_readme.js:209-283 | one application's block is its title, the five tables and the footnotes |
| Report.WriteApps | runner/write_readme.js:209-283 | the loop over the applications writes their blocks in order |
| Report.WriteReadme | runner/write_readme.js:174-285 | the script computes the README |
| Report.ReadmeShape | runner/write_readme.js:178-285 | a README is written exactly when the template substitution succeeds; it is the substituted template, one block per application in order, each starting with its title, and the closing template |

## Left out

- File reads and writes, and JSON parsing: the parsed contents are
  parameters, and the README is the returned string.
- `config.js` is not part of this model. Its exports are the `Config`
  parameter.
- The number formatting of stars and forks (`Math.round(n / 100) / 10`,
  printed by JavaScript's number-to-text conversion) is the abstract
  parameter `kilo`. Floating-point text is not modelled.
- Aggregates.StartTimeIsMiddle: the sort order is a parameter, and the lemma
  holds for every total order. JavaScript's text order is one instance
  (`Aggregates.TextOrderTotal`) and the numeric order another (see
  Findings).
- Aggregates.StartTimeIsMiddle: the code takes the element at index
  floor(n/2). For an even count that is the upper of the two middle
  values, not a lower median, and the model follows the code.
- Aggregates.MeanMemory: the mean over no runs is `NaN` in JavaScript, and
  the model writes 0 for it. Both are falsy, and the renderer only asks
  whether a value is truthy. So no non-empty-runs precondition is needed.
- Memory medians are modelled as integers (bytes), and the true division is
  modelled exactly. Fractional medians and floating-point rounding are left
  out.
- Units.GetUnitFromMemory: the repeated floating-point division by 1000 is
  modelled as exact integer division by 1000^k. For integer inputs the two
  agree, apart from rounding error. Past GB the script indexes beyond its
  unit list and prints `undefined`, and so does the model, which has no
  upper-bound precondition.
- JavaScript object key order (integer-like keys first): the libraries and
  architectures are sequences in configuration order, and custom messages
  are an ordered sequence per application. When ids repeat, the first
  matching message is the one shown.
- `data[architecture].benchmarkData` is assumed to exist whenever the
  architecture does. A missing field there would stop the script with a
  type error.
- Benchmarks.Sample: a run's `memoryUsage` object is flattened into two
  optional medians. A run without `memoryUsage` makes the script stop with
  a TypeError at lines 62 and 68, before anything is written. The model
  reads such a run as two missing medians, which count as 0 in the mean.
- The `startTime` type test (`typeof x === 'number'`) becomes `Option`: a
  start time of any other type is `None`.
- `generateHeader` assigns the global `fileStr` and returns it. In
  `fileStr += generateHeader()` the left operand is read before the call,
  so the net effect is an append. The model has no global and returns the
  header.
- A missing `stats.json` entry on a marker row is a TypeError that aborts
  the script before anything is written. The model reports it as `None`.
- Render.GenerateHeader, Render.MarkdownTableLine, Report.WriteApp: the
  cells of a row, the rows of a table and the tables of an application are
  collected in a local string, then appended. The result is the same string
  the source builds in place.

## Findings

| source | as written | input that shows it | evidently intended | confidence | as-written member | corrected member |
|---|---|---|---|---|---|---|
| runner/write_readme.js:74-76 | `.sort()` without a comparator orders the start times by their texts | start times 9, 10 and 100 ms sort as 10, 100, 9, so the statistic is 100 | the median in numeric order, 10 | likely; not executed | Aggregates.TextSortMisplacesMiddle | Aggregates.MedianStartTimeIsMedian |

The report is parametric in the sort order. `Aggregates.TextOrder` gives
the script as written, and `Aggregates.NumericOrder` gives the corrected
one. `Aggregates.MedianStartTime` is the start-time statistic under the
numeric order.
