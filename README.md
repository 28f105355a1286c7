# Word count visualization, modelled in Dafny

This project models the computing core of an Obsidian plugin that counts the
words of a vault, keeps a per-day history of those counts and draws the
history as a line chart. The core has three parts:

- **The word counter** (`countWords`). A text's count is the number of global
  matches of a pattern with two alternatives:
  - one ideograph of the block U+4E00..U+9FA5;
  - one greedy run of ASCII letters, digits and underscores.

  `WordCount` models it as a left-to-right scanner. It is checked against an
  independent definition: the set of positions where a match begins.
- **The daily history** (`getDailyWordHistory`, and the plugin's copy
  `recordDailyWordCount`). It works as follows:
  - files without a `stat` are skipped;
  - every other file's count is added under the key `YYYY-MM-DD` of its local
    modification date;
  - the map is built fresh on every scan.

  The vault total (`updateVaultWordCount`) counts every file.
  - `DayKeys` models the key format.
  - `DailyHistory` models the scan loop, proved against a fold over the
    files.
- **The chart series** (`renderChart`), in `Segmentation`. It works on the
  sorted keys of the history:
  - month mode sums the days per 7-character prefix;
  - year mode sums them per 4-character prefix;
  - default mode cuts the days into consecutive chunks of `max(1, ceil(n/5))`
    days, labelled `first~last`;
  - an optional cumulative pass then rewrites the values in place into
    running totals.

  `Segmentation` also holds the history total, which the view labels as the
  vault total, and the per-day series of the plain history view.

`Views` holds the objects whose state the source updates in place:
- the plugin, with its `vaultWordCount`, `dailyWordHistory` and chart
  settings;
- the settings-based view, which writes the chart mode and the cumulative
  flag into the plugin's settings;
- the stand-alone view, with its own `isCumulative` flag and select value.

Every loop of the source is a Dafny method with its invariants. Each is proved
against a specification function, and the properties the plugin relies on
are proved about those functions as lemmas:
- counts never exceed the text;
- the history holds exactly the counted files;
- no mode loses or double-counts a day;
- there are at most five default segments;
- running totals end with the grand total.

Default mode is count-based, five chunks at most. Month and year buckets
exist only for periods that have data. There is no mode by elapsed days and
no mode showing the twelve months of a chosen year.

## Model

| member | source | states |
|---|---|---|
| WordCount.CountWords | components/utils.ts:3-6 | a text's word count is never more than its number of characters |
| WordCount.Scan | main.ts:126-130 | the plugin's own copy of the counter, the same scan: the matches counted never outnumber the characters scanned |
| WordCount.CountWordsIsMatchStarts | components/utils.ts:4-5 | the scanner's count is exactly the number of positions where a match begins: an ideograph, or a word character not preceded by a word character |
| WordCount.NoMatchNoWords | components/utils.ts:4-5 | a text with no ideograph and no `[A-Za-z0-9_]` character (the empty text among them) counts 0 |
| WordCount.IdeographsCountEach | components/utils.ts:4 | every ideograph is a word of its own: a text of `k` ideographs counts `k`, so two adjacent ideographs count 2 |
| WordCount.WordRunCountsOnce | components/utils.ts:4 | a non-empty run of `[A-Za-z0-9_]` characters counts exactly one, whatever its length |
| WordCount.CountWordsConcat | components/utils.ts:4 | counts of two texts add up over their concatenation, less one when a word run ending the first meets a word run starting the second |
| DayKeys.DayKey | components/utils.ts:14 | every key begins with the year as `toString` writes it, followed by a dash, with at least six characters of month and day fields after it |
| DayKeys.DayKeyShape | components/utils.ts:14 | for a four-digit year the key is ten characters: the year, a dash, the month `month0 + 1` in two digits, a dash, the day in two digits |
| DayKeys.TwoDigitField | components/utils.ts:14 | a month or day below 100 padded with `padStart(2, '0')` is two digits that read back as the number |
| DayKeys.ParseDayKeyRoundTrip | components/utils.ts:14 | for a date with a four-digit year, reading its key back gives the date it was formed from |
| DayKeys.DayKeyInjective | main.ts:115 | two dates with four-digit years share a key only when they are the same date |
| DailyHistory.BuildDailyHistory | components/utils.ts:8-21 | the scan loop builds, from an empty map, exactly the fold of the files in order |
| DailyHistory.AddToDay | components/utils.ts:17-18 | setting a first-seen (or zero) entry to 0 and then adding the count adds the count to the day's old value, 0 when absent |
| DailyHistory.HistoryByDay | components/utils.ts:10-20 | a day is a key exactly when some file with a `stat` is counted under it, and its value is the sum of the counts of exactly those files |
| DailyHistory.StatlessFileIgnored | components/utils.ts:12 | removing a file without a `stat`, from any position, leaves the history unchanged |
| DailyHistory.HistoryTotal | components/utils.ts:10-20 | the values of the history add up to the words of the files that have a `stat` |
| DailyHistory.VaultWordCount | main.ts:98-104 | the vault loop's total is the words of every file, `stat` or not |
| DailyHistory.HistoryWithinVault | main.ts:98-119 | over the same files, the history's total never exceeds the vault total |
| Views.WordCountPlugin.constructor | main.ts:21-25 | a new plugin has total 0 and an empty history (lines 21-22). The plugin's own defaults (lines 11-13, merged at line 25) have no chart fields, so the mode and the flag start undefined. Every use reads undefined as `'default'` and as false, the values the model starts with |
| Views.WordCountPlugin.UpdateVaultWordCount | main.ts:96-106 | the field `vaultWordCount` becomes the vault total of the files; nothing else changes |
| Views.WordCountPlugin.RecordDailyWordCount | main.ts:108-123 | the field `dailyWordHistory` is replaced by the history of the files alone, nothing of the old one surviving; nothing else changes |
| Views.Rescan | main.ts:96-123 | after both scans the fields hold the vault total and the history, and the history's total is at most the vault total |
| Segmentation.ModeOf | components/VisulizationView.ts:52-68 | only `'month'` and `'year'` select month and year mode; every other value selects default mode |
| Segmentation.GroupByPrefix | components/views.ts:73-88 | the bucket loop returns the distinct prefixes of the days in first-appearance order, and for each the sum of its days |
| Segmentation.AddToBucket | components/views.ts:75-78 | adding a day to the bucket of its prefix, creating it on first use, keeps every bucket equal to the sum of its days so far and the labels equal to the prefixes seen so far |
| Segmentation.Totals | components/views.ts:79-80 | entry `i` of the values is the sum of the days whose prefix is label `i` |
| Segmentation.GroupLabelsArePrefixes | components/views.ts:76 | a string is a month (year) label exactly when it is the 7-character (4-character) prefix of some day |
| Segmentation.GroupTotalsSum | components/views.ts:73-88 | the month or year values add up to the words of all days |
| Segmentation.GroupLabelsAscending | components/views.ts:79 | over ascending days the labels come out ascending |
| Segmentation.BucketLabelsAscending | components/views.ts:79-88 | month and year labels over sorted keys are distinct and ascending |
| Segmentation.ChunkSize | components/views.ts:92 | the chunk size is at least 1 and, for `n > 0` days, the least `seg` with `n <= 5 * seg`, which is `ceil(n / 5)` |
| Segmentation.DefaultSegments | components/views.ts:89-98 | the stepped push loop produces, for `i = 0, seg, 2 * seg, ...`, the label and the total of the days from `i` to `i + seg` |
| Segmentation.PushChunk | components/views.ts:94-96 | one round of the push loop keeps the invariant: what is pushed, followed by what is still to come, is the whole series |
| Segmentation.FromIsChunks | components/views.ts:93-97 | what the loop pushes is the label `first~last` and the sum of each chunk of the days, in order |
| Segmentation.ChunksPartition | components/views.ts:93-94 | the chunks, concatenated, are exactly the days in order |
| Segmentation.ChunkSizes | components/views.ts:94 | every chunk has between 1 and `seg` days, and all but the last exactly `seg` |
| Segmentation.AtMostFiveChunks | components/views.ts:92-93 | default mode never produces more than five segments |
| Segmentation.DefaultSegmentsShape | components/VisulizationView.ts:68-77 | at most five segments that cut the days in order, all but the last of `seg` days, each labelled by its first and last day |
| Segmentation.ChunkTotalsSum | components/views.ts:96 | the default-mode values add up to the words of all days |
| Segmentation.Accumulate | components/views.ts:101-105 | the in-place pass turns the array into the running totals of its old contents |
| Segmentation.PrefixSumsFacts | components/VisulizationView.ts:80-84 | the running totals keep the length and the first value, never decrease, and end with the total of the values |
| Segmentation.DifferencesUndoPrefixSums | components/views.ts:102-103 | successive differences of the running totals give back the original values |
| Segmentation.SeriesLabels | components/views.ts:71-98 | an empty history gives no labels, in every mode |
| Segmentation.SeriesValues | components/VisulizationView.ts:50-77 | in every mode there are as many values as labels |
| Segmentation.RenderChart | components/VisulizationView.ts:46-84 | the labels are the mode's labels, and the values are the mode's values or, when cumulative, their running totals |
| Segmentation.SeriesTotal | components/views.ts:73-98 | in every mode the values add up to the words of all days |
| Segmentation.SeriesTotalIsHistoryTotal | components/views.ts:71-105 | over the sorted keys the values of every mode add up to the history's total, and so does the last running total |
| Segmentation.TotalWordCount | components/views.ts:36 | the displayed total is the sum of all values of the history |
| Segmentation.DailySeries | main.ts:172-173 | the per-day series has one value per sorted key, the key's count |
| Segmentation.DailySeriesTotal | main.ts:172-173 | over the sorted keys the per-day series adds up to the history's total |
| Views.WordCountView.constructor | components/views.ts:10-13 | the view keeps a reference to the plugin whose history and settings it shows |
| Views.WordCountView.TotalWords | components/views.ts:35-38 | the view's total is the sum of the plugin's history |
| Views.WordCountView.Render | components/views.ts:67-105 | the series drawn is that of the mode and the cumulative flag stored in the plugin's settings |
| Views.WordCountView.Refresh | components/views.ts:149-152 | refresh recomputes the total and redraws; when cumulative, the last point equals the total shown |
| Views.WordCountView.OnSelect | components/views.ts:143-147 | the chosen value is stored as the chart mode, the rest of the plugin is unchanged, and the chart is drawn in that mode: its labels, and its values or their running totals as the stored flag says |
| Views.WordCountView.OnToggle | components/views.ts:154-159 | the stored cumulative flag flips, the rest of the plugin is unchanged, and the chart is redrawn in the stored mode: its labels, and its values or their running totals as the new flag says |
| Views.VisualizationView.constructor | components/VisulizationView.ts:41 | the view starts in plain mode with the default segments selected |
| Views.VisualizationView.RenderChart | components/VisulizationView.ts:46-84 | the series drawn is that of the given mode and the view's own cumulative flag |
| Views.VisualizationView.OnSelect | components/VisulizationView.ts:122-123 | choosing in the select, or refreshing, selects the value and draws that mode with the flag unchanged: its labels, and its values or their running totals as the flag says |
| Views.VisualizationView.OnToggle | components/VisulizationView.ts:126-130 | the toggle flips the view's flag, keeps the selected mode and draws it with the new flag |
| Views.ToggleTwice | components/VisulizationView.ts:126-129 | two toggles restore the original flag |

## Left out

- Obsidian calls are parameters or left out. The model takes the already-read files as a sequence of records: reading the vault, listing the markdown files, `await`, event and view registration, the ribbon, the status bar and `activateView`.
- Time zones are left out. `new Date(mtime)` and its local time zone are not modelled: each file's `stat` carries the local year, 0-based month and day as integers.
- The drawing is left out: Chart.js, the `window.wordChart` destroy and recreate, the DOM, styles and `setTimeout`. The model stops at the `labels` and `data` handed to the chart.
- Settings persistence is left out: `saveSettings`, and the saved values that `loadSettings` merges over the defaults with `Object.assign`. The plugin's own defaults hold only an unrelated `mySetting` field, so the chart mode and cumulative flag start undefined. Every use reads undefined as mode `'default'` and as not cumulative, which is what the constructor sets. The settings-based view's chart mode and cumulative flag are fields of the plugin object. The settings and translation files hold only constants.
- The status bar's `updateWordCount` reads the active editor and is left out.
- `Object.keys(history).sort()` is not computed. It is a precondition: the days are strictly ascending under the string order and are exactly the keys of the history.
- Month and year labels are kept in first-appearance order, the insertion order of the bucket object. The engine lists array-index keys (canonical numerals such as `"2024"`) first, in numeric order, and only then the other keys in insertion order.
  - Month labels `YYYY-MM` are never index keys, so the two orders are the same for them.
  - When every day has a four-digit year, each year label is a four-digit numeral. Numeric order of such numerals is their string order, and `Segmentation.BucketLabelsAscending` shows the model's labels are in ascending string order, so the two orders again agree.
  - The order of year labels when some year is outside 1000..9999 is not modelled. For the days `1-01-01` and `2024-01-01` the model lists `1-01` before `2024`, while the engine lists `2024` first.
- Strings are sequences of Unicode code points rather than UTF-16 code units. The pattern's ideograph block lies in the Basic Multilingual Plane, so counts agree on it.
- Counts are unbounded naturals. The source's double-precision numbers lose integer precision only beyond 2^53 words.
- History values read by the chart code are always present, because the days are the history's keys. The `undefined` arithmetic for a missing key cannot arise and is not modelled.
- DayKeys.DayKeyShape: holds only for four-digit years. Other years give keys of other lengths; the key function itself is modelled for every year.
- Segmentation.DefaultSegments: its contract is stated through `LabelsFrom` and `TotalsFrom`, the series the stepped loop pushes. `Segmentation.FromIsChunks` connects these to the chunk labels and totals, and `Segmentation.RenderChart` states the result in those terms.
