# MTR-to-Prometheus exporter, modelled in Dafny

The repository holds three variants of an exporter. Each one takes the report of
`mtr` (a traceroute tool), turns it into hop records, scores the health of the
network path and writes the result in the Prometheus text exposition format:

* `mtrtografana-main/mtr_exporter.py` is the primary variant. It does the following:
  * parses `mtr --report` text;
  * normalises decoded hub records into hop records;
  * computes a path-health summary whose status is dominated by loss;
  * sanitises hostnames and label values;
  * renders the metric families, with per-hop series for responding hops only;
  * validates the rendered lines;
  * removes blank lines and makes sure the file ends with a newline.
* `mtr_exporter_enhanced.py` is an earlier variant:
  * it takes path loss as the maximum loss over all hops;
  * its status depends only on the score;
  * it renders `# HELP`/`# TYPE` blocks for every hop, without sanitising labels.
* `mtr_exporter.py` (at the root) has one serialiser, `format_prometheus_metrics`.
  It stamps every sample with a timestamp and emits two series per hub.

The Dafny modules follow that structure:

| module | file | models |
|---|---|---|
| `Wrappers` | wrappers.dfy | `Option` |
| `Text` | text.dfy | Python `str.strip`, `str.split()`, `str.split(sep)`, `sep.join`, `rstrip(c)` and character filtering |
| `Numbers` | numbers.dfy | `int()` and `float()` of decimal tokens; `str(int)`; the fixed-point formatter behind `format_float` |
| `Hops` | hops.dfy | the decoded hub record (numeric fields are Python `int` or `float`), the report, and the primary hop record |
| `TextParser` | text_parser.dfy | `parse_mtr_text_output` (shared by both variants that have it) |
| `Normalise` | normalise.dfy | the primary `parse_mtr_data` |
| `Health` | health.dfy | the primary `calculate_path_health_summary` |
| `Labels` | labels.dfy | `clean_hostname`, value cleaning, ordered label dictionaries with Python's `update`, and `build_labels` in both variants |
| `Exposition` | exposition.dfy | `validate_prometheus_metrics`; blank-line removal (line 572 and lines 756-757); the trailing-newline rule; and a two-slot file model of `atomic_write_metrics` |
| `Render` | render.dfy | the primary `generate_prometheus_metrics` |
| `EnhancedHealth` | enhanced_health.dfy | the enhanced `parse_mtr_data` and `calculate_path_health_summary` |
| `EnhancedRender` | enhanced_render.dfy | the enhanced `generate_prometheus_metrics` |
| `RootExporter` | root_exporter.dfy | the root `format_prometheus_metrics` |

**Loops and specifications.** Code that builds lists in loops is written as `method`s with loops:
* the text parser, the normaliser and the label builders;
* the per-family loops of both renderers;
* the validator;
* the root serialiser.

Each such method is proved equal to a specification function. The function's properties are proved as lemmas.

**Line datatypes.** Both `HELP`/`TYPE` renderers describe their output first as a sequence of structured lines: a header, a sample of a metric with a label set and a value, or a blank. `LineText` is the only place that turns a line into text. So the layout lemmas refer to metrics and label sets, not to string literals.

## Model

| member | source | states |
|---|---|---|
| Text.Strip | mtrtografana-main/mtr_exporter.py:120 | The result of `strip()` is no longer than the input, and its first and last characters are not whitespace. |
| Text.StripTrims | mtrtografana-main/mtr_exporter.py:120 | `strip()` returns a slice `s[i..j]` of its input, and the parts it cuts off on either side are all whitespace. |
| Text.StripEmpty | mtrtografana-main/mtr_exporter.py:127-129 | A stripped line is empty exactly when the line is all whitespace, which is the skip test at line 128. |
| Text.StripIdempotent | mtrtografana-main/mtr_exporter.py:120-127 | Stripping twice equals stripping once (line 127 strips lines again). |
| Text.Words | mtrtografana-main/mtr_exporter.py:138 | `split()` yields only non-empty tokens without whitespace. |
| Text.WordsOfJoinSpaced | mtrtografana-main/mtr_exporter.py:138 | Splitting a line made of tokens joined by whitespace gives back exactly those tokens. |
| Text.WordsOfJoinRuns | mtrtografana-main/mtr_exporter.py:138 | Splitting words separated by runs of whitespace of any lengths gives back exactly those words. |
| Text.Split | mtrtografana-main/mtr_exporter.py:120 | `split(sep)` yields at least one piece, and no piece contains the separator. |
| Text.JoinSplit | mtrtografana-main/mtr_exporter.py:572 | Joining the pieces of `split(sep)` with `sep` rebuilds the original text. |
| Text.SplitJoinLines | mtrtografana-main/mtr_exporter.py:494-498 | Splitting a join of separator-free lines gives exactly those lines back. |
| Text.RStripChar | mtrtografana-main/mtr_exporter.py:160 | `rstrip('%')` removes exactly the trailing run of that character. |
| Text.ReplaceCharAppend | mtrtografana-main/mtr_exporter.py:321 | `replace` of a one-character pattern works piece by piece: replacing in `a + b` is replacing in `a`, then in `b`. |
| Text.ReplaceCharOne | mtrtografana-main/mtr_exporter.py:321 | One character becomes the replacement when it is the pattern, and is kept otherwise. |
| Text.ReplaceAllSkip | mtrtografana-main/mtr_exporter.py:318 | Text without the pattern's first character is copied unchanged before the rest is scanned. |
| Text.ReplaceAllFront | mtrtografana-main/mtr_exporter.py:318 | A match at the front is replaced, and scanning resumes right after it. |
| Text.Filter | mtrtografana-main/mtr_exporter.py:324 | The filtered string keeps only characters that satisfy the predicate. |
| Text.FilterKeepsAll | mtrtografana-main/mtr_exporter.py:324 | Filtering a string whose characters all pass leaves it unchanged. |
| Text.FilterAppend | mtrtografana-main/mtr_exporter.py:324 | Filtering a concatenation filters each part, in order. |
| Text.FilterOne | mtrtografana-main/mtr_exporter.py:324 | A single character is kept exactly when it passes. With `FilterAppend`, every passing character is kept in order and no other. |
| Numbers.ParseIntDigits | mtrtografana-main/mtr_exporter.py:147 | `int()` of a digit string, with or without a leading `-`, is its decimal value. |
| Numbers.IntToStringRoundTrip | mtrtografana-main/mtr_exporter.py:398 | `int(str(n)) == n` for every integer. |
| Numbers.IntToStringIsFloat | mtrtografana-main/mtr_exporter.py:518-519 | `str(n)` of an integer is accepted by `float()` with value n, so integer samples pass the validator. |
| Numbers.ParseFloatUnpadded | mtrtografana-main/mtr_exporter.py:172-176 | `float()` of a token without surrounding whitespace is the signed-decimal reading of that token. |
| Numbers.FormatFixedRoundTrip | mtrtografana-main/mtr_exporter.py:360-363 | Reading back `format_float(v, p)` with `float()` gives v rounded to p decimals. |
| Numbers.Truncate | mtrtografana-main/mtr_exporter.py:223 | `int()` of a float truncates toward zero: the result keeps the sign and lies within 1 of the value, on the zero side. |
| Numbers.NatToStringValue | mtrtografana-main/mtr_exporter.py:398 | The decimal digits of a natural number read back as that number. |
| TextParser.FirstLoss | mtrtografana-main/mtr_exporter.py:156-162 | The search returns the first token ending in `%`: every earlier token fails the test. |
| TextParser.FindLoss | mtrtografana-main/mtr_exporter.py:156-166 | The loop yields the index of the first `%` token, or -1 when there is none. |
| TextParser.ParseLine | mtrtografana-main/mtr_exporter.py:127-197 | One loop iteration gives the outcome that the line rules assign to the raw line: skipped, with the reason, or a parsed hub. |
| TextParser.ParseTextOutput | mtrtografana-main/mtr_exporter.py:118-200 | The result is `{'report': {'hubs': ...}}`, listing the parsed line outcomes in line order. |
| TextParser.ParsedHubsStep | mtrtografana-main/mtr_exporter.py:126 | Each further line appends exactly that line's hubs, zero or one. |
| TextParser.ParsedHubsAppend | mtrtografana-main/mtr_exporter.py:126-197 | The hubs of concatenated line lists are the concatenated hubs. The parser keeps encounter order and never aborts. |
| TextParser.ParsedHubsAround | mtrtografana-main/mtr_exporter.py:126-197 | A skipped line contributes nothing, and the lines around it are parsed unchanged. |
| TextParser.BlankLine | mtrtografana-main/mtr_exporter.py:127-129 | A line is skipped as blank exactly when it is all whitespace. |
| TextParser.TokensNeverBlank | mtrtografana-main/mtr_exporter.py:138-197 | Once tokens exist, the later stages never report a blank line. |
| TextParser.ParsedLine | mtrtografana-main/mtr_exporter.py:128-142 | A parsed line is not blank, not a `Start:`/`HOST:` header, and is a data line. |
| TextParser.ParsedParts | mtrtografana-main/mtr_exporter.py:142-192 | A parsed line has at least 7 tokens and an integer before the first `.`. Its loss is the first `%` token, at least 5 values follow it, and the hub has exactly those values. |
| TextParser.UnknownHost | mtrtografana-main/mtr_exporter.py:153 | Host `???` becomes `hop_<n>`, and the number can be read back from it. |
| TextParser.StdDevDefault | mtrtografana-main/mtr_exporter.py:169-176 | With exactly 5 values StDev is 0.0. Otherwise StDev is `float()` of the sixth value, and Snt is `int()` of the first. |
| TextParser.TokenConversions | mtrtografana-main/mtr_exporter.py:145-176 | On a whitespace-free token, `float()`, `int()`, `rstrip('%')` and the hop prefix conversion are exactly the restricted parsers the model uses. |
| TextParser.SampleLine | mtrtografana-main/mtr_exporter.py:135 | The sample line's tokens give count 1, host `_gateway`, Loss% 0.0, Snt 10, Last 1.6, Avg 1.6, Best 1.6, Wrst 1.8 and StDev 0.1. |
| TextParser.IndentedHopLine | mtrtografana-main/mtr_exporter.py:126-138 | An indented line whose text starts with a hop prefix such as `1.|` is stripped, is neither blank nor a header, is taken as a data line, and its words are parsed. |
| TextParser.SampleRawLine | mtrtografana-main/mtr_exporter.py:126-192 | The sample line quoted at line 135, with its indentation and its runs of spaces, parses to hop 1 at `_gateway` with Loss% 0.0, Snt 10 and Last/Avg/Best/Wrst/StDev 1.6/1.6/1.6/1.8/0.1. |
| TextParser.SampleValues | mtrtografana-main/mtr_exporter.py:169-176 | The numeric tail of the sample line reads as 10, 1.6, 1.6, 1.6, 1.8 and 0.1. |
| TextParser.SampleHop | mtrtografana-main/mtr_exporter.py:145-147 | The token `1.\|--` gives hop number 1. |
| TextParser.SampleLoss | mtrtografana-main/mtr_exporter.py:159-160 | The token `0.0%` gives loss 0.0. |
| Normalise.NumInt | mtrtografana-main/mtr_exporter.py:223 | `int()` of a decoded number. An int is kept. For a float the result is within one of the value on the zero side and has the value's sign: truncation toward zero. |
| Normalise.ParseMtrData | mtrtografana-main/mtr_exporter.py:202-232 | There are no hops when `report` or `hubs` is absent. Otherwise there is exactly one hop per hub, in order, each the normalised hub. |
| Normalise.Defaults | mtrtografana-main/mtr_exporter.py:219-229 | An empty hub gives hop 0, host `unknown` and 0 or 0.0 for every number. |
| Normalise.PresentFields | mtrtografana-main/mtr_exporter.py:221-228 | Present fields are kept, converted with `float()`. |
| Normalise.CountCoercion | mtrtografana-main/mtr_exporter.py:212-217 | A string `count` that `int()` rejects becomes 0. A string holding an integer, possibly with leading whitespace, becomes that integer. |
| Normalise.ParsedHubToHop | mtrtografana-main/mtr_exporter.py:181-192 | A hub made by the text parser normalises to the hop with the same values. |
| Health.ValidHops | mtrtografana-main/mtr_exporter.py:240 | Every kept hop responds, meaning its loss is below 100. |
| Health.SilentHops | mtrtografana-main/mtr_exporter.py:390 | Every kept hop is silent, meaning its loss is at least 100. |
| Health.ValidHopsAppend | mtrtografana-main/mtr_exporter.py:240 | Filtering a concatenation filters each part, in order. |
| Health.ValidHopsOne | mtrtografana-main/mtr_exporter.py:240 | A single hop is kept exactly when its loss is below 100. With `ValidHopsAppend`, every responding hop is kept in hop order, once, and no other. |
| Health.SilentHopsAppend | mtrtografana-main/mtr_exporter.py:390 | Filtering a concatenation filters each part, in order. |
| Health.SilentHopsOne | mtrtografana-main/mtr_exporter.py:390 | A single hop is kept exactly when its loss is at least 100. With `SilentHopsAppend`, every silent hop is kept in hop order, once, and no other. |
| Health.Partition | mtrtografana-main/mtr_exporter.py:389-390 | The responding count plus the silent count is the hop count. |
| Health.ValidHopsMembers | mtrtografana-main/mtr_exporter.py:240 | A hop is among the valid hops exactly when it is in the list and responds. |
| Health.Max | mtrtografana-main/mtr_exporter.py:268 | `max` is at least every element and is one of them. |
| Health.Min | mtrtografana-main/mtr_exporter.py:272 | `min` is at most every element and is one of them. |
| Health.SummaryShape | mtrtografana-main/mtr_exporter.py:236-311 | The summary is empty exactly when there are no hops. Otherwise it holds the hop count, the responding count, and the end-to-end loss, RTT and jitter of the reference hop. |
| Health.LastValid | mtrtografana-main/mtr_exporter.py:252-256 | When some hop responds, the reference hop is a responding hop, and no hop after it responds. |
| Health.NoResponder | mtrtografana-main/mtr_exporter.py:242-248 | With no responding hop, the reference is the last hop. Average and maximum jitter are its jitter, and variance and average loss are 0. |
| Health.Variance | mtrtografana-main/mtr_exporter.py:270-272 | The RTT variance is non-negative and bounds every difference between two responding hops' average RTTs. |
| Health.ScoreBounds | mtrtografana-main/mtr_exporter.py:280-285 | For non-negative inputs the score lies in [0, 100]. |
| Health.ScoreMonotone | mtrtografana-main/mtr_exporter.py:280-285 | The score does not increase with end-to-end loss, jitter, RTT or variance. |
| Health.StatusRules | mtrtografana-main/mtr_exporter.py:288-299 | CRITICAL exactly when loss > 50. POOR exactly when 10 < loss <= 50, or when loss <= 10 and score < 60. EXCELLENT, GOOD and FAIR need loss <= 10 and a score of at least 90, 75 or 60 respectively. |
| Labels.CleanValue | mtrtografana-main/mtr_exporter.py:351-353 | A cleaned value has only ASCII letters, digits and `-_.:/`. |
| Labels.CleanValueSafe | mtrtografana-main/mtr_exporter.py:351-353 | A value already made of safe characters is unchanged. |
| Labels.CleanValueIdempotent | mtrtografana-main/mtr_exporter.py:351-353 | Cleaning twice equals cleaning once. |
| Labels.CleanValueQuoted | mtrtografana-main/mtr_exporter.py:351-357 | A cleaned value has no quote, comma, space or newline, so it cannot break `key="value"`. |
| Labels.CleanValueAppend | mtrtografana-main/mtr_exporter.py:351-353 | Cleaning works character by character: cleaning `a + b` is cleaning `a`, then `b`. |
| Labels.CleanValueOne | mtrtografana-main/mtr_exporter.py:351-353 | One character becomes `_` if it is a space, stays if it is safe, and is dropped otherwise. With `CleanValueAppend`, this fixes every cleaned value. |
| Labels.CleanValueEmpty | mtrtografana-main/mtr_exporter.py:351-353 | Cleaning leaves nothing exactly when the value has no space and no safe character. |
| Labels.CleanHostnameProperties | mtrtografana-main/mtr_exporter.py:315-330 | `clean_hostname` is never empty, has only safe characters, and is idempotent. |
| Labels.CleanHostnameSilent | mtrtografana-main/mtr_exporter.py:317-318 | The host `???` becomes `hop_<n>_silent`. |
| Labels.ReplaceMarker | mtrtografana-main/mtr_exporter.py:318 | In a host with one `???` and no other `?`, `replace` substitutes exactly that marker. |
| Labels.CleanHostnameMarker | mtrtografana-main/mtr_exporter.py:315-330 | A `???` inside a host becomes `hop_<n>_silent`, and the text on either side is cleaned. |
| Labels.CleanHostnameFallback | mtrtografana-main/mtr_exporter.py:320-330 | A host without `?` is cleaned like a label value. It falls back to `hop_<n>` exactly when cleaning leaves nothing, or when it cleans to `hop_<n>` itself. |
| Labels.Update | mtrtografana-main/mtr_exporter.py:337 | The loop performs `dict.update`: existing keys keep their position and take the last value, and new keys are appended in order. |
| Labels.PutLookup | mtrtografana-main/mtr_exporter.py:340-341 | `d[k] = v` makes k map to v and leaves every other key alone. |
| Labels.PutKeys | mtrtografana-main/mtr_exporter.py:340-341 | `d[k] = v` keeps the key order, appends k when it is new, and keeps keys unique. |
| Labels.UpdateAllLookup | mtrtografana-main/mtr_exporter.py:344-345 | After `update(e)` a key holds e's last value for it if e has one, and otherwise its old value. |
| Labels.UpdateAllPrefix | mtrtografana-main/mtr_exporter.py:344-345 | `update` keeps the existing keys, in order, as a prefix. |
| Labels.UpdateAllKeys | mtrtografana-main/mtr_exporter.py:344-345 | After `update(e)` the keys are exactly the old keys and e's keys. |
| Labels.UpdateAllUnique | mtrtografana-main/mtr_exporter.py:344-345 | `update` keeps keys unique. |
| Labels.MergeProperties | mtrtografana-main/mtr_exporter.py:334-345 | Custom keys come first. `target` and `probe` hold the settings unless the extras override them. |
| Labels.UpdateAllOrder | mtrtografana-main/mtr_exporter.py:337 | `d.update(e)` lists the keys of `d` in their order, then the keys of `e` that are new, each where it first appears. |
| Labels.MergeOrder | mtrtografana-main/mtr_exporter.py:334-345 | The merged keys, in order: the custom keys as they first appear, then `target` and `probe` unless a custom label has them, then the new extra keys as they first appear. |
| Labels.MergeKeys | mtrtografana-main/mtr_exporter.py:334-345 | The merged keys are exactly the custom keys, `target`, `probe` and the extra keys. |
| Labels.MergeCustom | mtrtografana-main/mtr_exporter.py:337-345 | A custom key that is not overridden keeps its last custom value. |
| Labels.CleanAll | mtrtografana-main/mtr_exporter.py:348-354 | The loop cleans every value and keeps every key and its order. |
| Labels.CleanValuesLookup | mtrtografana-main/mtr_exporter.py:348-354 | Cleaning keeps the keys, and each key maps to its cleaned value. |
| Labels.JoinPairs | mtrtografana-main/mtr_exporter.py:357-358 | The loop produces `key="value"` pairs joined with commas. |
| Labels.BuildLabels | mtrtografana-main/mtr_exporter.py:332-358 | `build_labels` is the label text of the cleaned merge of custom labels, target, probe and extras. |
| Labels.BuildRawLabels | mtr_exporter_enhanced.py:260-277 | The enhanced `build_labels` is the label text of the uncleaned merge. |
| Labels.CleanLabelTextNoNewline | mtrtografana-main/mtr_exporter.py:348-358 | With newline-free keys, the cleaned label text has no newline. |
| Labels.LabelTextNoNewline | mtr_exporter_enhanced.py:276-277 | Newline-free keys and values give newline-free label text. |
| Exposition.LastIndex | mtrtografana-main/mtr_exporter.py:510 | `rsplit(' ', 1)` splits at the last space: the character there is a space and no later one is. |
| Exposition.CheckLine | mtrtografana-main/mtr_exporter.py:500-522 | One iteration accepts exactly the lines that are non-blank once stripped, contain a space, and end in a float token. |
| Exposition.Validate | mtrtografana-main/mtr_exporter.py:496-524 | The validator returns true exactly when every line of the stripped content is valid. |
| Exposition.BlankRejected | mtrtografana-main/mtr_exporter.py:501-503 | Content with a blank line is rejected. |
| Exposition.EmptyRejected | mtrtografana-main/mtr_exporter.py:498-503 | All-whitespace content is rejected. |
| Exposition.MetricLineValid | mtrtografana-main/mtr_exporter.py:505-522 | `prefix value` is valid once the prefix is non-empty, starts with no space and has no newline, and the value is a float literal. |
| Exposition.LinesValid | mtrtografana-main/mtr_exporter.py:496-524 | A newline join of tidy, valid lines passes the validator. |
| Exposition.TidyLines | mtrtografana-main/mtr_exporter.py:498 | Stripping and splitting a join of tidy lines gives back the lines. |
| Exposition.NonBlank | mtrtografana-main/mtr_exporter.py:572 | The kept lines are non-blank lines of the input. |
| Exposition.NonBlankAppend | mtrtografana-main/mtr_exporter.py:572 | Filtering a concatenation filters each part, in order. |
| Exposition.NonBlankOne | mtrtografana-main/mtr_exporter.py:572 | A single line is kept exactly when it is not blank. With `NonBlankAppend`, every non-blank line is kept in order and no other. |
| Exposition.NonBlankMembers | mtrtografana-main/mtr_exporter.py:572 | A line is kept exactly when it is one of the input lines and is not blank. |
| Exposition.NonBlankKeepsAll | mtrtografana-main/mtr_exporter.py:572 | Without blank lines nothing is removed. |
| Exposition.NonBlankEmpty | mtrtografana-main/mtr_exporter.py:572 | Nothing is kept exactly when every line is blank. |
| Exposition.KeptLines | mtrtografana-main/mtr_exporter.py:572 | The cleaned text splits into exactly the kept lines. |
| Exposition.CleanNoBlank | mtrtografana-main/mtr_exporter.py:572 | The cleaned text is empty exactly when every line was blank. Otherwise none of its lines is blank. |
| Exposition.CleanIdempotent | mtrtografana-main/mtr_exporter.py:572 | Removing blank lines twice equals removing them once. |
| Exposition.CleanTidy | mtrtografana-main/mtr_exporter.py:572 | A join of tidy lines is unchanged by cleaning. |
| Exposition.CleanedValidates | mtrtografana-main/mtr_exporter.py:572-575 | If every non-blank line is tidy (no whitespace at either end) and valid, the non-empty cleaned text passes the validator. |
| Exposition.CombineValid | mtrtografana-main/mtr_exporter.py:756-761 | When each output's non-blank lines are tidy (no whitespace at either end) and valid, so are the joined outputs' lines, and the cleaned join passes the validator. |
| Exposition.TrailingNewline | mtrtografana-main/mtr_exporter.py:533-536 | The written text ends with `\n` and starts with the content. At most one character is added, applying the rule twice adds nothing more, and validity is unchanged. |
| Exposition.MetricsFiles.constructor | mtrtografana-main/mtr_exporter.py:526 | There is no temporary file, and the destination keeps what it held. |
| Exposition.MetricsFiles.AtomicWrite | mtrtografana-main/mtr_exporter.py:526-552 | The temporary file is always gone. A failure before the rename leaves the destination unchanged. After the rename the destination holds the content with its trailing newline. |
| Render.HopLabels | mtrtografana-main/mtr_exporter.py:396-401 | The per-hop labels are the cleaned merge with `hop`, the cleaned host and `responding`. |
| Render.EmitFamily | mtrtografana-main/mtr_exporter.py:395-402 | A family loop emits one line per hop, in order. |
| Render.EmitPerHop | mtrtografana-main/mtr_exporter.py:393-459 | The seven family loops, run only when some hop responds. |
| Render.EmitHopInfo | mtrtografana-main/mtr_exporter.py:481-490 | One `mtr_hop_info` line per hop, in order. |
| Render.GenerateMetrics | mtrtografana-main/mtr_exporter.py:365-494 | The output is the newline join of the specified line sequence. |
| Render.Layout | mtrtografana-main/mtr_exporter.py:376-490 | `mtr_info` comes first. The line count is 1 + 5 (summary) + 7 × responding + 3 + 3 (end-to-end) + hops, with the summary and end-to-end parts present only when there are hops. |
| Render.PerHopOrder | mtrtografana-main/mtr_exporter.py:393-459 | Family f's line for the i-th responding hop sits at f·n + i within the per-hop block, where n is the number of responding hops. |
| Render.PerHopBlockAt | mtrtografana-main/mtr_exporter.py:376-459 | The per-hop block starts at line 6 of the output, after `mtr_info` and the five summary lines. With PerHopOrder, family f's line for the i-th responding hop is output line 6 + f·n + i. |
| Render.HopExtraLast | mtrtografana-main/mtr_exporter.py:397-401 | The extras set `hop`, `host` and `responding`, not `target` or `probe`. |
| Render.MergedHop | mtrtografana-main/mtr_exporter.py:334-345 | A per-hop merge maps `hop`, `host` and `responding` to the extras, and `target` and `probe` to the settings. |
| Render.HopLabelValues | mtrtografana-main/mtr_exporter.py:396-401 | The rendered hop labels hold the hop number, the cleaned host, the responding flag, and the cleaned target and probe. |
| Render.HopInfoResponding | mtrtografana-main/mtr_exporter.py:482-490 | Every hop's `mtr_hop_info` line is at its index and carries `responding="true"` exactly when its loss is below 100, else `"false"`. |
| Render.Counts | mtrtografana-main/mtr_exporter.py:461-468 | The silent, total and responding counts are hops − responding, hops and responding, so silent + responding equals `mtr_hop_count`. |
| Render.EndToEndReference | mtrtografana-main/mtr_exporter.py:470-478 | The end-to-end lines show the reference hop's loss (1 decimal), RTT and jitter (2 decimals). |
| Render.RenderedValid | mtrtografana-main/mtr_exporter.py:365-575 | With newline-free label keys and protocol, every rendered line is tidy and valid. The output passes the validator and blank-line removal leaves it unchanged. |
| Render.AllLinesGood | mtrtografana-main/mtr_exporter.py:365-494 | Every rendered line is a tidy, valid metric line. |
| Render.GoodText | mtrtografana-main/mtr_exporter.py:494-572 | A join of tidy, valid lines splits back into those lines, validates, and is unchanged by cleaning. |
| EnhancedHealth.ParseMtrData | mtr_exporter_enhanced.py:173-195 | There are no hops without `report` or `hubs`. Otherwise there is one hop per hub, in order, with the hub's values unconverted. |
| EnhancedHealth.RawDefaults | mtr_exporter_enhanced.py:182-192 | An empty hub gives count 0, host `unknown`, int 0 for Snt and float 0.0 for the rest. |
| EnhancedHealth.RawKeepsFields | mtr_exporter_enhanced.py:183-186 | A string `count` stays a string, unlike in the primary variant, and present fields are kept as given. |
| EnhancedHealth.MaxNum | mtr_exporter_enhanced.py:209 | `max` of Python numbers is at least every element and is one of them. |
| EnhancedHealth.MaxNumFirst | mtr_exporter_enhanced.py:209 | On ties `max` returns the first largest element: every element before it is strictly smaller. |
| EnhancedHealth.MinNum | mtr_exporter_enhanced.py:224 | `min` of Python numbers is at most every element and is one of them. |
| EnhancedHealth.MinNumFirst | mtr_exporter_enhanced.py:224 | On ties `min` returns the first smallest element: every element before it is strictly larger. |
| EnhancedHealth.NumSub | mtr_exporter_enhanced.py:224 | The difference is an `int` exactly when both operands are ints, and its value is the difference of the values. |
| EnhancedHealth.NumDouble | mtr_exporter_enhanced.py:227 | `x * 2` is an `int` exactly when `x` is, and its value is twice the value. |
| EnhancedHealth.MinCap | mtr_exporter_enhanced.py:228-230 | `min(x, cap)` has the value of the smaller one, and is the `int` cap exactly when the cap is strictly smaller. |
| EnhancedHealth.ValidHops | mtr_exporter_enhanced.py:203 | Every kept hop has loss below 100. |
| EnhancedHealth.ValidHopsAppend | mtr_exporter_enhanced.py:203 | Filtering a concatenation filters each part, in order. |
| EnhancedHealth.ValidHopsOne | mtr_exporter_enhanced.py:203 | A single hop is kept exactly when its loss is below 100. With `ValidHopsAppend`, every such hop is kept in order and no other. |
| EnhancedHealth.AnyValid | mtr_exporter_enhanced.py:203-206 | Some hop is kept exactly when some hop has loss below 100. |
| EnhancedHealth.SummaryExists | mtr_exporter_enhanced.py:199-206 | The summary exists exactly when some hop has loss below 100, which needs at least one hop. |
| EnhancedHealth.SummaryFigures | mtr_exporter_enhanced.py:209-224 | Path loss is the maximum loss over all hops, silent ones included. RTT and jitter are the last hop's, and the counts are the hop and valid-hop counts. |
| EnhancedHealth.ScoreValue | mtr_exporter_enhanced.py:227-244 | The score is max(0, 100 − penalties), and the status follows from the score. |
| EnhancedHealth.VarianceNonNegative | mtr_exporter_enhanced.py:222-224 | The RTT variance is non-negative. |
| EnhancedHealth.ScoreClamped | mtr_exporter_enhanced.py:232 | The score is at least 0, and at most 100 for non-negative hop figures. |
| EnhancedHealth.HeavyLossCritical | mtr_exporter_enhanced.py:209-244 | Any hop with loss >= 50 forces score 0 and status CRITICAL, given a non-negative last-hop RTT and jitter. |
| EnhancedHealth.StatusRules | mtr_exporter_enhanced.py:234-244 | EXCELLENT at >= 90, GOOD at 75-90, FAIR at 60-75, POOR at 40-60, otherwise CRITICAL, each exactly. |
| EnhancedRender.EmitHead | mtr_exporter_enhanced.py:289-320 | The info block and, when there is a summary, the five summary blocks. |
| EnhancedRender.EmitFamily | mtr_exporter_enhanced.py:322-328 | A family block is HELP, TYPE, one sample per hop in order, and a blank. |
| EnhancedRender.EmitPerHop | mtr_exporter_enhanced.py:322-376 | The seven family blocks, in order, for all hops. |
| EnhancedRender.EmitTail | mtr_exporter_enhanced.py:378-406 | The hop-count block, the end-to-end blocks and the timestamp block. |
| EnhancedRender.FormatLine | mtr_exporter_enhanced.py:290-406 | A line's text, with the labels built by the enhanced `build_labels` for hop series. |
| EnhancedRender.Format | mtr_exporter_enhanced.py:290-406 | Every line is rendered, in order. |
| EnhancedRender.GenerateMetrics | mtr_exporter_enhanced.py:279-408 | The output is the newline join of the rendered specified lines. |
| EnhancedRender.Layout | mtr_exporter_enhanced.py:289-406 | The line count is 31 + 7 × hops, plus 20 with a summary and 13 with hops. The first four lines are the info block, and the last line is the timestamp sample. |
| EnhancedRender.PerHopRow | mtr_exporter_enhanced.py:322-376 | Within the per-hop part, family f's sample for hop i sits at f·(n+3) + 2 + i. |
| EnhancedRender.EveryHopReported | mtr_exporter_enhanced.py:322-376 | Every hop, silent or not, has a sample in every family, at a known position of the output. |
| EnhancedRender.RawExtraLast | mtr_exporter_enhanced.py:326 | A hop's extras set `hop` to `str(count)` and `host` to the raw host, and nothing else. |
| EnhancedRender.RowLabels | mtr_exporter_enhanced.py:260-277 | Hop labels have unique keys. They map `hop` and `host` to the extras and `target` and `probe` to the settings, and keep every other custom label's last value, uncleaned. |
| EnhancedRender.HealthScoreLine | mtr_exporter_enhanced.py:296-299 | Line 6 is the health score sample, rounded to one decimal. |
| EnhancedRender.ZeroScoreText | mtr_exporter_enhanced.py:232-299 | A clamped integer score 0 is written as `0`, not `0.0`. |
| EnhancedRender.HeavyLossScoreText | mtr_exporter_enhanced.py:209-299 | A hop with loss >= 50 makes the rendered health score line `mtr_path_health_score{...} 0`. |
| EnhancedRender.EndToEndFromLastHop | mtr_exporter_enhanced.py:385-401 | There are end-to-end blocks exactly when there are hops. They show the last hop's loss, RTT and jitter, whether or not it responds. |
| EnhancedRender.HopCountSeries | mtr_exporter_enhanced.py:378-383 | The hop-count block has a sample exactly when there are hops, its value is the hop count, and the block ends with a blank. |
| RootExporter.CustomParts | mtr_exporter.py:81-83 | One `key="value"` part per custom label, in the given order. |
| RootExporter.BuildBaseLabels | mtr_exporter.py:80-89 | The loop builds the custom parts, then `target`, then `probe`, joined with commas. |
| RootExporter.BaseLabelsOrder | mtr_exporter.py:80-89 | Without custom labels the base labels are `target`, then `probe`. Otherwise they are the custom parts, then `target`, then `probe`. |
| RootExporter.BuildLines | mtr_exporter.py:92-129 | Sixteen header and end-to-end lines, then two lines per hub. |
| RootExporter.Format | mtr_exporter.py:94-129 | Every line is rendered in order, with the base labels and the timestamp. |
| RootExporter.FormatPrometheusMetrics | mtr_exporter.py:64-131 | The label loop, the line loop and the formatting loop together return `Exposition`, the intended text. Where the module as written raises (see Findings), it returns `""`. |
| RootExporter.EmptyExactlyWithoutHubs | mtr_exporter.py:66-131 | In the intended behaviour (see Findings), the result is `""` exactly when the data is falsy or has no `report`, no `hubs` or empty `hubs`. Otherwise it ends with `\n`. |
| RootExporter.AsWrittenRaisesWithoutHubs | mtr_exporter.py:66-74 | As written, the function raises `NameError` for `logging` exactly when a report is present and its `hubs` is absent or empty. There the intended result is `""`, and on every other input the two agree. |
| RootExporter.EmptyReportRaises | mtr_exporter.py:66-74 | For `{"report": {}}` the module as written raises `NameError`, where the intended result is `""`. |
| RootExporter.EndToEndFromLastHub | mtr_exporter.py:92-112 | The end-to-end RTT, loss and jitter are the last hub's `Avg`, `Loss%` and `StDev`, each defaulting to 0. The hop count is the number of hubs. |
| RootExporter.HubSeries | mtr_exporter.py:121-129 | Hub i produces the avg line at 16+2i and the loss line at 17+2i. Its `hop` label is i+1, not the hub's `count`, and its host defaults to `unknown`. |
| RootExporter.SampleTimestamp | mtr_exporter.py:76-129 | Every sample line ends with a space and the same timestamp. |
| RootExporter.CommentsAreHeaders | mtr_exporter.py:94-129 | A rendered line starts with `#` exactly when it is a HELP or TYPE header. |
| RootExporter.NamePrefix | mtr_exporter.py:94-129 | Every metric name starts with `mtr_`. |

## Left out

- `run_mtr` in all three files is not modelled: it runs a subprocess and has timeouts, `sys.exit` and the JSON-then-text fallback. Input to the model is an already-decoded report value.
- JSON decoding is not modelled, only its result. A numeric hub field is absent, an `int` or a `float`. `count` is absent, an `int` or a string; a float `count` (which `str()` would print as `hop="1.0"`) is not represented. JSON `null`, booleans, lists and string-valued numeric fields are not represented.
- The OS calls of `atomic_write_metrics` (`mkstemp`, `fsync`, `rename`, `chmod`, `unlink`) are reduced to the two-slot model `Exposition.MetricsFiles`, with a fault parameter choosing where a call fails.
- Configuration and the command line are not modelled: `load_config`/YAML, `argparse`, `main`, `show_help`, and the orchestration in `run_config_mode`. Only the pure join and clean at lines 756-757 are kept, as `Exposition.CombineProbes`.
- `setup_logging` in the root exporter is not modelled; it uses a `logging` module the file never imports. The same missing import in `format_prometheus_metrics` is listed under Findings.
- Console output, `sys.exit`, the read-back check of the written file (lines 592-610) and the printed summaries of `export_to_file` in both variants are left out. They do not change the metrics.
- `format_float` rounds the binary double half-to-even. `Numbers.FormatFixed` rounds the exact decimal value half-up.
- `round(health_score, 1)` is modelled by `Numbers.RoundTo`, which rounds the exact value half-up.
- Python `str()` of a float is the parameter `repr` in `EnhancedRender` and `RootExporter`. Its digits are not modelled.
- `float()` accepts forms beyond a signed decimal with an optional point (`inf`, `nan`, exponents, underscores). The model's parser rejects them, so such a token makes a line skipped rather than parsed.
- `str.isalnum` is Unicode-aware. `Labels.IsSafe` uses ASCII letters and digits.
- `Text.IsSpace` is the ASCII whitespace set: space, tab to carriage return, and `\x1c`-`\x1f`. Python's `strip()` and `split()` also treat U+0085, U+00A0, U+1680, U+2000-U+200A, U+2028, U+2029, U+202F, U+205F and U+3000 as whitespace; the model treats them as ordinary characters.
- Floating point is modelled by exact reals: sums, means, variance, the penalties, the loss cut-off below 100 and the score thresholds 90/75/60/40. Binary rounding in the source can put a value on the other side of a threshold than the exact value.
- `int()` also accepts underscores between digits (`int("1_0") == 10`) and non-ASCII decimal digits. `Numbers.ParseInt` and `Numbers.StrToInt` reject them, so such a count or Snt token is treated as malformed.
- The validator's `float(value_part)` (mtrtografana-main/mtr_exporter.py:517-519) accepts `nan`, `inf` and exponent forms such as `1e3`. `Numbers.ParseFloat` rejects them, so the model's validator refuses lines the source accepts.
- `time.time()` is the parameter `timestamp` in the enhanced and root renderers.
- `mtr_metrics.py` and `mtr_metrics_multi.py` are bash wrapper scripts, not exporter logic, and are not part of this model.
- Render.RenderedValid: assumes custom label keys and the protocol contain no newline. The source does not clean keys, so a newline in one would split a line.
- RootExporter.BaseLabels: a custom label named `target` or `probe` is written twice, as the source does, and is not overridden.
- TextParser.ParseTextOutput: one model serves both variants, which skip the same lines. The enhanced variant has no inner `try` around the hop number (mtr_exporter_enhanced.py:120-121), so a bad hop prefix is caught by the outer `except`, and the line is still skipped. The per-line diagnostics it prints are left out.
- Exposition.CleanedValidates: proved only when every non-blank line is tidy, meaning no whitespace at either end. The validator strips each line, so the source also accepts padded valid lines; the model does not prove that case.
- Exposition.CombineValid: proved under the same tidy-line assumption as `CleanedValidates`.
- EnhancedRender.HeavyLossScoreText: assumes the last hop's RTT and jitter are non-negative, as `HeavyLossCritical` does.
- EnhancedHealth.HeavyLossCritical: assumes the last hop's RTT and jitter are non-negative, as `mtr` reports them. With negative figures the penalties could offset the loss.

## Findings

| source | as written | input that shows it | evidently intended | confidence | as-written member | corrected member |
|---|---|---|---|---|---|---|
| mtr_exporter.py:73 | `logging.warning(...)` on the no-hubs path, but the module never imports `logging`, so the lookup raises `NameError` | `{"report": {}}` or `{"report": {"hubs": []}}` | log a warning and return `""` | not executed | RootExporter.EmptyReportRaises | RootExporter.EmptyExactlyWithoutHubs |
