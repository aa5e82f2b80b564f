# Excel visualizer — a Dafny model

Two small desktop applications let a user open a spreadsheet and preview aggregates or charts of
its columns:

- `Excel-visualizer.py`: chart type, pie column, bar (X, Y) pair, line column, plus
  sum/max/min aggregates over two fixed pairs of fields.
- `Excel-visualizer-basic.py.py`: one column, one chart type.

The model covers the logic the two applications write themselves. It leaves out the Qt widgets,
the spreadsheet reader, and the table and plotting libraries they call.

- **Column-name resolver** (module `Resolver`).
  - `_norm` lower-cases, drops `_` and drops whitespace.
  - The dict comprehension `{_norm(c): c for c in df.columns}` is modelled as an insertion-ordered
    sequence of entries. A repeated key keeps its first position and takes the last header.
  - `resolve_columns` is a method with the source's `for` loop. It is proved equal to the
    per-key function `ResolveKey`, and the precedence rules are proved about that function: an
    exact match wins; otherwise the first related key in map order decides; otherwise None.
- **Log buffer** (module `LogBuffer`, plus `Log` in each `App` class).
  - `_log` appends a line and takes out line 0 once the list holds more than 120 lines (60 in the
    basic variant).
  - Any sequence of calls is proved to keep exactly the newest `cap` lines.
- **Session state** of each application (class `App` in `Visualizer` and in `BasicVisualizer`).
  - `open_excel` takes two inputs: the dialog's path and the reader's result as an
    `Option<Table>`. A cancelled dialog or a failed read changes nothing.
  - A load replaces the table. The rich variant also rebuilds the column map and the pie and
    line candidate lists. The basic variant also refills the column box and resets the preview.
  - The class invariant ties every derived field to the loaded table.
- **Request guards and dispatch**.
  - `run_metrics`, `draw_chart` and `run_viz` are pure functions (`Metrics`, `Draw`, `Viz`)
    returning an outcome: the refusal, the chart or aggregate requested, or "not implemented".
  - `MetricsNotes`, `DrawNotes` and `VizNotes` give the lines each outcome logs.
  - In `draw_chart` a stripped pie or line text that is no header makes `df[...]` raise
    KeyError, which the handler logs as a plot error (`UnknownColumn`). This happens for a header
    with surrounding whitespace, which the combo box lists as it is.
  - The `App` methods call these functions and log the lines through `Log`.

Modelling choices:

- Log lines are values of a `Note` datatype. `NoteText` gives each one's exact text.
- The thirteen `want_keys` and the five pie keys are written out in normal form ("salesperson",
  …). For every key the handlers look up, a lemma proves the key equal to `Norm` of the name the
  source normalises.
- Table, dialog and plotting results are parameters of the operations: the reader's table, the
  library's printed aggregate (`report`, `stat`) and a plotting exception (`failure`).
- A combo box's current text is `CurrentText(items, index)`. It is `""` when the index is out of
  range, as Qt gives for an empty box.
- `resolve_columns` looks each wanted key up **as given**: it never applies `_norm` to `want`.
  The model follows the code. `Resolver.UnnormalisedKeyHasNoExactMatch` shows that a key not in
  normal form can only be found by containment. The application itself only passes normal forms.

## Model

| member | source | states |
|---|---|---|
| Resolver.Norm | Excel-visualizer.py:14-15 | the result holds no upper-case letter, no `_` and no whitespace, and is no longer than the input |
| Resolver.NormFixesExactlyNormal | Excel-visualizer.py:14-15 | `_norm(s) == s` exactly when `s` has no upper-case letter, `_` or whitespace |
| Resolver.NormIdempotent | Excel-visualizer.py:14-15 | `_norm(_norm(s)) == _norm(s)` |
| Resolver.NormOfLetters | Excel-visualizer.py:14-15 | on a word of ASCII letters `_norm` keeps the length and lower-cases letter by letter |
| Resolver.NormOfWord | Excel-visualizer.py:14-15 | a word of ASCII letters normalises to its letter-by-letter lower-casing |
| Resolver.Find | Excel-visualizer.py:19 | the position of the first entry holding a key (no earlier entry holds it), or the length of the map when no entry does; with `DistinctKeys` that entry is the only one |
| Resolver.HasKey | Excel-visualizer.py:22 | `k in norm_map`; `LookupKeysAreNormalForms` states when it holds |
| Resolver.Get | Excel-visualizer.py:23 | `norm_map[k]` for a present key; `ExactMatchWins` states which header it gives |
| Resolver.Put | Excel-visualizer.py:19 | the comprehension's store `d[k] = v`; `PutExisting` and `PutFresh` state that each store keeps the dict faithful |
| Resolver.ExtendLast | Excel-visualizer.py:19 | a header stays the last one of its normal form when a header of another form follows |
| Resolver.ExtendFirstBefore | Excel-visualizer.py:19 | first-occurrence order of two forms is kept when a header is appended |
| Resolver.PutExisting | Excel-visualizer.py:19 | one comprehension step for a repeated form keeps the map a faithful dict of the longer header list |
| Resolver.PutExistingKeys | Excel-visualizer.py:19 | overwriting a key keeps every header's normal form a key |
| Resolver.PutExistingOrder | Excel-visualizer.py:19 | overwriting a key keeps the keys distinct and in first-occurrence order |
| Resolver.PutExistingLast | Excel-visualizer.py:19 | after overwriting, each entry holds the last header of its form |
| Resolver.FreshKeyIsNew | Excel-visualizer.py:19 | a form that is not a key belongs to no earlier header |
| Resolver.FreshKeyComesLast | Excel-visualizer.py:19 | a new form comes after every existing key in first-occurrence order |
| Resolver.PutFresh | Excel-visualizer.py:19 | one comprehension step for a new form keeps the map a faithful dict of the longer header list |
| Resolver.PutFreshKeys | Excel-visualizer.py:19 | appending a new key keeps keys distinct and every header's form a key |
| Resolver.PutFreshOrder | Excel-visualizer.py:19 | appending a new key keeps entries in first-occurrence order |
| Resolver.BuildNormMapDescribes | Excel-visualizer.py:19 | the lookup map has one entry per distinct normal form, holds the LAST header of that form, and orders entries by FIRST occurrence |
| Resolver.LookupKeysAreNormalForms | Excel-visualizer.py:19 | `k in norm_map` exactly when some header normalises to `k` |
| Resolver.BuildNormMap | Excel-visualizer.py:19 | the dict comprehension as an ordered entry list; its meaning is stated by `BuildNormMapDescribes` |
| Resolver.Candidates | Excel-visualizer.py:25 | every candidate is a key related to `w` by containment in either direction |
| Resolver.FirstRelated | Excel-visualizer.py:25-26 | the position returned is the first whose key is related to `w` |
| Resolver.FirstCandidate | Excel-visualizer.py:25-26 | the candidate list is empty exactly when no key is related, and otherwise starts with the first related key |
| Resolver.ResolveKey | Excel-visualizer.py:21-26 | an exact key always resolves, and a key resolves to nothing exactly when there is no exact key and the candidate list is empty |
| Resolver.FallbackIsFirstRelated | Excel-visualizer.py:25-26 | without an exact key the result is None exactly when no key is related, else the header of the first related key |
| Resolver.ResolvedIsHeader | Excel-visualizer.py:17-27 | every resolved value is one of the table's headers |
| Resolver.ExactMatchWins | Excel-visualizer.py:22-24 | with a header of normal form `w`, the result is the last such header, whatever other keys contain `w` |
| Resolver.NoExactMatchTakesFirstRelated | Excel-visualizer.py:25-26 | with no header of form `w`, the result is the last header of the first related key in map order, and None exactly when none is related |
| Resolver.UnnormalisedKeyHasNoExactMatch | Excel-visualizer.py:21-23 | a wanted key not in normal form never matches exactly, since `want` is not normalised |
| Resolver.EmptyNormalFormCatchesAll | Excel-visualizer.py:25-26 | a header whose normal form is empty makes every wanted key resolve to something |
| Resolver.ResolveColumns | Excel-visualizer.py:17-27 | the loop's dict has exactly the wanted keys, as given, each mapped to its exact or first-related header or None |
| Resolver.ColumnMap | Excel-visualizer.py:17-27 | the dict `resolve_columns` returns, one `ResolveKey` per wanted key; its shape is stated by `ColumnMapShape` and the loop is proved equal to it |
| Resolver.ColumnMapShape | Excel-visualizer.py:17-27 | one entry per wanted key; every value is None or a header of the table |
| Text.Lower | Excel-visualizer.py:15 | ASCII `lower()`: upper-case letters move 32 code points up to lower case, other characters are kept |
| Text.IsSpace | Excel-visualizer.py:15 | a whitespace character is no letter, digit or `_` |
| Text.ContainsIffOccurs | Excel-visualizer.py:25 | `needle in hay` holds exactly when the needle occurs at some position |
| Text.Contains | Excel-visualizer.py:25 | the `in` test on strings; its meaning is stated by `ContainsIffOccurs` |
| Text.MissingCharacterNotContained | Excel-visualizer.py:244 | a needle with a character the text lacks is not `in` it |
| Text.TrimStart | Excel-visualizer.py:304 | removes exactly the leading whitespace |
| Text.TrimEnd | Excel-visualizer.py:304 | removes exactly the trailing whitespace |
| Text.Strip | Excel-visualizer.py:304 | `strip()` gives a text with no whitespace at either end that occurs in the input; `StripRemovesOnlyEndSpace` states that only whitespace at the two ends is removed |
| Text.StripRemovesOnlyEndSpace | Excel-visualizer.py:304 | the stripped text sits in the input at some position and every character of the input outside it is whitespace, which with `Strip`'s own ensures fixes the result |
| Text.StrippedIsFixed | Excel-visualizer.py:291 | `strip()` leaves a text without surrounding whitespace unchanged |
| Text.TrimEndPadded | Excel-visualizer.py:304 | trailing whitespace padding disappears under right trimming |
| Text.TrimStartPadded | Excel-visualizer.py:304 | leading whitespace padding disappears under left trimming |
| Text.StripPaddedRight | Excel-visualizer.py:304 | a stripped word followed by whitespace strips back to the word |
| Text.StripPaddedLeft | Excel-visualizer.py:304 | whitespace followed by a stripped word strips back to the word |
| Text.Split | Excel-visualizer.py:304 | `split(sep)` gives at least one piece and no piece contains the separator |
| Text.Join | Excel-visualizer.py:234 | `sep.join(parts)` begins with the first part; `JoinSplit` proves it inverts `Split` |
| Text.JoinSplit | Excel-visualizer.py:304 | joining the pieces of `split(sep)` with `sep` gives back the text |
| Text.SplitWithoutSeparator | Excel-visualizer.py:304 | a text without the separator splits into itself alone |
| Text.SplitAtSeparator | Excel-visualizer.py:304 | `a + sep + b` splits into `a` followed by the pieces of `b` when `a` lacks `sep` |
| Sheet.Names | Excel-visualizer-basic.py.py:150 | the headers, one per column, in table order |
| Sheet.NumericNames | Excel-visualizer.py:223-227 | a header is in the list exactly when some numeric column carries it; only headers of the table, no more than there are columns |
| Sheet.IsNumeric | Excel-visualizer.py:312 | `is_numeric_dtype(df[name])` on the first column of that name: true only for a numeric column of that name, and the first such column decides (also lines 226, 268) |
| LogBuffer.Window | Excel-visualizer.py:159-163 | exactly the newest `cap` lines of a history, as many as the cap allows, and all of it when shorter |
| LogBuffer.Append | Excel-visualizer.py:159-163 | one `_log` call; its effect is stated by `AppendWithinCap` and `AppendIsWindow` |
| LogBuffer.AppendAll | Excel-visualizer.py:159-163 | a run of `_log` calls; its effect is stated by `AppendAllIsWindow` |
| LogBuffer.AppendWithinCap | Excel-visualizer.py:159-163 | after `_log` the list is within the cap and ends with the new line; it is the old list plus the line when below the cap, and loses exactly line 0 when full |
| LogBuffer.AppendIsWindow | Excel-visualizer.py:159-163 | logging onto the window of a history gives the window of the longer history |
| LogBuffer.AppendAllIsWindow | Excel-visualizer.py:159-163 | any run of `_log` calls keeps exactly the newest `cap` lines of everything logged |
| LogBuffer.WindowOfWindow | Excel-visualizer.py:159-163 | dropping lines older than the window changes no later window |
| LogBuffer.AppendAllOne | Excel-visualizer.py:159-163 | a run of one line is one `_log` call |
| LogBuffer.AppendAllTwo | Excel-visualizer.py:159-163 | a run of two lines is two `_log` calls in order |
| Widgets.CurrentText | Excel-visualizer.py:287 | `currentText()` of a combo box: the selected item, `""` for no selection; the branch lemmas state what each box's text leads to (also lines 291, 303, 333) |
| Visualizer.SalespersonKeyIsNorm | Excel-visualizer.py:207 | `_norm("Salesperson")` is "salesperson" |
| Visualizer.TotalPriceKeyIsNorm | Excel-visualizer.py:208 | `_norm("TotalPrice")` is "totalprice" |
| Visualizer.StoreLocationKeyIsNorm | Excel-visualizer.py:204 | `_norm("StoreLocation")` is "storelocation" |
| Visualizer.ReturnedKeyIsNorm | Excel-visualizer.py:211 | `_norm("Returned")` is "returned" |
| Visualizer.RegionKeyIsNorm | Excel-visualizer.py:200 | `_norm("Region")` is "region" |
| Visualizer.ProductKeyIsNorm | Excel-visualizer.py:201 | `_norm("Product")` is "product" |
| Visualizer.CustomerTypeKeyIsNorm | Excel-visualizer.py:205 | `_norm("CustomerType")` is "customertype" |
| Visualizer.PaymentMethodKeyIsNorm | Excel-visualizer.py:209 | `_norm("PaymentMethod")` is "paymentmethod" |
| Visualizer.QuantityKeyIsNorm | Excel-visualizer.py:210 | `_norm("Quantity")` is "quantity" |
| Visualizer.MetricKeysAreNormalForms | Excel-visualizer.py:245-246 | the four keys `run_metrics` looks up are `_norm` of Salesperson, TotalPrice, StoreLocation and Returned (also lines 262-263) |
| Visualizer.PieKeysAreNormalForms | Excel-visualizer.py:216-219 | the five pie keys are `_norm` of the five pie candidates |
| Visualizer.BarKeysAreNormalForms | Excel-visualizer.py:305-306 | the four fields of the offered bar pairs (Region, Product, Quantity, TotalPrice) normalise to the keys the bar branch looks up |
| Visualizer.ParsePair | Excel-visualizer.py:304 | a parsed pair is two stripped names without an arrow; None when the split does not give two pieces |
| Visualizer.PairLabel | Excel-visualizer.py:102-103 | the bar-pair label `f"{x}  →  {y}"`; `PairLabelRoundTrip` proves it parses back |
| Visualizer.StripKeepsOnlyItsCharacters | Excel-visualizer.py:304 | stripping never introduces a character |
| Visualizer.PairLabelRoundTrip | Excel-visualizer.py:102-103 | a label `f"{x}  →  {y}"` of two stripped, arrow-free names splits and strips back to `(x, y)` (parsed at line 304) |
| Visualizer.ParsedPairRelabels | Excel-visualizer.py:304 | whatever parses, relabelled, parses to the same pair |
| Visualizer.BarPairItemsParse | Excel-visualizer.py:96-103 | each offered bar-pair item parses back to its allowed pair |
| Visualizer.MapGet | Excel-visualizer.py:305-306 | `colmap.get(k)`: the stored value for a present key, None for a missing one (also lines 219, 245-246) |
| Visualizer.Truthy | Excel-visualizer.py:220 | the truth test of a resolved name, neither None nor ""; `SessionMapNamesHeaders` states what a truthy lookup names (also lines 247, 264, 307) |
| Visualizer.SessionMapNamesHeaders | Excel-visualizer.py:213 | a truthy lookup in the loaded column map names a header of the table |
| Visualizer.SessionMap | Excel-visualizer.py:213 | `self.colmap` of a loaded table; `ColumnMapShape` and `SessionMapNamesHeaders` state what it holds |
| Visualizer.PieChoices | Excel-visualizer.py:215-221 | the pie items `open_excel` adds; `PieChoicesAreHeaders` and `CollectPieItems` state what they are |
| Visualizer.PieChoicesAreHeaders | Excel-visualizer.py:215-221 | every pie item is a non-empty header of the table |
| Visualizer.Metrics | Excel-visualizer.py:238-279 | no table refuses; the aggregation runs exactly when both of its resolved columns are truthy, over those two columns, coercing only a non-numeric Returned column; otherwise the chosen aggregation reports missing columns |
| Visualizer.MetricsNotes | Excel-visualizer.py:251-279 | Sum logs the chosen aggregation's heading and then the report; Max logs one "highest" line and Min one "lowest" line about the chosen aggregation, either carrying the report (lines 252-253, 256, 259 and 272-279) |
| Visualizer.ChosenAggregation | Excel-visualizer.py:243-244 | the selector test `"Salesperson" in choice`; `FirstChoiceIsSalesperson` and `SecondChoiceIsStoreLocation` state which aggregation each offered item takes |
| Visualizer.FirstChoiceIsSalesperson | Excel-visualizer.py:119-122 | the first selector item selects TotalPrice by Salesperson (the test at line 244) |
| Visualizer.SecondChoiceIsStoreLocation | Excel-visualizer.py:119-122 | the second selector item does not contain "Salesperson", so it selects Returned by StoreLocation (line 261) |
| Visualizer.AggregatesOnlyTableColumns | Excel-visualizer.py:244-266 | on a loaded session an aggregation only uses headers of the loaded table |
| Visualizer.Draw | Excel-visualizer.py:282-346 | each outcome exactly characterised: no table refuses; "Pie", "Bar", "Line" are tested in that order; an empty stripped pie or line text refuses, a stripped text that is a header draws, one that is no header fails the `df[...]` lookup; a bar pair that does not unpack fails with its piece count, one whose fields are not both truthy warns with both labels, otherwise it draws the two resolved names, horizontal exactly when the type says so, summed exactly when the value column is numeric; none of the three words gives "not implemented" with the type text |
| Visualizer.ChartTypesNameTheirKind | Excel-visualizer.py:72-77 | each chart-type item contains the word its branch tests for (lines 290, 302, 332) |
| Visualizer.VerticalBarTypeSkipsPie | Excel-visualizer.py:74 | "Bar Chart (vertical)" does not contain "Pie" (test at line 290) |
| Visualizer.HorizontalBarTypeSkipsPie | Excel-visualizer.py:75 | "Bar Chart (horizontal)" does not contain "Pie" (test at line 290) |
| Visualizer.LineTypeSkipsPie | Excel-visualizer.py:76 | the line item does not contain "Pie" (test at line 290) |
| Visualizer.LineTypeSkipsBar | Excel-visualizer.py:76 | the line item does not contain "Bar" (test at line 302) |
| Visualizer.VerticalBarTypeIsVertical | Excel-visualizer.py:74 | "Bar Chart (vertical)" does not contain "horizontal" (test at line 319) |
| Visualizer.HorizontalBarTypeIsHorizontal | Excel-visualizer.py:75 | "Bar Chart (horizontal)" contains "horizontal" (test at line 319) |
| Visualizer.OfferedTypesTakeTheirBranch | Excel-visualizer.py:72-77 | each offered chart type reaches the branch it names: pie, vertical bar, horizontal bar, line (tests at lines 290, 302, 319, 332) |
| Visualizer.OfferedChartTypesAreImplemented | Excel-visualizer.py:345-346 | on a loaded table, "not implemented" is reached exactly when no chart-type item is selected |
| Visualizer.KeyErrorText | Excel-visualizer.py:347-349 | the text `str(e)` of the KeyError `df[name]` raises, quoted as a repr |
| Visualizer.UnpackError | Excel-visualizer.py:304 | the ValueError text of an unpacking into two names of fewer or more pieces; `DrawNotes` logs it for a `Malformed` outcome |
| Visualizer.NoteText | Excel-visualizer.py:153-349 | the exact text of each line the application logs (lines 153, 229, 235, 252-279, 300, 330, 343, 349) |
| Visualizer.DrawNotes | Excel-visualizer.py:286-349 | a request logs at most one line, exactly when it drew, failed to unpack or named no header; a drawn chart logs its line or the plotting error; an unknown column logs "Plot error: " with the KeyError text |
| Visualizer.BarRequest | Excel-visualizer.py:302-309 | a bar request whose pair parses to (x, y) draws exactly when both fields resolve to truthy headers of the table, and otherwise warns with both labels |
| Visualizer.OfferedBarPairs | Excel-visualizer.py:96-103 | an offered pair always unpacks; it draws exactly when both of its fields resolve, and otherwise warns (lines 304-309) |
| Visualizer.PieRequestUsesItem | Excel-visualizer.py:290-300 | a pie request with no item chosen refuses; a chosen item is a header, drawn as it is when it has no surrounding whitespace; when its stripped text is non-empty and no header, the lookup fails with that text (line 295) |
| Visualizer.EmptyPieBoxRefuses | Excel-visualizer.py:291-294 | when no pie candidate resolves, the pie box is empty and a pie request asks for a pie column |
| Visualizer.LineRequestUsesItem | Excel-visualizer.py:332-343 | a line request with no item chosen refuses; a chosen item is a header, drawn as it is when non-empty without surrounding whitespace; when its stripped text is non-empty and no header, the lookup fails with that text (line 337) |
| Visualizer.EmptyLineBoxRefuses | Excel-visualizer.py:333-336 | a table without numeric columns leaves the line box empty (lines 224-227) and a line request asks for a numeric column |
| Visualizer.CollectPieItems | Excel-visualizer.py:215-221 | the loop adds exactly the truthy resolved pie candidates, in candidate order |
| Visualizer.CollectLineItems | Excel-visualizer.py:223-227 | the loop adds exactly the numeric headers, in table order |
| Visualizer.App.constructor | Excel-visualizer.py:153 | no table is loaded and the log holds the start-up line |
| Visualizer.App.Log | Excel-visualizer.py:159-163 | the log becomes one `_log` step of the old log and stays within 120 lines |
| Visualizer.App.OpenExcel | Excel-visualizer.py:180-229 | a cancelled dialog or failed read changes nothing; a load sets the table, path, column map for the 13 keys, pie and numeric line lists, and logs one line — keeping the session invariant |
| Visualizer.App.PreviewColumns | Excel-visualizer.py:231-235 | logs the comma-separated headers when a table is loaded, else nothing |
| Visualizer.App.RunMetrics | Excel-visualizer.py:238-279 | returns the guard outcome for the selected item and logs its lines only when the aggregate ran |
| Visualizer.App.DrawChart | Excel-visualizer.py:282-349 | returns the guard outcome for the four boxes and logs exactly the chart's line or the plot error |
| BasicVisualizer.Viz | Excel-visualizer-basic.py.py:158-253 | on the stripped column and chart texts, the four guards hold in order: no table, empty column text, column not in the table, empty chart text; every request past them is about that column, which is a header, and "not implemented" carries the chart text |
| BasicVisualizer.VizBoxes | Excel-visualizer-basic.py.py:158-173 | no table refuses whatever the box texts; texts without surrounding whitespace are passed to the guards unchanged (lines 164, 173) |
| BasicVisualizer.Dispatch | Excel-visualizer-basic.py.py:183-253 | a chart text becomes a maximum or minimum of the column, a chart of the column, or "not implemented" with that text |
| BasicVisualizer.VizNotes | Excel-visualizer-basic.py.py:158-256 | a request logs at most two lines; the three refusals log "Please select an Excel file.", "Please select a column first." and "Please choose a chart type." (lines 161, 167, 176); nothing is logged exactly when the column is invalid or the chart is "not implemented" (lines 169-171, 252-253) |
| BasicVisualizer.NoteText | Excel-visualizer-basic.py.py:102-256 | the exact text of each line the application logs (lines 102-104, 154-156, 161-256) |
| BasicVisualizer.Coerces | Excel-visualizer-basic.py.py:200-202 | a histogram or line chart of a non-numeric column converts it and logs so; `ChartItemsDraw` and `ConversionNoteComesFirst` state when (also lines 230-232) |
| BasicVisualizer.ExtremumLogsOneLine | Excel-visualizer-basic.py.py:183-195 | "Find Max" and "Find Min" log exactly one line about the column, whether the statistic was computed or not, and draw nothing |
| BasicVisualizer.ItemsDispatch | Excel-visualizer-basic.py.py:183-250 | each of the six offered items dispatches to its own request, with the source's bins and top counts and the numeric-column test deciding conversion and grouping |
| BasicVisualizer.ItemsAreStripped | Excel-visualizer-basic.py.py:77-84 | every chart item is its own stripped text (compared at line 173) |
| BasicVisualizer.ChartItemsDraw | Excel-visualizer-basic.py.py:199-250 | each of the four plot items draws its chart with the source's bins and top counts, converting for histogram and line exactly when the column is not numeric |
| BasicVisualizer.ConversionNoteComesFirst | Excel-visualizer-basic.py.py:200-202 | a converting chart logs the conversion note first and then its own line or the plot error (also lines 230-232, 254-256) |
| BasicVisualizer.OfferedItemsAreImplemented | Excel-visualizer-basic.py.py:77-84 | no offered item reaches "not implemented" (line 252-253) |
| BasicVisualizer.UnknownItemIsNotImplemented | Excel-visualizer-basic.py.py:252-253 | past the guards, a chart text that is none of the six items is "not implemented", nothing logged |
| BasicVisualizer.PaddedHeaderIsInvalid | Excel-visualizer-basic.py.py:164-171 | a header with surrounding whitespace, offered in the column box, is refused as an invalid column |
| BasicVisualizer.StrippedHeaderIsAccepted | Excel-visualizer-basic.py.py:164-171 | a non-empty header without surrounding whitespace passes both column guards |
| BasicVisualizer.App.constructor | Excel-visualizer-basic.py.py:69-104 | no table is loaded, the column box is empty, the chart-type box offers the six items, and the log holds the three guidance lines |
| BasicVisualizer.App.Log | Excel-visualizer-basic.py.py:121-127 | the log becomes one `_log` step of the old log and stays within 60 lines |
| BasicVisualizer.App.LogAll | Excel-visualizer-basic.py.py:121-127 | logging up to two lines is that many `_log` steps |
| BasicVisualizer.App.OpenExcel | Excel-visualizer-basic.py.py:130-156 | a cancelled dialog or failed read changes nothing; a load sets the table and path, lists every header in the column box in table order, and leaves exactly the three guidance lines in the preview |
| BasicVisualizer.App.RunViz | Excel-visualizer-basic.py.py:158-256 | returns the guard-and-dispatch outcome for the stripped texts of the two boxes (lines 164, 173) and logs exactly that outcome's lines |

## Left out

- Qt widgets, layouts, fonts, placeholders, labels, message boxes and the visibility toggling of `_on_chart_type_changed`: user interface. Each message box is an outcome constructor here.
- File dialogs and the spreadsheet reader: the path and the read result (`Option<Table>`) are inputs; the exception's text is not modelled.
- Aggregation, statistics and plotting (`groupby`, `sum`, `idxmax`, `value_counts`, `nlargest`, `pd.cut`, `to_numeric`, matplotlib): library semantics over floating-point data. They appear only as outcomes (which columns, which grouping, which bin count) and as parameters for their printed text or raised message.
- `is_numeric_dtype`: one boolean per column, fixed when the table is read.
- Lower-casing beyond ASCII A–Z: `Lower` changes only ASCII letters, so headers with other cased letters are outside the model.
- Headers that are not strings (`str(c)` of a number) and duplicate header texts: a header is a string, and `df[name]` is taken to be the first column of that name.
- Visualizer.KeyErrorText: gives the repr of the name only up to its quotes; Python's escaping of backslashes, control characters and names holding both quote kinds is not modelled.
- Visualizer.App.RunMetrics: a library failure while aggregating is modelled as logging nothing. The source does not catch it, so the exception reaches Qt's event loop. In sum mode the heading is logged before the report text is built (Excel-visualizer.py:252-253 and 272-273), so a failure while building that text leaves the heading in the log, which the model does not show.
- The wanted keys "date", "unitprice", "discount" and "promotion" are written in normal form but not proved equal to `_norm` of their names, because no handler looks them up.
- `__main__` bootstrap and the application event loop.
