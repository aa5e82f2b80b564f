/**
 * Excel-visualizer-basic.py.py: the single-column variant of the application. One column and
 * one chart type are chosen from two combo boxes; `run_viz` checks the choice, reports a
 * maximum or minimum, or draws one of four charts of that column. Plotting and the statistics
 * themselves are left to the table and plotting libraries: they appear here only as the
 * request they are given and the text or failure they report.
 */
module BasicVisualizer {
  import opened Wrappers
  import opened Text
  import opened Sheet
  import opened Widgets
  import LogBuffer

  const LogCap: nat := 60

  const FindMaxItem := "Find Max"
  const FindMinItem := "Find Min"
  const HistogramItem := "Histogram (vertical bars)"
  const BarItem := "Bar Chart (horizontal)"
  const LineItem := "Line Chart"
  const PieItem := "Pie Chart"

  /** The chart-type combo box items, in order. */
  const ChartItems: seq<string> := [FindMaxItem, FindMinItem, HistogramItem, BarItem, LineItem, PieItem]

  const HistogramBins: nat := 20
  const TopValues: nat := 30        // `nlargest(30)` of a numeric column
  const TopCategories: nat := 20    // `value_counts().head(20)` of any other column
  const PieBins: nat := 5           // `pd.cut(series, bins=5)` of a numeric column
  const PieTopCategories: nat := 10 // `value_counts().head(10)` of any other column

  datatype Extreme = Max | Min

  datatype ChartKind = HistogramKind | BarKind | LineKind | PieKind

  /** The lines the application logs, by kind; `NoteText` gives each its exact text. */
  datatype Note =
    | Guidance(line: nat)          // the three lines of guidance logged at start-up
    | LoadGuidance(line: nat)           // the three lines logged after a file is loaded
    | NeedFile
    | NeedColumn
    | NeedChart
    | ExtremeValue(kind: Extreme, column: string, value: string)  // value: the statistic as printed
    | ExtremeFailed(kind: Extreme, column: string)
    | Converting(column: string)
    | Shown(chart: ChartKind)
    | PlotError(message: string)

  function NoteText(n: Note): string {
    match n
    case Guidance(0) => "👀:Please select an Excel file."
    case Guidance(1) => "After selecting a file, choose a column (or row) to visualize."
    case Guidance(_) => "Then choose a chart type and click 'Preview Visualization'."
    case LoadGuidance(0) => "👀:File loaded successfully"
    case LoadGuidance(1) => "Please select a column (or row) to visualize."
    case LoadGuidance(_) => "Next, choose a chart type."
    case NeedFile => "Please select an Excel file."
    case NeedColumn => "Please select a column first."
    case NeedChart => "Please choose a chart type."
    case ExtremeValue(Max, column, value) => "[Max] " + column + " = " + value
    case ExtremeValue(Min, column, value) => "[Min] " + column + " = " + value
    case ExtremeFailed(Max, column) => "[Max] Unable to compute max for '" + column + "'."
    case ExtremeFailed(Min, column) => "[Min] Unable to compute min for '" + column + "'."
    case Converting(column) => "'" + column + "' is not numeric. Converting to numeric where possible."
    case Shown(HistogramKind) => "Histogram shown."
    case Shown(BarKind) => "Horizontal bar chart shown."
    case Shown(LineKind) => "Line chart shown."
    case Shown(PieKind) => "Pie chart shown."
    case PlotError(message) => "Plot error: " + message
  }

  const WelcomeNotes: seq<Note> := [Guidance(0), Guidance(1), Guidance(2)]
  const LoadedNotes: seq<Note> := [LoadGuidance(0), LoadGuidance(1), LoadGuidance(2)]

  // ---------------------------------------------------------------------------
  // run_viz

  datatype Chart =
    | Histogram(column: string, coerced: bool, bins: nat)    // values against frequency
    | HorizontalBar(column: string, byValue: bool, top: nat) // largest values, or most frequent categories
    | Line(column: string, coerced: bool)                    // values against row index
    | Pie(column: string, binned: bool, slices: nat)         // share of value ranges, or of the top categories

  function KindOf(c: Chart): ChartKind {
    match c
    case Histogram(_, _, _) => HistogramKind
    case HorizontalBar(_, _, _) => BarKind
    case Line(_, _) => LineKind
    case Pie(_, _, _) => PieKind
  }

  /** Whether drawing this chart first converts a non-numeric column, logging that it does. */
  predicate Coerces(c: Chart) {
    (c.Histogram? || c.Line?) && c.coerced
  }

  datatype VizOutcome =
    | NoData                         // "No Data" information box
    | NoColumn                       // "Select Column" information box
    | InvalidColumn(column: string)  // "Invalid Column" warning box, nothing logged
    | NoChart                        // "Select Chart" information box
    | Extremum(kind: Extreme, column: string)
    | Drawn(chart: Chart)
    | NotImplemented(text: string)  // "Not Implemented" information box, nothing logged

  /**
   * The dispatch of `run_viz` once the guards have passed: the stripped chart text is compared
   * with each offered item in turn; `numeric` says whether the column is numeric.
   */
  function Dispatch(col: string, numeric: bool, chart: string): (r: VizOutcome)
    ensures r.Extremum? || r.Drawn? || r.NotImplemented?
    ensures r.Extremum? ==> r.column == col
    ensures r.Drawn? ==> r.chart.column == col
    ensures r.NotImplemented? ==> r.text == chart
  {
    if chart == FindMaxItem then Extremum(Max, col)
    else if chart == FindMinItem then Extremum(Min, col)
    else if chart == HistogramItem then Drawn(Histogram(col, !numeric, HistogramBins))
    else if chart == BarItem then Drawn(HorizontalBar(col, numeric, if numeric then TopValues else TopCategories))
    else if chart == LineItem then Drawn(Line(col, !numeric))
    else if chart == PieItem then Drawn(Pie(col, numeric, if numeric then PieBins else PieTopCategories))
    else NotImplemented(chart)
  }

  /**
   * The guards of `run_viz`, given the stripped texts of the column and chart-type combo boxes:
   * a table, a non-empty column text naming a column exactly, and a non-empty chart text are
   * needed, in that order; then the chart text is dispatched.
   */
  function Viz(df: Option<Table>, col: string, chart: string): (r: VizOutcome)
    ensures r.NoData? <==> df.None?
    ensures r.NoColumn? <==> df.Some? && col == ""
    ensures r.InvalidColumn? <==> df.Some? && col != "" && col !in Names(df.value.columns)
    ensures r.NoChart? <==> df.Some? && col != "" && col in Names(df.value.columns) && chart == ""
    ensures r.InvalidColumn? ==> r.column == col
    ensures r.Extremum? ==> r.column == col && col in Names(df.value.columns)
    ensures r.Drawn? ==> r.chart.column == col && col in Names(df.value.columns)
    ensures r.NotImplemented? ==> r.text == chart
  {
    if df.None? then NoData
    else if col == "" then NoColumn
    else if col !in Names(df.value.columns) then InvalidColumn(col)
    else if chart == "" then NoChart
    else Dispatch(col, IsNumeric(df.value.columns, col), chart)
  }

  /**
   * `run_viz` on the texts of the two combo boxes, which it strips: texts without surrounding
   * whitespace, such as the offered chart items, are used as they are.
   */
  function VizBoxes(df: Option<Table>, colText: string, chartText: string): (r: VizOutcome)
    ensures r.NoData? <==> df.None?
    ensures IsStripped(colText) && IsStripped(chartText) ==> r == Viz(df, colText, chartText)
  {
    var col, chart := Strip(colText), Strip(chartText);
    if IsStripped(colText) && IsStripped(chartText) then
      StrippedIsFixed(colText);
      StrippedIsFixed(chartText);
      Viz(df, col, chart)
    else Viz(df, col, chart)
  }

  /**
   * The lines `run_viz` logs for an outcome; `stat` is the maximum or minimum as the library
   * printed it (None when it raised), `failure` the message of an exception raised while plotting.
   */
  function VizNotes(outcome: VizOutcome, stat: Option<string>, failure: Option<string>): (notes: seq<Note>)
    ensures |notes| <= 2
    ensures notes == [] <==> outcome.InvalidColumn? || outcome.NotImplemented?
    ensures outcome.NoData? ==> notes == [NeedFile]
    ensures outcome.NoColumn? ==> notes == [NeedColumn]
    ensures outcome.NoChart? ==> notes == [NeedChart]
  {
    match outcome
    case NoData => [NeedFile]
    case NoColumn => [NeedColumn]
    case InvalidColumn(_) => []
    case NoChart => [NeedChart]
    case Extremum(kind, column) =>
      [if stat.Some? then ExtremeValue(kind, column, stat.value) else ExtremeFailed(kind, column)]
    case Drawn(chart) =>
      (if Coerces(chart) then [Converting(chart.column)] else [])
      + [if failure.Some? then PlotError(failure.value) else Shown(KindOf(chart))]
    case NotImplemented(_) => []
  }

  /** A maximum or minimum request logs exactly one line about that column and draws nothing. */
  lemma ExtremumLogsOneLine(t: Table, col: string, chart: string, stat: Option<string>, failure: Option<string>)
    requires col != "" && col in Names(t.columns)
    requires chart == FindMaxItem || chart == FindMinItem
    ensures var r := Viz(Some(t), col, chart);
      && r == Extremum(if chart == FindMaxItem then Max else Min, col)
      && |VizNotes(r, stat, failure)| == 1
      && VizNotes(r, stat, failure)[0].column == col
  {
  }

  /** The offered items need no stripping: each is the text `run_viz` compares with. */
  lemma ItemsAreStripped(i: int)
    requires 0 <= i < |ChartItems|
    ensures Strip(ChartItems[i]) == ChartItems[i]
  {
    StrippedIsFixed(ChartItems[i]);
  }

  /**
   * Each offered item dispatches to its own request: the two "Find" items to a maximum and a
   * minimum, the four plot items to their charts, a histogram and a line chart converting a
   * non-numeric column, the bar and pie charts grouping by whether the column is numeric.
   */
  lemma ItemsDispatch(col: string, numeric: bool, i: int)
    requires 0 <= i < |ChartItems|
    ensures Dispatch(col, numeric, ChartItems[i]) ==
      if i == 0 then Extremum(Max, col)
      else if i == 1 then Extremum(Min, col)
      else if i == 2 then Drawn(Histogram(col, !numeric, HistogramBins))
      else if i == 3 then Drawn(HorizontalBar(col, numeric, if numeric then TopValues else TopCategories))
      else if i == 4 then Drawn(Line(col, !numeric))
      else Drawn(Pie(col, numeric, if numeric then PieBins else PieTopCategories))
  {
    var c := ChartItems[i];
    // The items differ in their first letter, except the two "Find" items, which differ in their seventh.
    assert FindMaxItem[6] != FindMinItem[6];
    assert i >= 2 ==> c[0] != 'F';
    assert i != 2 ==> c[0] != HistogramItem[0];
    assert i != 3 ==> c[0] != BarItem[0];
    assert i != 4 ==> c[0] != LineItem[0];
  }

  /** Past the column guards, each plot item draws its chart of the chosen column. */
  lemma ChartItemsDraw(t: Table, col: string, i: int)
    requires col != "" && col in Names(t.columns)
    requires 2 <= i < |ChartItems|
    ensures var numeric := IsNumeric(t.columns, col);
      Viz(Some(t), col, ChartItems[i]) == Drawn(
        if i == 2 then Histogram(col, !numeric, HistogramBins)
        else if i == 3 then HorizontalBar(col, numeric, if numeric then TopValues else TopCategories)
        else if i == 4 then Line(col, !numeric)
        else Pie(col, numeric, if numeric then PieBins else PieTopCategories))
  {
    ItemsDispatch(col, IsNumeric(t.columns, col), i);
    assert ChartItems[i] != "" by { assert ChartItems[i][0] != ' '; }
  }

  /** The conversion note is logged before the chart's own line, and only for a non-numeric column. */
  lemma ConversionNoteComesFirst(chart: Chart, stat: Option<string>, failure: Option<string>)
    ensures var notes := VizNotes(Drawn(chart), stat, failure);
      && |notes| == (if Coerces(chart) then 2 else 1)
      && (Coerces(chart) ==> notes[0] == Converting(chart.column))
      && notes[|notes| - 1] == if failure.Some? then PlotError(failure.value) else Shown(KindOf(chart))
  {
  }

  /** Every item the chart-type box offers is implemented: none of them reaches "not implemented". */
  lemma OfferedItemsAreImplemented(df: Option<Table>, col: string, i: int)
    requires 0 <= i < |ChartItems|
    ensures !Viz(df, col, ChartItems[i]).NotImplemented?
  {
    if df.Some? && col != "" && col in Names(df.value.columns) {
      ItemsDispatch(col, IsNumeric(df.value.columns, col), i);
      assert ChartItems[i] != "" by { assert ChartItems[i][0] != ' '; }
    }
  }

  /**
   * Past the guards, a chart text equal to none of the six items is "not implemented", with that
   * text, and logs nothing.
   */
  lemma UnknownItemIsNotImplemented(t: Table, col: string, chart: string)
    requires col != "" && col in Names(t.columns) && chart != ""
    requires chart != FindMaxItem && chart != FindMinItem && chart != HistogramItem
    requires chart != BarItem && chart != LineItem && chart != PieItem
    ensures Viz(Some(t), col, chart) == NotImplemented(chart)
    ensures forall stat: Option<string>, failure: Option<string> :: VizNotes(Viz(Some(t), col, chart), stat, failure) == []
  {
  }

  /**
   * A header with surrounding whitespace is offered in the column box but cannot be chosen:
   * its stripped text names no column unless another header is exactly that text.
   */
  lemma PaddedHeaderIsInvalid(t: Table, i: int, chart: string)
    requires 0 <= i < |t.columns| && Strip(t.columns[i].name) != ""
    requires Strip(t.columns[i].name) !in Names(t.columns)
    ensures Viz(Some(t), Strip(CurrentText(Names(t.columns), i)), chart) == InvalidColumn(Strip(t.columns[i].name))
  {
  }

  /** A header without surrounding whitespace passes both column guards. */
  lemma StrippedHeaderIsAccepted(t: Table, i: int, chart: string)
    requires 0 <= i < |t.columns| && t.columns[i].name != "" && IsStripped(t.columns[i].name)
    ensures var r := Viz(Some(t), Strip(CurrentText(Names(t.columns), i)), chart);
      !r.NoColumn? && !r.InvalidColumn?
  {
    StrippedIsFixed(t.columns[i].name);
  }

  // ---------------------------------------------------------------------------
  // The application object

  class App {
    var df: Option<Table>
    var loadedPath: Option<string>
    var colBox: seq<string>
    var chartBox: seq<string>
    var preview: seq<Note>

    /** The log is within its cap; a path is recorded exactly when a table is loaded; the column box lists its headers. */
    ghost predicate Valid()
      reads this
    {
      && |preview| <= LogCap
      && (df.None? <==> loadedPath.None?)
      && (loadedPath.Some? ==> loadedPath.value != "")
      && colBox == (if df.Some? then Names(df.value.columns) else [])
      && chartBox == ChartItems
    }

    constructor ()
      ensures Valid()
      ensures df == None && colBox == [] && chartBox == ChartItems && preview == WelcomeNotes
    {
      df, loadedPath, colBox, chartBox := None, None, [], ChartItems;
      preview := [];
      new;
      Log(Guidance(0));
      Log(Guidance(1));
      Log(Guidance(2));
    }

    /** `_log(msg)`: add the line, then take out the oldest while more than 60 are held. */
    method Log(msg: Note)
      modifies this`preview
      ensures preview == LogBuffer.Append(old(preview), msg, LogCap)
      ensures |old(preview)| <= LogCap ==> |preview| <= LogCap
    {
      preview := preview + [msg];
      if |preview| > LogCap {
        preview := preview[1..];
      }
    }

    /** `_log` of each of (at most two) lines in turn. */
    method LogAll(notes: seq<Note>)
      requires |notes| <= 2
      modifies this`preview
      ensures preview == LogBuffer.AppendAll(old(preview), notes, LogCap)
      ensures |old(preview)| <= LogCap ==> |preview| <= LogCap
    {
      if |notes| == 1 {
        assert notes == [notes[0]];
        LogBuffer.AppendAllOne(preview, notes[0], LogCap);
        Log(notes[0]);
      } else if |notes| == 2 {
        assert notes == [notes[0], notes[1]];
        LogBuffer.AppendAllTwo(preview, notes[0], notes[1], LogCap);
        Log(notes[0]);
        Log(notes[1]);
      }
    }

    /**
     * `open_excel` once the file dialog has returned `path` and the spreadsheet reader has
     * returned `read` (None when it raised). A load clears the log before its three lines.
     */
    method OpenExcel(path: string, read: Option<Table>) returns (outcome: LoadOutcome)
      requires Valid()
      modifies this`df, this`loadedPath, this`colBox, this`preview
      ensures Valid()
      ensures outcome == if path == "" then Cancelled else if read.None? then ReadFailed else Loaded
      ensures outcome != Loaded ==>
        df == old(df) && loadedPath == old(loadedPath) && colBox == old(colBox) && preview == old(preview)
      ensures outcome == Loaded ==>
        df == read && loadedPath == Some(path) && colBox == Names(read.value.columns) && preview == LoadedNotes
    {
      if path == "" {
        return Cancelled;
      }
      if read.None? {
        return ReadFailed;
      }
      df := read;
      loadedPath := Some(path);
      colBox := Names(read.value.columns);
      preview := [];
      Log(LoadGuidance(0));
      Log(LoadGuidance(1));
      Log(LoadGuidance(2));
      outcome := Loaded;
    }

    /**
     * `run_viz` with the column and chart-type boxes at the given indices; `stat` is the text of
     * the library's maximum or minimum (None when it raised) and `failure` the message of an
     * exception raised while plotting, if any.
     */
    method RunViz(colIndex: int, chartIndex: int, stat: Option<string>, failure: Option<string>)
      returns (outcome: VizOutcome)
      requires Valid()
      modifies this`preview
      ensures Valid()
      ensures outcome == VizBoxes(df, CurrentText(colBox, colIndex), CurrentText(chartBox, chartIndex))
      ensures preview == LogBuffer.AppendAll(old(preview), VizNotes(outcome, stat, failure), LogCap)
    {
      outcome := VizBoxes(df, CurrentText(colBox, colIndex), CurrentText(chartBox, chartIndex));
      LogAll(VizNotes(outcome, stat, failure));
    }
  }
}
