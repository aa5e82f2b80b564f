/**
 * Excel-visualizer.py: the session state of `ExcelVizApp` (loaded table, column map,
 * combo-box lists, log) and the guards of its two request handlers, `run_metrics` and
 * `draw_chart`. Aggregation and plotting are left to the table and plotting libraries; they
 * appear here only as the request they are given and the text or failure they report.
 */
module Visualizer {
  import opened Wrappers
  import opened Text
  import opened Sheet
  import opened Resolver
  import opened Widgets
  import LogBuffer

  const LogCap: nat := 120

  // ---------------------------------------------------------------------------
  // Logical fields. `open_excel` and the handlers write `_norm("Salesperson")` and so on; the
  // model writes the normal forms out and proves them equal to `Norm` of the names below.

  const SalespersonName := "Salesperson"
  const TotalPriceName := "TotalPrice"
  const StoreLocationName := "StoreLocation"
  const ReturnedName := "Returned"
  const RegionName := "Region"
  const ProductName := "Product"
  const QuantityName := "Quantity"
  const CustomerTypeName := "CustomerType"
  const PaymentMethodName := "PaymentMethod"

  const SalespersonKey := "salesperson"
  const TotalPriceKey := "totalprice"
  const StoreLocationKey := "storelocation"
  const ReturnedKey := "returned"
  const RegionKey := "region"
  const ProductKey := "product"
  const QuantityKey := "quantity"
  const CustomerTypeKey := "customertype"
  const PaymentMethodKey := "paymentmethod"

  /**
   * `want_keys`: the normal forms of Date, Region, Product, Quantity, UnitPrice, StoreLocation,
   * CustomerType, Discount, Salesperson, TotalPrice, PaymentMethod, Promotion and Returned.
   */
  const WantKeys: seq<string> := [
    "date", RegionKey, ProductKey, QuantityKey, "unitprice", StoreLocationKey, CustomerTypeKey,
    "discount", SalespersonKey, TotalPriceKey, PaymentMethodKey, "promotion", ReturnedKey
  ]

  /** `_norm(key)` for each of `pie_candidates` (Region, Product, StoreLocation, CustomerType, PaymentMethod), in order. */
  const PieKeys: seq<string> := [RegionKey, ProductKey, StoreLocationKey, CustomerTypeKey, PaymentMethodKey]

  // One lemma per name, each a letter-by-letter proof of its own.
  lemma SalespersonKeyIsNorm() ensures Norm(SalespersonName) == SalespersonKey { NormOfWord(SalespersonName, SalespersonKey); }
  lemma TotalPriceKeyIsNorm() ensures Norm(TotalPriceName) == TotalPriceKey { NormOfWord(TotalPriceName, TotalPriceKey); }
  lemma StoreLocationKeyIsNorm() ensures Norm(StoreLocationName) == StoreLocationKey { NormOfWord(StoreLocationName, StoreLocationKey); }
  lemma ReturnedKeyIsNorm() ensures Norm(ReturnedName) == ReturnedKey { NormOfWord(ReturnedName, ReturnedKey); }
  lemma RegionKeyIsNorm() ensures Norm(RegionName) == RegionKey { NormOfWord(RegionName, RegionKey); }
  lemma ProductKeyIsNorm() ensures Norm(ProductName) == ProductKey { NormOfWord(ProductName, ProductKey); }
  lemma CustomerTypeKeyIsNorm() ensures Norm(CustomerTypeName) == CustomerTypeKey { NormOfWord(CustomerTypeName, CustomerTypeKey); }
  lemma PaymentMethodKeyIsNorm() ensures Norm(PaymentMethodName) == PaymentMethodKey { NormOfWord(PaymentMethodName, PaymentMethodKey); }
  lemma QuantityKeyIsNorm() ensures Norm(QuantityName) == QuantityKey { NormOfWord(QuantityName, QuantityKey); }

  /** The keys `run_metrics` looks up are the normal forms of the names it writes. */
  lemma MetricKeysAreNormalForms()
    ensures Norm(SalespersonName) == SalespersonKey && Norm(TotalPriceName) == TotalPriceKey
    ensures Norm(StoreLocationName) == StoreLocationKey && Norm(ReturnedName) == ReturnedKey
  {
    SalespersonKeyIsNorm();
    TotalPriceKeyIsNorm();
    StoreLocationKeyIsNorm();
    ReturnedKeyIsNorm();
  }

  /** The pie keys are the normal forms of the pie candidates. */
  lemma PieKeysAreNormalForms()
    ensures Norm(RegionName) == RegionKey && Norm(ProductName) == ProductKey
    ensures Norm(StoreLocationName) == StoreLocationKey && Norm(CustomerTypeName) == CustomerTypeKey
    ensures Norm(PaymentMethodName) == PaymentMethodKey
  {
    RegionKeyIsNorm();
    ProductKeyIsNorm();
    StoreLocationKeyIsNorm();
    CustomerTypeKeyIsNorm();
    PaymentMethodKeyIsNorm();
  }

  /** The fields the offered bar pairs look up are the normal forms of their labels' names. */
  lemma BarKeysAreNormalForms()
    ensures Norm(RegionName) == RegionKey && Norm(ProductName) == ProductKey
    ensures Norm(QuantityName) == QuantityKey && Norm(TotalPriceName) == TotalPriceKey
  {
    RegionKeyIsNorm();
    ProductKeyIsNorm();
    QuantityKeyIsNorm();
    TotalPriceKeyIsNorm();
  }

  /** The only (X, Y) pairs the bar chart accepts. */
  const AllowedPairs: seq<(string, string)> := [
    (RegionName, QuantityName), (RegionName, TotalPriceName), (ProductName, QuantityName), (ProductName, TotalPriceName)
  ]

  /** The chart-type combo box items. */
  const ChartTypes: seq<string> := [
    "Pie Chart (percent)", "Bar Chart (vertical)", "Bar Chart (horizontal)", "Line Chart (single numeric column)"
  ]

  /** The metric selector items. */
  const MetricChoices: seq<string> := [
    "Salesperson – TotalPrice (SUM / MAX / MIN)", "StoreLocation – Returned (SUM / MAX / MIN)"
  ]

  const Arrow: char := '→'

  /** The bar-pair combo-box item for (x, y): `f"{x}  →  {y}"`, the arrow between two spaces on each side. */
  function PairLabel(x: string, y: string): string {
    x + "  " + [Arrow] + "  " + y
  }

  const BarPairItems: seq<string> :=
    seq(|AllowedPairs|, i requires 0 <= i < |AllowedPairs| => PairLabel(AllowedPairs[i].0, AllowedPairs[i].1))

  /**
   * `x_label, y_label = [s.strip() for s in text.split("→")]`; None when the split does not give
   * exactly two pieces (the unpacking raises).
   */
  function ParsePair(text: string): (r: Option<(string, string)>)
    ensures r.Some? ==> IsStripped(r.value.0) && IsStripped(r.value.1)
    ensures r.Some? ==> Arrow !in r.value.0 && Arrow !in r.value.1
  {
    var parts := Split(text, Arrow);
    if |parts| == 2 then
      StripKeepsOnlyItsCharacters(parts[0], Arrow);
      StripKeepsOnlyItsCharacters(parts[1], Arrow);
      Some((Strip(parts[0]), Strip(parts[1])))
    else None
  }

  lemma StripKeepsOnlyItsCharacters(s: string, c: char)
    requires c !in s
    ensures c !in Strip(s)
  {
    var r := Strip(s);
    var i :| OccursAt(r, s, i);
    assert forall k :: 0 <= k < |r| ==> r[k] == s[i + k];
  }

  /** A label built from two stripped names without arrows parses back to those names. */
  lemma PairLabelRoundTrip(x: string, y: string)
    requires IsStripped(x) && IsStripped(y) && Arrow !in x && Arrow !in y
    ensures ParsePair(PairLabel(x, y)) == Some((x, y))
  {
    var pad := "  ";
    var left, right := x + pad, pad + y;
    assert PairLabel(x, y) == left + [Arrow] + right;
    SplitAtSeparator(left, Arrow, right);
    SplitWithoutSeparator(right, Arrow);
    StripPaddedRight(x, pad);
    StripPaddedLeft(pad, y);
  }

  /** Whatever parses, relabelled, parses to the same pair. */
  lemma ParsedPairRelabels(text: string)
    requires ParsePair(text).Some?
    ensures var (x, y) := ParsePair(text).value; ParsePair(PairLabel(x, y)) == ParsePair(text)
  {
    var (x, y) := ParsePair(text).value;
    PairLabelRoundTrip(x, y);
  }

  /** Each offered bar-pair item parses back to its allowed pair. */
  lemma BarPairItemsParse(i: int)
    requires 0 <= i < |AllowedPairs|
    ensures ParsePair(BarPairItems[i]) == Some(AllowedPairs[i])
  {
    var (x, y) := AllowedPairs[i];
    assert IsStripped(x) && IsStripped(y) && Arrow !in x && Arrow !in y;
    PairLabelRoundTrip(x, y);
  }

  // ---------------------------------------------------------------------------
  // Column-map lookups

  /** `colmap.get(k)`: the stored value of a key, None for a missing one. */
  function MapGet(colmap: map<string, Option<string>>, k: string): (r: Option<string>)
    ensures k in colmap ==> r == colmap[k]
    ensures k !in colmap ==> r.None?
  {
    if k in colmap then colmap[k] else None
  }

  /** Python truthiness of a resolved name: neither None nor "". */
  predicate Truthy(o: Option<string>) {
    o.Some? && o.value != ""
  }

  /** The items `open_excel` puts into the pie combo box, for the normalised candidate keys `keys`. */
  function PieChoices(colmap: map<string, Option<string>>, keys: seq<string>): seq<string> {
    if keys == [] then []
    else
      var prev := PieChoices(colmap, keys[..|keys| - 1]);
      var resolved := MapGet(colmap, keys[|keys| - 1]);
      if Truthy(resolved) then prev + [resolved.value] else prev
  }

  /** A table's column map resolves the thirteen logical fields. */
  function SessionMap(t: Table): map<string, Option<string>> {
    ColumnMap(Names(t.columns), WantKeys)
  }

  /** A truthy lookup in the session map names a header of the table. */
  lemma SessionMapNamesHeaders(t: Table, k: string)
    ensures Truthy(MapGet(SessionMap(t), k)) ==> MapGet(SessionMap(t), k).value in Names(t.columns)
  {
    if k in SessionMap(t) {
      ResolvedIsHeader(Names(t.columns), k);
    }
  }

  /** Every pie item is a non-empty header of the table. */
  lemma {:induction false} PieChoicesAreHeaders(t: Table, keys: seq<string>)
    ensures forall p :: p in PieChoices(SessionMap(t), keys) ==> p in Names(t.columns) && p != ""
  {
    if keys != [] {
      PieChoicesAreHeaders(t, keys[..|keys| - 1]);
      SessionMapNamesHeaders(t, keys[|keys| - 1]);
    }
  }

  // ---------------------------------------------------------------------------
  // Log lines

  datatype Metric = Sum | Max | Min

  datatype Aggregation = TotalPriceBySalesperson | ReturnedByStoreLocation

  datatype ChartKind = PieKind | BarKind | LineKind

  /** The lines the application logs, by kind; `NoteText` gives each its exact text. */
  datatype Note =
    | Started
    | FileLoaded
    | ColumnList(names: seq<string>)
    | SumHeading(aggregation: Aggregation)
    | Report(text: string)                            // the printed top-20 series
    | Highest(aggregation: Aggregation, text: string) // text: "{idx} = {g.max()}" as printed
    | Lowest(aggregation: Aggregation, text: string)  // text: "{idx} = {g.min()}" as printed
    | Shown(kind: ChartKind)
    | PlotError(message: string)

  function NoteText(n: Note): string {
    match n
    case Started => "👀:Select an Excel file to begin."
    case FileLoaded => "👀:File loaded. Choose a chart type and then the required column(s)."
    case ColumnList(names) => "Columns: " + Join(names, ", ")
    case SumHeading(TotalPriceBySalesperson) => "[SUM] TotalPrice by Salesperson:"
    case SumHeading(ReturnedByStoreLocation) => "[SUM] Returned by StoreLocation:"
    case Report(text) => text
    case Highest(TotalPriceBySalesperson, text) => "[MAX] Salesperson with highest total: " + text
    case Highest(ReturnedByStoreLocation, text) => "[MAX] StoreLocation with highest returns: " + text
    case Lowest(TotalPriceBySalesperson, text) => "[MIN] Salesperson with lowest total: " + text
    case Lowest(ReturnedByStoreLocation, text) => "[MIN] StoreLocation with lowest returns: " + text
    case Shown(PieKind) => "Pie chart shown."
    case Shown(BarKind) => "Bar chart shown."
    case Shown(LineKind) => "Line chart shown."
    case PlotError(message) => "Plot error: " + message
  }

  // ---------------------------------------------------------------------------
  // run_metrics

  datatype MetricsOutcome =
    | NoData                                  // "No data" information box
    | MissingColumns(aggregation: Aggregation) // "Missing columns" warning box
    | Aggregated(aggregation: Aggregation, metric: Metric, group: string, value: string, coerced: bool)

  /** The selected aggregation: the Salesperson one exactly when the selector text mentions it. */
  function ChosenAggregation(choice: string): Aggregation {
    if Contains("Salesperson", choice) then TotalPriceBySalesperson else ReturnedByStoreLocation
  }

  /** The normalised (group, value) keys of an aggregation. */
  function AggregationKeys(a: Aggregation): (string, string) {
    match a
    case TotalPriceBySalesperson => (SalespersonKey, TotalPriceKey)
    case ReturnedByStoreLocation => (StoreLocationKey, ReturnedKey)
  }

  /**
   * The guards of `run_metrics`: no table, or a grouping or value column that did not resolve
   * to a truthy name, refuses; otherwise the aggregation runs over the two resolved columns,
   * coercing a non-numeric Returned column to numbers first.
   */
  function Metrics(df: Option<Table>, colmap: map<string, Option<string>>, choice: string, metric: Metric): (r: MetricsOutcome)
    ensures r.NoData? <==> df.None?
    ensures r.MissingColumns? ==> r.aggregation == ChosenAggregation(choice)
    ensures r.Aggregated? <==>
      df.Some? && Truthy(MapGet(colmap, AggregationKeys(ChosenAggregation(choice)).0))
               && Truthy(MapGet(colmap, AggregationKeys(ChosenAggregation(choice)).1))
    ensures r.Aggregated? ==>
      && r.aggregation == ChosenAggregation(choice) && r.metric == metric
      && Some(r.group) == MapGet(colmap, AggregationKeys(r.aggregation).0)
      && Some(r.value) == MapGet(colmap, AggregationKeys(r.aggregation).1)
      && r.coerced == (r.aggregation == ReturnedByStoreLocation && !IsNumeric(df.value.columns, r.value))
  {
    if df.None? then MetricsOutcome.NoData
    else if Contains("Salesperson", choice) then
      var gkey := MapGet(colmap, SalespersonKey);
      var val := MapGet(colmap, TotalPriceKey);
      if !Truthy(gkey) || !Truthy(val) then MetricsOutcome.MissingColumns(TotalPriceBySalesperson)
      else Aggregated(TotalPriceBySalesperson, metric, gkey.value, val.value, false)
    else
      var gkey := MapGet(colmap, StoreLocationKey);
      var ret := MapGet(colmap, ReturnedKey);
      if !Truthy(gkey) || !Truthy(ret) then MetricsOutcome.MissingColumns(ReturnedByStoreLocation)
      else Aggregated(ReturnedByStoreLocation, metric, gkey.value, ret.value, !IsNumeric(df.value.columns, ret.value))
  }

  /** The lines `run_metrics` logs once the library has produced `report` for the aggregate. */
  function MetricsNotes(aggregation: Aggregation, metric: Metric, report: string): (notes: seq<Note>)
    ensures |notes| == if metric == Sum then 2 else 1
    ensures var last := notes[|notes| - 1]; (last.Report? || last.Highest? || last.Lowest?) && last.text == report
    ensures metric == Sum ==> notes[0] == SumHeading(aggregation) && notes[1].Report?
    ensures metric == Max ==> notes[0].Highest? && notes[0].aggregation == aggregation
    ensures metric == Min ==> notes[0].Lowest? && notes[0].aggregation == aggregation
  {
    match metric
    case Sum => [SumHeading(aggregation), Report(report)]
    case Max => [Highest(aggregation, report)]
    case Min => [Lowest(aggregation, report)]
  }

  /** The first selector item picks the Salesperson aggregation. */
  lemma FirstChoiceIsSalesperson()
    ensures ChosenAggregation(MetricChoices[0]) == TotalPriceBySalesperson
  {
    var a := MetricChoices[0];
    assert OccursAt("Salesperson", a, 0);
    ContainsIffOccurs("Salesperson", a);
  }

  /** The second selector item does not mention Salesperson, so it picks the StoreLocation one. */
  lemma SecondChoiceIsStoreLocation()
    ensures ChosenAggregation(MetricChoices[1]) == ReturnedByStoreLocation
  {
    var b := MetricChoices[1];
    assert "Salesperson"[5] == 'p';
    MissingCharacterNotContained("Salesperson", b, 'p');
  }

  /** On a loaded session, an aggregation only ever runs over headers of the loaded table. */
  lemma AggregatesOnlyTableColumns(t: Table, choice: string, metric: Metric)
    ensures var r := Metrics(Some(t), SessionMap(t), choice, metric);
      r.Aggregated? ==> r.group in Names(t.columns) && r.value in Names(t.columns)
  {
    var (g, v) := AggregationKeys(ChosenAggregation(choice));
    SessionMapNamesHeaders(t, g);
    SessionMapNamesHeaders(t, v);
  }

  // ---------------------------------------------------------------------------
  // draw_chart

  datatype Chart =
    | Pie(column: string)                                               // share of each category
    | Bar(group: string, value: string, horizontal: bool, summed: bool) // top 30 groups, sum (numeric) or count
    | Line(column: string)                                              // coerced values against row index

  function KindOf(c: Chart): ChartKind {
    match c
    case Pie(_) => PieKind
    case Bar(_, _, _, _) => BarKind
    case Line(_) => LineKind
  }

  datatype ChartOutcome =
    | NoData                              // "No data" information box
    | NoPieColumn                         // "Choose a pie target column."
    | NoLineColumn                        // "Choose a numeric column."
    | MissingPair(x: string, y: string)   // "{x}/{y} not found."
    | Malformed(pieces: nat)              // the pair text did not unpack into two names
    | UnknownColumn(column: string)       // `df[column]` raised KeyError: the stripped item is no header
    | Drawn(chart: Chart)
    | NotImplemented(chartType: string)   // "{t} is not implemented yet."

  /**
   * The guards and dispatch of `draw_chart`, given the current texts of the chart-type, pie,
   * bar-pair and line combo boxes. The first of "Pie", "Bar" and "Line" that the chart type
   * contains picks the branch. The pie and line branches strip their item and refuse an empty
   * one; `df[name]` of a stripped name that is no header raises KeyError. The bar branch unpacks
   * the pair text and needs both fields to resolve to truthy names.
   */
  function Draw(df: Option<Table>, colmap: map<string, Option<string>>, chartType: string,
                pieText: string, pairText: string, lineText: string): (r: ChartOutcome)
    ensures r.NoData? <==> df.None?
    // pie branch
    ensures r.NoPieColumn? <==> df.Some? && Contains("Pie", chartType) && Strip(pieText) == ""
    ensures (r.Drawn? && r.chart.Pie?) <==>
      df.Some? && Contains("Pie", chartType) && Strip(pieText) != "" && Strip(pieText) in Names(df.value.columns)
    ensures r.Drawn? && r.chart.Pie? ==> r.chart.column == Strip(pieText)
    // bar branch
    ensures r.Malformed? <==>
      df.Some? && !Contains("Pie", chartType) && Contains("Bar", chartType) && |Split(pairText, Arrow)| != 2
    ensures r.Malformed? ==> r.pieces == |Split(pairText, Arrow)|
    ensures r.MissingPair? <==>
      && df.Some? && !Contains("Pie", chartType) && Contains("Bar", chartType) && ParsePair(pairText).Some?
      && !(Truthy(MapGet(colmap, Norm(ParsePair(pairText).value.0))) && Truthy(MapGet(colmap, Norm(ParsePair(pairText).value.1))))
    ensures r.MissingPair? ==> Some((r.x, r.y)) == ParsePair(pairText)
    ensures (r.Drawn? && r.chart.Bar?) <==>
      && df.Some? && !Contains("Pie", chartType) && Contains("Bar", chartType) && ParsePair(pairText).Some?
      && Truthy(MapGet(colmap, Norm(ParsePair(pairText).value.0))) && Truthy(MapGet(colmap, Norm(ParsePair(pairText).value.1)))
    ensures r.Drawn? && r.chart.Bar? ==>
      && Some(r.chart.group) == MapGet(colmap, Norm(ParsePair(pairText).value.0))
      && Some(r.chart.value) == MapGet(colmap, Norm(ParsePair(pairText).value.1))
      && r.chart.horizontal == Contains("horizontal", chartType)
      && r.chart.summed == IsNumeric(df.value.columns, r.chart.value)
    // line branch
    ensures r.NoLineColumn? <==>
      df.Some? && !Contains("Pie", chartType) && !Contains("Bar", chartType) && Contains("Line", chartType) && Strip(lineText) == ""
    ensures (r.Drawn? && r.chart.Line?) <==>
      && df.Some? && !Contains("Pie", chartType) && !Contains("Bar", chartType) && Contains("Line", chartType)
      && Strip(lineText) != "" && Strip(lineText) in Names(df.value.columns)
    ensures r.Drawn? && r.chart.Line? ==> r.chart.column == Strip(lineText)
    // a stripped pie or line item that is no header
    ensures r.UnknownColumn? <==>
      df.Some? &&
      if Contains("Pie", chartType) then Strip(pieText) != "" && Strip(pieText) !in Names(df.value.columns)
      else !Contains("Bar", chartType) && Contains("Line", chartType)
           && Strip(lineText) != "" && Strip(lineText) !in Names(df.value.columns)
    ensures r.UnknownColumn? ==> r.column == if Contains("Pie", chartType) then Strip(pieText) else Strip(lineText)
    // none of the three words
    ensures r.NotImplemented? <==>
      df.Some? && !Contains("Pie", chartType) && !Contains("Bar", chartType) && !Contains("Line", chartType)
    ensures r.NotImplemented? ==> r.chartType == chartType
  {
    if df.None? then ChartOutcome.NoData
    else if Contains("Pie", chartType) then
      var catCol := Strip(pieText);
      if catCol == "" then NoPieColumn
      else if catCol !in Names(df.value.columns) then UnknownColumn(catCol)
      else Drawn(Pie(catCol))
    else if Contains("Bar", chartType) then
      match ParsePair(pairText)
      case None => Malformed(|Split(pairText, Arrow)|)
      case Some((xLabel, yLabel)) =>
        var xKey := MapGet(colmap, Norm(xLabel));
        var yKey := MapGet(colmap, Norm(yLabel));
        if !Truthy(xKey) || !Truthy(yKey) then MissingPair(xLabel, yLabel)
        else Drawn(Bar(xKey.value, yKey.value, Contains("horizontal", chartType), IsNumeric(df.value.columns, yKey.value)))
    else if Contains("Line", chartType) then
      var col := Strip(lineText);
      if col == "" then NoLineColumn
      else if col !in Names(df.value.columns) then UnknownColumn(col)
      else Drawn(Line(col))
    else NotImplemented(chartType)
  }

  /** Each chart-type item names the kind of chart it asks for at its start. */
  lemma ChartTypesNameTheirKind()
    ensures Contains("Pie", ChartTypes[0]) && Contains("Bar", ChartTypes[1])
    ensures Contains("Bar", ChartTypes[2]) && Contains("Line", ChartTypes[3])
  {
    StartsWithWord("Pie", ChartTypes[0]);
    StartsWithWord("Bar", ChartTypes[1]);
    StartsWithWord("Bar", ChartTypes[2]);
    StartsWithWord("Line", ChartTypes[3]);
  }

  // The later items lack a letter of the earlier tests' words, so each reaches its own branch.

  /** "Bar Chart (vertical)" has no 'P', so it skips the pie branch. */
  lemma VerticalBarTypeSkipsPie()
    ensures !Contains("Pie", ChartTypes[1])
  {
    MissingCharacterNotContained("Pie", ChartTypes[1], 'P');
  }

  /** "Bar Chart (horizontal)" has no 'P', so it skips the pie branch. */
  lemma HorizontalBarTypeSkipsPie()
    ensures !Contains("Pie", ChartTypes[2])
  {
    MissingCharacterNotContained("Pie", ChartTypes[2], 'P');
  }

  /** The line item has no 'P', so it skips the pie branch. */
  lemma LineTypeSkipsPie()
    ensures !Contains("Pie", ChartTypes[3])
  {
    MissingCharacterNotContained("Pie", ChartTypes[3], 'P');
  }

  /** The line item has no 'B', so it skips the bar branch. */
  lemma LineTypeSkipsBar()
    ensures !Contains("Bar", ChartTypes[3])
  {
    MissingCharacterNotContained("Bar", ChartTypes[3], 'B');
  }

  /** "Bar Chart (vertical)" has no 'z', so it draws vertical bars. */
  lemma VerticalBarTypeIsVertical()
    ensures !Contains("horizontal", ChartTypes[1])
  {
    assert "horizontal"[4] == 'z';
    MissingCharacterNotContained("horizontal", ChartTypes[1], 'z');
  }

  /** "Bar Chart (horizontal)" names its orientation after the eleven characters "Bar Chart (". */
  lemma HorizontalBarTypeIsHorizontal()
    ensures Contains("horizontal", ChartTypes[2])
  {
    assert OccursAt("horizontal", ChartTypes[2], 11);
    ContainsIffOccurs("horizontal", ChartTypes[2]);
  }

  /**
   * Each offered chart type reaches the branch it names: the pie item the pie branch, the two bar
   * items the bar branch (vertical, then horizontal), the line item the line branch.
   */
  lemma OfferedTypesTakeTheirBranch()
    ensures Contains("Pie", ChartTypes[0])
    ensures !Contains("Pie", ChartTypes[1]) && Contains("Bar", ChartTypes[1]) && !Contains("horizontal", ChartTypes[1])
    ensures !Contains("Pie", ChartTypes[2]) && Contains("Bar", ChartTypes[2]) && Contains("horizontal", ChartTypes[2])
    ensures !Contains("Pie", ChartTypes[3]) && !Contains("Bar", ChartTypes[3]) && Contains("Line", ChartTypes[3])
  {
    ChartTypesNameTheirKind();
    VerticalBarTypeSkipsPie();
    HorizontalBarTypeSkipsPie();
    LineTypeSkipsPie();
    LineTypeSkipsBar();
    VerticalBarTypeIsVertical();
    HorizontalBarTypeIsHorizontal();
  }

  /**
   * Every offered chart type is implemented: on a loaded table, only an empty selection (index
   * out of range, text "") reaches "not implemented yet".
   */
  lemma OfferedChartTypesAreImplemented(df: Option<Table>, colmap: map<string, Option<string>>, typeIndex: int,
                                        pieText: string, pairText: string, lineText: string)
    ensures var r := Draw(df, colmap, CurrentText(ChartTypes, typeIndex), pieText, pairText, lineText);
      r.NotImplemented? <==> df.Some? && !(0 <= typeIndex < |ChartTypes|)
  {
    if 0 <= typeIndex < |ChartTypes| {
      ChartTypesNameTheirKind();
    } else {
      assert !Contains("Pie", "") && !Contains("Bar", "") && !Contains("Line", "");
    }
  }

  /**
   * CPython's message when a list does not unpack into two names. The "too many values" wording
   * differs between CPython versions; no offered label reaches that case.
   */
  function UnpackError(pieces: nat): string {
    if pieces < 2 then "not enough values to unpack (expected 2, got 1)" else "too many values to unpack (expected 2)"
  }

  /**
   * `str(KeyError(name))`: the name's repr, in single quotes unless it holds a single quote and
   * no double quote.
   */
  function KeyErrorText(name: string): string {
    if '\'' in name && '"' !in name then "\"" + name + "\"" else "'" + name + "'"
  }

  /**
   * The lines `draw_chart` logs; `failure` is the message of an exception the plotting library
   * raised while drawing, if any. Refusals log nothing; a drawn chart logs its line or the
   * library's error; the unpacking and the lookup failures log their own error.
   */
  function DrawNotes(outcome: ChartOutcome, failure: Option<string>): (notes: seq<Note>)
    ensures |notes| <= 1
    ensures |notes| == 1 <==> outcome.Drawn? || outcome.Malformed? || outcome.UnknownColumn?
    ensures outcome.Drawn? ==> notes[0] == if failure.Some? then PlotError(failure.value) else Shown(KindOf(outcome.chart))
    ensures outcome.UnknownColumn? ==> notes[0] == PlotError(KeyErrorText(outcome.column))
  {
    match outcome
    case Drawn(chart) => if failure.Some? then [PlotError(failure.value)] else [Shown(KindOf(chart))]
    case Malformed(pieces) => [PlotError(UnpackError(pieces))]
    case UnknownColumn(column) => [PlotError(KeyErrorText(column))]
    case _ => []
  }

  /**
   * On a loaded session, a bar request whose pair text parses to (x, y) draws exactly when both
   * fields resolve to truthy headers, and then groups and sums over those; otherwise it warns
   * with both labels.
   */
  lemma BarRequest(t: Table, chartType: string, pieText: string, pairText: string, lineText: string, x: string, y: string)
    requires !Contains("Pie", chartType) && Contains("Bar", chartType)
    requires ParsePair(pairText) == Some((x, y))
    ensures var colmap := SessionMap(t);
      var r := Draw(Some(t), colmap, chartType, pieText, pairText, lineText);
      && (r.Drawn? <==> Truthy(MapGet(colmap, Norm(x))) && Truthy(MapGet(colmap, Norm(y))))
      && (!r.Drawn? ==> r == MissingPair(x, y))
      && (r.Drawn? ==> r.chart.group in Names(t.columns) && r.chart.value in Names(t.columns))
  {
    SessionMapNamesHeaders(t, Norm(x));
    SessionMapNamesHeaders(t, Norm(y));
  }

  /** On a loaded session, a request for an offered bar pair always unpacks and looks up that pair's fields. */
  lemma OfferedBarPairs(t: Table, chartType: string, i: int, pieText: string, lineText: string)
    requires 0 <= i < |AllowedPairs| && !Contains("Pie", chartType) && Contains("Bar", chartType)
    ensures var (x, y) := AllowedPairs[i];
      var colmap := SessionMap(t);
      var r := Draw(Some(t), colmap, chartType, pieText, BarPairItems[i], lineText);
      && (r.Drawn? <==> Truthy(MapGet(colmap, Norm(x))) && Truthy(MapGet(colmap, Norm(y))))
      && (!r.Drawn? ==> r == MissingPair(x, y))
  {
    BarPairItemsParse(i);
    BarRequest(t, chartType, pieText, BarPairItems[i], lineText, AllowedPairs[i].0, AllowedPairs[i].1);
  }

  /**
   * A pie request on a loaded session: with no item chosen (in particular when no pie candidate
   * resolved) it asks for a pie column; a chosen item, a header, is drawn as it is when it has
   * no surrounding whitespace, and otherwise its stripped text is looked up and may be no header.
   */
  lemma PieRequestUsesItem(t: Table, chartType: string, pieIndex: int, pairText: string, lineText: string)
    requires Contains("Pie", chartType)
    ensures var items := PieChoices(SessionMap(t), PieKeys);
      var r := Draw(Some(t), SessionMap(t), chartType, CurrentText(items, pieIndex), pairText, lineText);
      && (!(0 <= pieIndex < |items|) ==> r == NoPieColumn)
      && (0 <= pieIndex < |items| ==>
            var item := items[pieIndex];
            && item in Names(t.columns)
            && (IsStripped(item) ==> r == Drawn(Pie(item)))
            && (Strip(item) != "" && Strip(item) !in Names(t.columns) ==> r == UnknownColumn(Strip(item))))
  {
    var items := PieChoices(SessionMap(t), PieKeys);
    if 0 <= pieIndex < |items| {
      var item := items[pieIndex];
      PieChoicesAreHeaders(t, PieKeys);
      if IsStripped(item) {
        StrippedIsFixed(item);
      }
    }
  }

  /** When none of the five pie candidates resolves, the pie box is empty and a pie request is refused. */
  lemma EmptyPieBoxRefuses(t: Table, chartType: string, pieIndex: int, pairText: string, lineText: string)
    requires Contains("Pie", chartType) && PieChoices(SessionMap(t), PieKeys) == []
    ensures Draw(Some(t), SessionMap(t), chartType, CurrentText(PieChoices(SessionMap(t), PieKeys), pieIndex),
                 pairText, lineText) == NoPieColumn
  {
  }

  /**
   * A line request on a loaded session: with no item chosen it asks for a numeric column; a
   * chosen item is a numeric header, drawn as it is when it has no surrounding whitespace.
   */
  lemma LineRequestUsesItem(t: Table, chartType: string, lineIndex: int, pieText: string, pairText: string)
    requires !Contains("Pie", chartType) && !Contains("Bar", chartType) && Contains("Line", chartType)
    ensures var items := NumericNames(t.columns);
      var r := Draw(Some(t), SessionMap(t), chartType, pieText, pairText, CurrentText(items, lineIndex));
      && (!(0 <= lineIndex < |items|) ==> r == NoLineColumn)
      && (0 <= lineIndex < |items| ==>
            var item := items[lineIndex];
            && item in Names(t.columns)
            && (item != "" && IsStripped(item) ==> r == Drawn(Line(item)))
            && (Strip(item) != "" && Strip(item) !in Names(t.columns) ==> r == UnknownColumn(Strip(item))))
  {
    var items := NumericNames(t.columns);
    if 0 <= lineIndex < |items| {
      var item := items[lineIndex];
      assert item in items;
      if IsStripped(item) {
        StrippedIsFixed(item);
      }
    }
  }

  /** A table without numeric columns leaves the line box empty, and a line request is refused. */
  lemma EmptyLineBoxRefuses(t: Table, chartType: string, lineIndex: int, pieText: string, pairText: string)
    requires !Contains("Pie", chartType) && !Contains("Bar", chartType) && Contains("Line", chartType)
    requires forall i :: 0 <= i < |t.columns| ==> !t.columns[i].numeric
    ensures NumericNames(t.columns) == []
    ensures Draw(Some(t), SessionMap(t), chartType, pieText, pairText, CurrentText(NumericNames(t.columns), lineIndex))
            == NoLineColumn
  {
    if NumericNames(t.columns) != [] {
      assert NumericNames(t.columns)[0] in NumericNames(t.columns);
    }
  }

  // ---------------------------------------------------------------------------
  // The two combo-box fills of `open_excel`

  /** The pie-candidates loop: add each resolved, truthy candidate in turn. */
  method CollectPieItems(colmap: map<string, Option<string>>, keys: seq<string>) returns (items: seq<string>)
    ensures items == PieChoices(colmap, keys)
  {
    items := [];
    for i := 0 to |keys|
      invariant items == PieChoices(colmap, keys[..i])
    {
      assert keys[..i + 1][..i] == keys[..i];
      var resolved := MapGet(colmap, keys[i]);
      if Truthy(resolved) {
        items := items + [resolved.value];
      }
    }
    assert keys[..|keys|] == keys;
  }

  /** The line-candidates loop: add every numeric column, in table order. */
  method CollectLineItems(cols: seq<Column>) returns (items: seq<string>)
    ensures items == NumericNames(cols)
  {
    items := [];
    for i := 0 to |cols|
      invariant items == NumericNames(cols[..i])
    {
      assert cols[..i + 1][..i] == cols[..i];
      if cols[i].numeric {
        items := items + [cols[i].name];
      }
    }
    assert cols[..|cols|] == cols;
  }

  // ---------------------------------------------------------------------------
  // The application object

  class App {
    var df: Option<Table>
    var colmap: map<string, Option<string>>
    var loadedPath: Option<string>
    var pieItems: seq<string>
    var lineItems: seq<string>
    var preview: seq<Note>

    /** The class invariant: the log is within its cap and the session is consistent. */
    ghost predicate Valid()
      reads this
    {
      |preview| <= LogCap && Session()
    }

    /**
     * A path is recorded exactly when a table is loaded, and the column map and the pie and
     * line lists are those of the loaded table.
     */
    ghost predicate Session()
      reads this`df, this`colmap, this`loadedPath, this`pieItems, this`lineItems
    {
      && (df.None? <==> loadedPath.None?)
      && (loadedPath.Some? ==> loadedPath.value != "")
      && (df.None? ==> colmap == map[] && pieItems == [] && lineItems == [])
      && (df.Some? ==> colmap == SessionMap(df.value)
                       && pieItems == PieChoices(colmap, PieKeys)
                       && lineItems == NumericNames(df.value.columns))
    }

    constructor ()
      ensures Valid()
      ensures df == None && preview == [Started]
    {
      df, colmap, loadedPath := None, map[], None;
      pieItems, lineItems, preview := [], [], [Started];
    }

    /** `_log(msg)`. */
    method Log(msg: Note)
      modifies this`preview
      ensures preview == LogBuffer.Append(old(preview), msg, LogCap)
      ensures |old(preview)| <= LogCap ==> |preview| <= LogCap
    {
      preview := preview + [msg];
      if |preview| > LogCap {
        preview := preview[1..];
      }
    }

    /**
     * `open_excel` once the file dialog has returned `path` and the spreadsheet reader has
     * returned `read` (None when it raised).
     */
    method OpenExcel(path: string, read: Option<Table>) returns (outcome: LoadOutcome)
      requires Valid()
      modifies this
      ensures Valid()
      ensures outcome == if path == "" then Cancelled else if read.None? then ReadFailed else Loaded
      ensures outcome != Loaded ==>
        df == old(df) && colmap == old(colmap) && loadedPath == old(loadedPath)
        && pieItems == old(pieItems) && lineItems == old(lineItems) && preview == old(preview)
      ensures outcome == Loaded ==>
        && df == read && loadedPath == Some(path)
        && colmap == ColumnMap(Names(read.value.columns), WantKeys)
        && pieItems == PieChoices(colmap, PieKeys)
        && lineItems == NumericNames(read.value.columns)
        && preview == LogBuffer.Append(old(preview), FileLoaded, LogCap)
    {
      if path == "" {
        return Cancelled;
      }
      if read.None? {
        return ReadFailed;
      }
      var t := read.value;
      var m := ResolveColumns(Names(t.columns), WantKeys);
      var pie := CollectPieItems(m, PieKeys);
      var line := CollectLineItems(t.columns);
      df, loadedPath, colmap, pieItems, lineItems := read, Some(path), m, pie, line;
      assert Session();
      Log(FileLoaded);
      outcome := Loaded;
    }

    /** `preview_columns`: log the headers, comma-separated, once a table is loaded. */
    method PreviewColumns()
      requires Valid()
      modifies this`preview
      ensures Valid()
      ensures preview == if df.None? then old(preview)
                         else LogBuffer.Append(old(preview), ColumnList(Names(df.value.columns)), LogCap)
    {
      if df.None? {
        return;
      }
      Log(ColumnList(Names(df.value.columns)));
    }

    /**
     * `run_metrics(mode)` with the metric selector at `choiceIndex`; `report` is the text the
     * table library produced for the aggregate, None when it raised (nothing is caught there).
     */
    method RunMetrics(metric: Metric, choiceIndex: int, report: Option<string>) returns (outcome: MetricsOutcome)
      requires Valid()
      modifies this`preview
      ensures Valid()
      ensures outcome == Metrics(df, colmap, CurrentText(MetricChoices, choiceIndex), metric)
      ensures preview == if outcome.Aggregated? && report.Some?
                         then LogBuffer.AppendAll(old(preview), MetricsNotes(outcome.aggregation, metric, report.value), LogCap)
                         else old(preview)
    {
      outcome := Metrics(df, colmap, CurrentText(MetricChoices, choiceIndex), metric);
      if !outcome.Aggregated? || report.None? {
        return;
      }
      match metric
      case Sum =>
        LogBuffer.AppendAllTwo(preview, SumHeading(outcome.aggregation), Report(report.value), LogCap);
        Log(SumHeading(outcome.aggregation));
        Log(Report(report.value));
      case Max =>
        LogBuffer.AppendAllOne(preview, Highest(outcome.aggregation, report.value), LogCap);
        Log(Highest(outcome.aggregation, report.value));
      case Min =>
        LogBuffer.AppendAllOne(preview, Lowest(outcome.aggregation, report.value), LogCap);
        Log(Lowest(outcome.aggregation, report.value));
    }

    /**
     * `draw_chart` with the four combo boxes at the given indices; `failure` is the message of an
     * exception the plotting library raised while drawing, if any.
     */
    method DrawChart(typeIndex: int, pieIndex: int, pairIndex: int, lineIndex: int, failure: Option<string>)
      returns (outcome: ChartOutcome)
      requires Valid()
      modifies this`preview
      ensures Valid()
      ensures outcome == Draw(df, colmap, CurrentText(ChartTypes, typeIndex), CurrentText(pieItems, pieIndex),
                              CurrentText(BarPairItems, pairIndex), CurrentText(lineItems, lineIndex))
      ensures preview == LogBuffer.AppendAll(old(preview), DrawNotes(outcome, failure), LogCap)
    {
      outcome := Draw(df, colmap, CurrentText(ChartTypes, typeIndex), CurrentText(pieItems, pieIndex),
                      CurrentText(BarPairItems, pairIndex), CurrentText(lineItems, lineIndex));
      var notes := DrawNotes(outcome, failure);
      if notes != [] {
        LogBuffer.AppendAllOne(preview, notes[0], LogCap);
        Log(notes[0]);
      }
    }
  }
}
