/** `create_plot`: validates the two column names, resolves the automatic
    chart kind from the columns' numeric-ness, rejects kind/column
    mismatches, aggregates, and returns a figure or an error. Drawing is
    abstract: a figure records what would be drawn and its axis labels. */
module Plotting {
  import opened Outcome
  import opened Tables
  import opened Grouping

  const AutoLabel := "Automático"
  const BarLabel := "Barras"
  const LineLabel := "Linha"
  const ScatterLabel := "Dispersão"
  const PieLabel := "Pizza"

  datatype ChartKind = Auto | Bar | Line | Scatter | Pie | Unrecognised

  /** The chart kind a selector label names. */
  function KindOf(chartType: string): ChartKind {
    if chartType == AutoLabel then Auto
    else if chartType == BarLabel then Bar
    else if chartType == LineLabel then Line
    else if chartType == ScatterLabel then Scatter
    else if chartType == PieLabel then Pie
    else Unrecognised
  }

  datatype Plot =
    | ScatterPlot(points: seq<(int, int)>)
    | BarPlot(bars: seq<Entry>)
    | LinePlot(line: seq<Entry>)
    | PiePlot(slices: seq<Entry>)
    | NoPlot  // a label no branch recognises: axes only

  datatype Figure = Figure(plot: Plot, xLabel: string, yLabel: string)

  datatype PlotError =
    | InvalidColumns
    | AutoUnresolvable
    | ScatterNeedsNumbers
    | NeedsCategoryAndNumber(kind: string)
    | NegativeSlices  // raised by pandas' pie plot and passed on

  function ErrorMessage(e: PlotError): string {
    match e
    case InvalidColumns => "Colunas selecionadas para o gráfico são inválidas."
    case AutoUnresolvable => "Não foi possível gerar um gráfico automático com as colunas fornecidas."
    case ScatterNeedsNumbers => "Dispersão requer duas colunas numéricas."
    case NeedsCategoryAndNumber(kind) => "Gráfico de " + kind + " requer uma coluna categórica e uma numérica."
    case NegativeSlices => "pie plot doesn't allow negative values"
  }

  /** The outcome of one call together with how many figures it leaves
      open: the returned one on success, none on failure. */
  datatype PlotRun = PlotRun(result: Result<Figure, PlotError>, openFigures: nat)

  predicate ValidColumn(t: Table, name: string) {
    name != "" && Lookup(t, name).Some?
  }

  function IsNumericColumn(t: Table, name: string): bool
    requires ValidColumn(t, name)
  {
    Lookup(t, name).value.NumCol?
  }

  function Zip<A, B>(a: seq<A>, b: seq<B>): (r: seq<(A, B)>)
    ensures |r| == if |a| < |b| then |a| else |b|
    ensures forall i :: 0 <= i < |r| ==> r[i] == (a[i], b[i])
  {
    seq(if |a| < |b| then |a| else |b|, i requires 0 <= i < |a| && 0 <= i < |b| => (a[i], b[i]))
  }

  /** The (category, value) rows of one categorical and one numeric column. */
  function CategoryRows(t: Table, cat: string, val: string): seq<Entry>
    requires ValidColumn(t, cat) && ValidColumn(t, val)
    requires !IsNumericColumn(t, cat) && IsNumericColumn(t, val)
  {
    Zip(Lookup(t, cat).value.labels, Lookup(t, val).value.values)
  }

  /** The chart kind and axis columns after resolving the automatic kind;
      the resolved name is what the source keeps in `chart_type`. */
  datatype Resolved = Resolved(chartType: string, x: string, y: string)

  function ResolveAuto(chartType: string, colX: string, colY: string, xNum: bool, yNum: bool): (r: Result<Resolved, PlotError>)
    ensures KindOf(chartType) != Auto ==> r == Ok(Resolved(chartType, colX, colY))
  {
    if KindOf(chartType) == Auto then
      if xNum && yNum then Ok(Resolved(ScatterLabel, colX, colY))
      else if !xNum && yNum then Ok(Resolved(BarLabel, colX, colY))
      else if xNum && !yNum then Ok(Resolved(BarLabel, colY, colX))
      else Err(AutoUnresolvable)
    else Ok(Resolved(chartType, colX, colY))
  }

  /** Everything after the figure is created. `xNum` and `yNum` are the
      numeric flags of the columns as first selected; the source does not
      swap them along with the names. */
  function Draw(t: Table, chartType: string, colX: string, colY: string, xNum: bool, yNum: bool): Result<Figure, PlotError>
    requires ValidColumn(t, colX) && ValidColumn(t, colY)
    requires xNum == IsNumericColumn(t, colX) && yNum == IsNumericColumn(t, colY)
  {
    match ResolveAuto(chartType, colX, colY, xNum, yNum)
    case Err(e) => Err(e)
    case Ok(Resolved(resolved, x, y)) =>
      var kind := KindOf(resolved);
      if kind == Scatter then
        if !xNum || !yNum then Err(ScatterNeedsNumbers)
        else Ok(Figure(ScatterPlot(Zip(Lookup(t, x).value.values, Lookup(t, y).value.values)), x, y))
      else if kind == Bar || kind == Line || kind == Pie then
        if xNum == yNum then Err(NeedsCategoryAndNumber(resolved))
        else
          var cat := if !IsNumericColumn(t, x) then x else y;
          var val := if !IsNumericColumn(t, x) then y else x;
          var g := Grouped(CategoryRows(t, cat, val));
          if kind == Bar then Ok(Figure(BarPlot(BarSeries(g)), x, y))
          else if kind == Line then Ok(Figure(LinePlot(LineSeries(g)), x, y))
          // pandas refuses to draw a pie with a negative slice
          else if !NonNegative(PieSlices(g)) then Err(NegativeSlices)
          else Ok(Figure(PiePlot(PieSlices(g)), x, y))
      else
        Ok(Figure(NoPlot, x, y))
  }

  /** `create_plot(df, chart_type, col_x, col_y)`. */
  function CreatePlot(t: Table, chartType: string, colX: string, colY: string): (run: PlotRun)
    ensures run.result.Ok? <==> run.openFigures == 1
    ensures run.result.Err? <==> run.openFigures == 0
    ensures !ValidColumn(t, colX) || !ValidColumn(t, colY) ==> run.result == Err(InvalidColumns)
  {
    if !ValidColumn(t, colX) || !ValidColumn(t, colY) then
      PlotRun(Err(InvalidColumns), 0)
    else
      // the figure is opened here and closed again on any failure
      match Draw(t, chartType, colX, colY, IsNumericColumn(t, colX), IsNumericColumn(t, colY))
      case Ok(fig) => PlotRun(Ok(fig), 1)
      case Err(e) => PlotRun(Err(e), 0)
  }

  // ---------------------------------------------------------------------
  // Properties of create_plot
  // ---------------------------------------------------------------------

  /** The automatic kind: scatter for two numeric columns, a bar chart with
      the categorical column on the x axis when exactly one is numeric, and
      an error when neither is. Once resolved, the automatic kind draws
      exactly what the resolved kind draws on the same (possibly swapped)
      columns. */
  lemma AutoResolution(t: Table, colX: string, colY: string)
    requires ValidColumn(t, colX) && ValidColumn(t, colY)
    ensures var xNum, yNum, r := IsNumericColumn(t, colX), IsNumericColumn(t, colY), CreatePlot(t, AutoLabel, colX, colY).result;
      && (xNum && yNum ==> r.Ok? && r.value.plot.ScatterPlot? && r.value.xLabel == colX && r.value.yLabel == colY)
      && (!xNum && yNum ==> r.Ok? && r.value.plot.BarPlot? && r.value.xLabel == colX && r.value.yLabel == colY)
      && (xNum && !yNum ==> r.Ok? && r.value.plot.BarPlot? && r.value.xLabel == colY && r.value.yLabel == colX)
      && (!xNum && !yNum ==> r == Err(AutoUnresolvable))
    ensures var xNum, yNum := IsNumericColumn(t, colX), IsNumericColumn(t, colY);
      && (xNum && yNum ==> CreatePlot(t, AutoLabel, colX, colY) == CreatePlot(t, ScatterLabel, colX, colY))
      && (!xNum && yNum ==> CreatePlot(t, AutoLabel, colX, colY) == CreatePlot(t, BarLabel, colX, colY))
      && (xNum && !yNum ==> CreatePlot(t, AutoLabel, colX, colY) == CreatePlot(t, BarLabel, colY, colX))
  {
  }

  /** A scatter chart is drawn exactly when both columns are numeric, and
      pairs the two columns row by row. */
  lemma ScatterNeedsTwoNumericColumns(t: Table, chartType: string, colX: string, colY: string)
    requires ValidColumn(t, colX) && ValidColumn(t, colY)
    requires KindOf(chartType) == Scatter
    ensures var r := CreatePlot(t, chartType, colX, colY).result;
      && (r.Ok? <==> IsNumericColumn(t, colX) && IsNumericColumn(t, colY))
      && (r.Err? ==> r.error == ScatterNeedsNumbers)
      && (r.Ok? ==>
            var xs, ys := Lookup(t, colX).value.values, Lookup(t, colY).value.values;
            && r.value.plot.ScatterPlot?
            && |r.value.plot.points| == (if |xs| < |ys| then |xs| else |ys|)
            && forall i :: 0 <= i < |r.value.plot.points| ==> r.value.plot.points[i] == (xs[i], ys[i]))
  {
  }

  /** Bar, line and pie charts need one categorical and one numeric column;
      two of the same kind are refused with the chart's own name. Bar and
      line charts on a mixed pair are always drawn. */
  lemma GroupedKindsNeedMixedColumns(t: Table, chartType: string, colX: string, colY: string)
    requires ValidColumn(t, colX) && ValidColumn(t, colY)
    requires KindOf(chartType) in {Bar, Line, Pie}
    ensures var r := CreatePlot(t, chartType, colX, colY).result;
      && (IsNumericColumn(t, colX) == IsNumericColumn(t, colY) ==> r == Err(NeedsCategoryAndNumber(chartType)))
      && (IsNumericColumn(t, colX) != IsNumericColumn(t, colY) && KindOf(chartType) != Pie ==> r.Ok?)
      && (r.Err? && r.error != NeedsCategoryAndNumber(chartType) ==> KindOf(chartType) == Pie && r.error == NegativeSlices)
  {
  }

  /** The categorical and the numeric column of a mixed pair. */
  function CategoryOf(t: Table, colX: string, colY: string): string
    requires ValidColumn(t, colX) && ValidColumn(t, colY)
  {
    if !IsNumericColumn(t, colX) then colX else colY
  }

  function ValueOf(t: Table, colX: string, colY: string): string
    requires ValidColumn(t, colX) && ValidColumn(t, colY)
  {
    if !IsNumericColumn(t, colX) then colY else colX
  }

  /** The series a bar, line or pie chart on a mixed pair of columns shows;
      a pie with a negative slice is refused instead. */
  function ShownSeries(t: Table, chartType: string, colX: string, colY: string): (s: seq<Entry>)
    requires ValidColumn(t, colX) && ValidColumn(t, colY)
    requires IsNumericColumn(t, colX) != IsNumericColumn(t, colY)
    requires KindOf(chartType) in {Bar, Line, Pie}
    ensures var r := CreatePlot(t, chartType, colX, colY).result;
      && (r.Ok? <==> KindOf(chartType) != Pie || NonNegative(s))
      && (r.Err? ==> r.error == NegativeSlices)
      && (r.Ok? ==>
            && (KindOf(chartType) == Bar ==> r.value.plot == BarPlot(s))
            && (KindOf(chartType) == Line ==> r.value.plot == LinePlot(s))
            && (KindOf(chartType) == Pie ==> r.value.plot == PiePlot(s)))
  {
    var g := Grouped(CategoryRows(t, CategoryOf(t, colX, colY), ValueOf(t, colX, colY)));
    match KindOf(chartType)
    case Bar => BarSeries(g)
    case Line => LineSeries(g)
    case Pie => PieSlices(g)
  }

  /** A bar chart shows `min(15, categories)` bars, each a category with the
      sum of its values, largest first, and no category left out has a
      larger sum than a category shown. */
  lemma BarChartShowsTopGroups(t: Table, chartType: string, colX: string, colY: string)
    requires ValidColumn(t, colX) && ValidColumn(t, colY)
    requires IsNumericColumn(t, colX) != IsNumericColumn(t, colY)
    requires KindOf(chartType) == Bar
    ensures var rows := CategoryRows(t, CategoryOf(t, colX, colY), ValueOf(t, colX, colY));
      ShowsTopGroups(rows, ShownSeries(t, chartType, colX, colY), BarLimit)
  {
    BarShowsTopCategories(CategoryRows(t, CategoryOf(t, colX, colY), ValueOf(t, colX, colY)));
  }

  /** A line chart shows `min(20, categories)` points, each a different category with
      the sum of its values, in category order, and no category left out
      has a larger sum than one shown. */
  lemma LineChartShowsTopGroupsByKey(t: Table, chartType: string, colX: string, colY: string)
    requires ValidColumn(t, colX) && ValidColumn(t, colY)
    requires IsNumericColumn(t, colX) != IsNumericColumn(t, colY)
    requires KindOf(chartType) == Line
    ensures var rows := CategoryRows(t, CategoryOf(t, colX, colY), ValueOf(t, colX, colY));
      var line := ShownSeries(t, chartType, colX, colY);
      && |line| == (if |KeySet(rows)| < LineLimit then |KeySet(rows)| else LineLimit)
      && DistinctKeys(line)
      && SortedByKey(line)
      && (forall e :: e in line ==> e.0 in KeySet(rows) && e.1 == SumFor(rows, e.0))
      && (forall e, k :: e in line && k in KeySet(rows) - KeySet(line) ==> SumFor(rows, k) <= e.1)
  {
    LineShowsTopCategoriesByKey(CategoryRows(t, CategoryOf(t, colX, colY), ValueOf(t, colX, colY)));
  }

  /** A pie chart on at most 7 categories shows each one; on more it shows
      the top 7 and one `Outros` slice, 8 in all, and either way its slices
      add up to the column's total, provided none of the 7 largest
      categories is itself named `Outros`. */
  lemma PieChartKeepsTotal(t: Table, chartType: string, colX: string, colY: string)
    requires ValidColumn(t, colX) && ValidColumn(t, colY)
    requires IsNumericColumn(t, colX) != IsNumericColumn(t, colY)
    requires KindOf(chartType) == Pie
    requires OthersLabel !in KeySet(Take(Grouped(CategoryRows(t, CategoryOf(t, colX, colY), ValueOf(t, colX, colY))), PieLimit))
    ensures var rows := CategoryRows(t, CategoryOf(t, colX, colY), ValueOf(t, colX, colY));
      var slices := ShownSeries(t, chartType, colX, colY);
      && |slices| == (if |KeySet(rows)| <= PieLimit then |KeySet(rows)| else PieLimit + 1)
      && Total(slices) == Total(rows)
      && (|KeySet(rows)| > PieLimit ==> slices[PieLimit].0 == OthersLabel)
  {
    PieKeepsCategoryTotal(CategoryRows(t, CategoryOf(t, colX, colY), ValueOf(t, colX, colY)));
  }

  /** A pie chart on a value column without negative numbers is drawn. */
  lemma PieDrawnWithoutNegativeValues(t: Table, chartType: string, colX: string, colY: string)
    requires ValidColumn(t, colX) && ValidColumn(t, colY)
    requires IsNumericColumn(t, colX) != IsNumericColumn(t, colY)
    requires KindOf(chartType) == Pie
    requires forall v :: v in Lookup(t, ValueOf(t, colX, colY)).value.values ==> v >= 0
    ensures CreatePlot(t, chartType, colX, colY).result.Ok?
  {
    var rows := CategoryRows(t, CategoryOf(t, colX, colY), ValueOf(t, colX, colY));
    var vs := Lookup(t, ValueOf(t, colX, colY)).value.values;
    assert rows == Zip(Lookup(t, CategoryOf(t, colX, colY)).value.labels, vs);
    forall i | 0 <= i < |rows| ensures rows[i].1 >= 0 {
      assert i < |vs| && rows[i].1 == vs[i] && vs[i] in vs;
    }
    PieSlicesNonNegative(rows);
    var _ := ShownSeries(t, chartType, colX, colY);
  }
}
