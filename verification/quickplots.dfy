/** The live part of the package root: the colour palette, the base `Chart` and its painter bindings. */
module Quickplots {
  import opened Wrappers
  import opened PyValues
  import opened Canvas

  /** `COLORS`: the fixed series palette. */
  const Colors: seq<string> := [
    "#F15854", "#60BD68", "#5DA5DA", "#FAA43A",
    "#F17CB0", "#B2912F", "#B276B2", "#DECF3F", "#4D4D4D"
  ]

  predicate IsHexDigit(c: char) {
    '0' <= c <= '9' || 'A' <= c <= 'F' || 'a' <= c <= 'f'
  }

  /** A `#RRGGBB` colour string. */
  predicate IsHexColor(s: string) {
    |s| == 7 && s[0] == '#' && forall i :: 1 <= i < 7 ==> IsHexDigit(s[i])
  }

  /** The palette holds nine distinct `#RRGGBB` colours. */
  lemma PaletteIsNineDistinctColours()
    ensures |Colors| == 9
    ensures forall i :: 0 <= i < |Colors| ==> IsHexColor(Colors[i])
    ensures forall i, j :: 0 <= i < j < |Colors| ==> Colors[i] != Colors[j]
  {
    forall i | 0 <= i < |Colors| ensures IsHexColor(Colors[i]) {
      var c := Colors[i];
      assert c[1] in "0123456789ABCDEF" && c[2] in "0123456789ABCDEF" && c[3] in "0123456789ABCDEF";
      assert c[4] in "0123456789ABCDEF" && c[5] in "0123456789ABCDEF" && c[6] in "0123456789ABCDEF";
    }
    forall i, j | 0 <= i < j < |Colors| ensures Colors[i] != Colors[j] {
      var a, b := Colors[i], Colors[j];
      assert a[1..3] != b[1..3] || a[3..5] != b[3..5] || a[5..] != b[5..];
    }
  }

  /** The constructor arguments, stored without any check. */
  datatype ChartOptions = ChartOptions(
    title: PyValue,
    legend: PyValue,
    windowDimensions: PyValue,
    windowTitle: PyValue,
    backgroundColor: PyValue,
    canvasMargin: PyValue,
    debug: PyValue)

  /** The options a `Chart(...)` call stores; `None` marks an argument left out. */
  function Options(
    title: Option<PyValue>, legend: Option<PyValue>, windowDimensions: Option<PyValue>,
    windowTitle: Option<PyValue>, backgroundColor: Option<PyValue>, canvasMargin: Option<PyValue>,
    debug: Option<PyValue>): (o: ChartOptions)
    ensures title.Some? ==> o.title == title.value
    ensures legend.Some? ==> o.legend == legend.value
    ensures windowDimensions.Some? ==> o.windowDimensions == windowDimensions.value
    ensures windowTitle.Some? ==> o.windowTitle == windowTitle.value
    ensures backgroundColor.Some? ==> o.backgroundColor == backgroundColor.value
    ensures canvasMargin.Some? ==> o.canvasMargin == canvasMargin.value
    ensures debug.Some? ==> o.debug == debug.value
    ensures title.None? ==> o.title == Str("")
    ensures legend.None? ==> o.legend == Bool(false)
    ensures windowDimensions.None? ==> o.windowDimensions == List([Int(900), Int(700)])
    ensures windowTitle.None? ==> o.windowTitle == Str("")
    ensures backgroundColor.None? ==> o.backgroundColor == Str("#CCCCCC")
    ensures canvasMargin.None? ==> o.canvasMargin == Int(50)
    ensures debug.None? ==> o.debug == Bool(false)
  {
    ChartOptions(
      title.GetOr(Str("")), legend.GetOr(Bool(false)), windowDimensions.GetOr(List([Int(900), Int(700)])),
      windowTitle.GetOr(Str("")), backgroundColor.GetOr(Str("#CCCCCC")), canvasMargin.GetOr(Int(50)),
      debug.GetOr(Bool(false)))
  }

  /** `Chart()` with every argument left out. */
  lemma DefaultOptions()
    ensures var o := Options(None, None, None, None, None, None, None);
            && o.title == Str("") && o.legend == Bool(false)
            && o.windowDimensions == List([Int(900), Int(700)])
            && o.windowTitle == Str("") && o.backgroundColor == Str("#CCCCCC")
            && o.canvasMargin == Int(50) && o.debug == Bool(false)
  {
  }

  /** Passing stored options back as arguments rebuilds the same options. */
  lemma OptionsRebuild(o: ChartOptions)
    ensures Options(Some(o.title), Some(o.legend), Some(o.windowDimensions), Some(o.windowTitle),
                    Some(o.backgroundColor), Some(o.canvasMargin), Some(o.debug)) == o
  {
  }

  /**
   * The live base chart. An immutable value cannot contain itself, so the
   * canvas's back-reference holds the chart's options, which identify it.
   */
  datatype Chart = Chart(options: ChartOptions, legendLabels: seq<string>, canvas: QuickplotsCanvas<ChartOptions>)

  /** `Chart.__init__`. */
  function NewChart(options: ChartOptions): (c: Chart)
    ensures c.options == options
    ensures c.legendLabels == ["One", "two"]
    ensures c.canvas.chart == c.options
  {
    Chart(options, ["One", "two"], QuickplotsCanvas(options))
  }

  /** The canvas's back-reference is enough to rebuild the chart it was created for. */
  lemma CanvasIdentifiesChart(options: ChartOptions)
    ensures NewChart(NewChart(options).canvas.chart) == NewChart(options)
  {
  }

  /** Whether the legend column is shown: `if chart.legend`. */
  predicate LegendOn(c: Chart) {
    Truthy(c.options.legend)
  }

  /** The functions from `painters` that the base chart binds to its hooks. */
  datatype Painter = Empty | ChartPrepareCanvas | ChartWriteTitle | ChartWriteLegendLabels

  /** The base chart's class attributes; `_paint_debug_lines` is never bound. */
  function Binding(s: Step): (p: Option<Painter>)
    ensures p.None? <==> s == PaintDebugLines
    ensures p == Some(Empty) <==> s in {PaintGrids, PaintSeries, PaintPlotBounds, PaintLegendSymbols}
  {
    match s
    case Prepare => Some(ChartPrepareCanvas)
    case PaintGrids => Some(Empty)
    case PaintSeries => Some(Empty)
    case PaintPlotBounds => Some(Empty)
    case WriteTitle => Some(ChartWriteTitle)
    case WriteLegendLabels => Some(ChartWriteLegendLabels)
    case PaintLegendSymbols => Some(Empty)
    case PaintDebugLines => None
  }
}
