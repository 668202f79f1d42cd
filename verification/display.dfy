/** The older tkinter-era chart: canvas layout, title and legend text, debug guides and the click crosshair. */
module Display {
  import opened Wrappers
  import opened PyValues
  import opened Numerals
  import opened Tk
  import opened Quickplots

  /** A chart of this generation: the same options as the base chart, and its own label list. */
  datatype DisplayChart = DisplayChart(options: ChartOptions, labels: seq<PyValue>)

  /** `Chart.__init__`: the options are stored as given and the label list starts empty. */
  function NewDisplayChart(options: ChartOptions): (c: DisplayChart)
    ensures c.options == options && c.labels == []
  {
    DisplayChart(options, [])
  }

  /** The fixed legend metrics set when the legend is on. */
  datatype DisplayLegend = DisplayLegend(topMargin: int, xMargin: int, rowHeight: int, padding: int)

  /** The canvas attributes `_prepare_canvas` sets; the size is the canvas's integer pixel size. */
  datatype DisplayLayout = DisplayLayout(
    width: int, height: int,
    titleHeight: real, legendWidth: real, chartWidth: real, chartHeight: real,
    plotMargin: real, marginTop: real, plotHeight: real, plotWidth: real,
    legend: Option<DisplayLegend>)

  /** `_prepare_canvas` for a `width` by `height` canvas. */
  function PrepareLayout(width: int, height: int, legend: bool): (l: DisplayLayout)
    ensures l.width == width && l.height == height
    ensures l.titleHeight * 10.0 == height as real && l.titleHeight + l.chartHeight == height as real
    ensures l.legendWidth == (if legend then 200.0 else 0.0) && l.legendWidth + l.chartWidth == width as real
    ensures l.plotMargin >= width as real / 20.0 && l.plotMargin >= (height * width) as real / 10000.0
    ensures l.plotMargin == width as real / 20.0 || l.plotMargin == (height * width) as real / 10000.0
    ensures l.plotMargin + l.plotWidth + l.plotMargin == l.chartWidth
    ensures l.marginTop * 50.0 == height as real
    ensures l.titleHeight + l.marginTop + l.plotHeight + l.plotMargin == height as real
    ensures l.legend.Some? <==> legend
    ensures legend ==> l.legend.value == DisplayLegend(80, 10, 30, 5)
  {
    var w, h := width as real, height as real;
    var titleHeight := h / 10.0;
    var legendWidth := if legend then 200.0 else 0.0;
    var chartWidth := w - legendWidth;
    var chartHeight := h - titleHeight;
    var plotMargin := Max((height * width) as real / 10000.0, w / 20.0);
    var marginTop := h / 50.0;
    DisplayLayout(
      width, height, titleHeight, legendWidth, chartWidth, chartHeight,
      plotMargin, marginTop, chartHeight - (plotMargin + marginTop), chartWidth - 2.0 * plotMargin,
      if legend then Some(DisplayLegend(80, 10, 30, 5)) else None)
  }

  /** The canvas calls this chart makes. */
  datatype Item =
    | TextItem(x: real, y: real, text: PyValue, font: string, anchor: Option<Anchor>, justify: Option<Justify>)
    | LineItem(x1: real, y1: real, x2: real, y2: real, dash: Dash, fill: Option<string>)
    | RectangleItem(x1: real, y1: real, x2: real, y2: real, dash: Dash)

  /** `_write_title`: centred in the title band, in a bold font two thirds of the band's height. */
  function TitleItem(chart: DisplayChart, l: DisplayLayout): (t: Item)
    ensures t.TextItem? && 2.0 * t.x == l.chartWidth && 2.0 * t.y == l.titleHeight
    ensures t.text == chart.options.title && t.anchor.None? && t.justify.None?
  {
    TextItem(l.chartWidth / 2.0, l.titleHeight / 2.0, chart.options.title,
      "bold " + IntToString(Trunc(l.titleHeight / 1.5)), None, None)
  }

  /** For a canvas of non-negative height the title font size is the height over fifteen, rounded down. */
  lemma TitleFontSize(chart: DisplayChart, width: int, height: int, legend: bool)
    requires height >= 0
    ensures TitleItem(chart, PrepareLayout(width, height, legend)).font == "bold " + IntToString(height / 15)
  {
    var th := PrepareLayout(width, height, legend).titleHeight;
    assert th / 1.5 == height as real / 15.0;
    var q, r := height / 15, height % 15;
    assert height == 15 * q + r && 0 <= r < 15;
    assert q as real <= height as real / 15.0 < q as real + 1.0;
  }

  /** `_create_legend`: one left-anchored text per label, stacked 30 apart from y = 95, when the legend is on. */
  function LegendItems(chart: DisplayChart, l: DisplayLayout): (items: seq<Item>)
    ensures |items| == (if Truthy(chart.options.legend) then |chart.labels| else 0)
    ensures forall i :: 0 <= i < |items| ==>
              && items[i].TextItem?
              && items[i].y == (80 + 30 * i + 15) as real
              && items[i].x == l.width as real - l.legendWidth + 40.0
              && items[i].text == chart.labels[i]
              && items[i].anchor == Some(W) && items[i].justify == Some(Left)
              && items[i].font == "Tahoma 10"
  {
    if !Truthy(chart.options.legend) then []
    else
      seq(|chart.labels|, i requires 0 <= i < |chart.labels| =>
        TextItem(
          (l.width as real - l.legendWidth) + 10.0 + 2.0 * 5.0 + 30.0 / 1.5,
          80.0 + 30.0 * i as real + 30.0 / 2.0,
          chart.labels[i], "Tahoma 10", Some(W), Some(Left)))
  }

  /**
   * How many legend row guides fit: the guide lines at 80 + 30k for
   * k = 1..count all lie on the canvas, and the next one would not.
   */
  function DebugRowCount(height: int): (count: nat)
    ensures count == 0 || 80 + 30 * count <= height
    ensures 80 + 30 * (count + 1) > height
  {
    var k := (height - 80) / 30;
    if k < 0 then 0 else k
  }

  function RowGuides(l: DisplayLayout, count: nat): (items: seq<Item>) {
    seq(count, row requires 0 <= row < count =>
      var y := (80 + (row + 1) * 30) as real;
      LineItem(l.chartWidth + 10.0, y, l.width as real - 10.0, y, Dash(3, 3), None))
  }

  /** The plot border rectangle the debug guides draw. */
  function PlotBorder(l: DisplayLayout): Item {
    RectangleItem(
      l.plotMargin, l.titleHeight + l.marginTop,
      l.width as real - (l.legendWidth + l.plotMargin), l.height as real - l.plotMargin,
      Dash(2, 2))
  }

  /** `_debug_lines`: the title, legend and plot borders, and the legend's row guides. */
  function DebugItems(chart: DisplayChart, l: DisplayLayout): (items: seq<Item>)
    ensures !Truthy(chart.options.debug) ==> items == []
    ensures Truthy(chart.options.debug) ==>
              |items| == 3 + (if Truthy(chart.options.legend) then 1 + DebugRowCount(l.height) else 0)
    ensures Truthy(chart.options.debug) ==>
              && items[0] == LineItem(0.0, l.titleHeight, l.chartWidth, l.titleHeight, Dash(1, 1), None)
              && items[1] == LineItem(l.chartWidth, 0.0, l.chartWidth, l.height as real, Dash(1, 1), None)
              && items[2] == PlotBorder(l)
    ensures Truthy(chart.options.debug) && Truthy(chart.options.legend) ==>
              && items[3] == RectangleItem(l.chartWidth + 10.0, 80.0, l.width as real - 10.0, l.height as real, Dash(2, 2))
              && forall i :: 4 <= i < |items| ==>
                   && items[i] == LineItem(l.chartWidth + 10.0, (80 + 30 * (i - 3)) as real,
                                           l.width as real - 10.0, (80 + 30 * (i - 3)) as real, Dash(3, 3), None)
                   && items[i].y1 <= l.height as real
  {
    if !Truthy(chart.options.debug) then []
    else
      var borders := [
        LineItem(0.0, l.titleHeight, l.chartWidth, l.titleHeight, Dash(1, 1), None),
        LineItem(l.chartWidth, 0.0, l.chartWidth, l.height as real, Dash(1, 1), None),
        PlotBorder(l)
      ];
      if !Truthy(chart.options.legend) then borders
      else
        var count := DebugRowCount(l.height);
        var guides := RowGuides(l, count);
        assert forall row :: 0 <= row < count ==> guides[row].y1 <= l.height as real by {
          forall row | 0 <= row < count ensures guides[row].y1 <= l.height as real {
            assert 80 + (row + 1) * 30 <= 80 + 30 * count;
          }
        }
        var items := borders + [RectangleItem(l.chartWidth + 10.0, 80.0, l.width as real - 10.0, l.height as real, Dash(2, 2))]
          + guides;
        assert forall i :: 4 <= i < |items| ==> items[i] == guides[i - 4];
        items
  }

  /** The canvas: its layout and the items drawn on it, in order. */
  datatype DisplayCanvas = DisplayCanvas(layout: DisplayLayout, items: seq<Item>)

  /** The chart methods `ChartCanvas.request_repaint` calls. */
  datatype Hook = PrepareCanvas | DrawGrids | PaintSeries | DrawPlotBounds | WriteTitle | CreateLegend | DebugLines

  /** The order `request_repaint` calls them in. */
  const RepaintHooks: seq<Hook> :=
    [PrepareCanvas, DrawGrids, PaintSeries, DrawPlotBounds, WriteTitle, CreateLegend, DebugLines]

  /** One hook on a `width` by `height` canvas: prepare clears it and lays it out; the others draw or do nothing. */
  function RunHook(chart: DisplayChart, h: Hook, c: DisplayCanvas, width: int, height: int): DisplayCanvas {
    match h
    case PrepareCanvas => DisplayCanvas(PrepareLayout(width, height, Truthy(chart.options.legend)), [])
    case DrawGrids => c
    case PaintSeries => c
    case DrawPlotBounds => c
    case WriteTitle => c.(items := c.items + [TitleItem(chart, c.layout)])
    case CreateLegend => c.(items := c.items + LegendItems(chart, c.layout))
    case DebugLines => c.(items := c.items + DebugItems(chart, c.layout))
  }

  /** The hooks run one after the other. */
  function RunHooks(chart: DisplayChart, hs: seq<Hook>, c: DisplayCanvas, width: int, height: int): DisplayCanvas
    decreases |hs|
  {
    if hs == [] then c else RunHooks(chart, hs[1..], RunHook(chart, hs[0], c, width, height), width, height)
  }

  /**
   * `ChartCanvas.request_repaint`: the seven hooks in order on whatever the
   * canvas held. The result is the freshly prepared layout with the title
   * first, the legend labels next and the debug guides last.
   */
  function RequestRepaint(chart: DisplayChart, prior: DisplayCanvas, width: int, height: int): (c: DisplayCanvas)
    ensures c.layout == PrepareLayout(width, height, Truthy(chart.options.legend))
    ensures var n := |LegendItems(chart, c.layout)|;
            && |c.items| == 1 + n + |DebugItems(chart, c.layout)|
            && c.items[0] == TitleItem(chart, c.layout)
            && c.items[1..1 + n] == LegendItems(chart, c.layout)
            && c.items[1 + n..] == DebugItems(chart, c.layout)
  {
    RepaintRunsHooks(chart, prior, width, height);
    var l := PrepareLayout(width, height, Truthy(chart.options.legend));
    var legend := LegendItems(chart, l);
    var items := [TitleItem(chart, l)] + legend + DebugItems(chart, l);
    assert items[1..1 + |legend|] == legend;
    RunHooks(chart, RepaintHooks, prior, width, height)
  }

  lemma RunHooksStep(chart: DisplayChart, h: Hook, hs: seq<Hook>, c: DisplayCanvas, width: int, height: int)
    ensures RunHooks(chart, [h] + hs, c, width, height) == RunHooks(chart, hs, RunHook(chart, h, c, width, height), width, height)
  {
    assert ([h] + hs)[1..] == hs;
  }

  /** Running the seven hooks lays the canvas out afresh, then draws title, legend and debug items. */
  lemma RepaintRunsHooks(chart: DisplayChart, prior: DisplayCanvas, width: int, height: int)
    ensures var l := PrepareLayout(width, height, Truthy(chart.options.legend));
            RunHooks(chart, RepaintHooks, prior, width, height)
              == DisplayCanvas(l, [TitleItem(chart, l)] + LegendItems(chart, l) + DebugItems(chart, l))
  {
    var l := PrepareLayout(width, height, Truthy(chart.options.legend));
    var rest := [DrawGrids, PaintSeries, DrawPlotBounds, WriteTitle, CreateLegend, DebugLines];
    assert RepaintHooks == [PrepareCanvas] + rest;
    RunHooksStep(chart, PrepareCanvas, rest, prior, width, height);
    DrawingHooks(chart, l, width, height);
  }

  /** After prepare, the remaining six hooks draw title, legend and debug items on the layout. */
  lemma DrawingHooks(chart: DisplayChart, l: DisplayLayout, width: int, height: int)
    ensures RunHooks(chart, [DrawGrids, PaintSeries, DrawPlotBounds, WriteTitle, CreateLegend, DebugLines],
                     DisplayCanvas(l, []), width, height)
              == DisplayCanvas(l, [TitleItem(chart, l)] + LegendItems(chart, l) + DebugItems(chart, l))
  {
    var c0 := DisplayCanvas(l, []);
    var t, g, d := [TitleItem(chart, l)], LegendItems(chart, l), DebugItems(chart, l);
    var c1, c2, c3 := DisplayCanvas(l, t), DisplayCanvas(l, t + g), DisplayCanvas(l, t + g + d);
    var s6: seq<Hook> := [DebugLines];
    var s5 := [CreateLegend] + s6;
    var s4 := [WriteTitle] + s5;
    var s3 := [DrawPlotBounds] + s4;
    var s2 := [PaintSeries] + s3;
    assert [DrawGrids, PaintSeries, DrawPlotBounds, WriteTitle, CreateLegend, DebugLines] == [DrawGrids] + s2;
    RunHooksStep(chart, DrawGrids, s2, c0, width, height);
    RunHooksStep(chart, PaintSeries, s3, c0, width, height);
    RunHooksStep(chart, DrawPlotBounds, s4, c0, width, height);
    RunHooksStep(chart, WriteTitle, s5, c0, width, height);
    assert RunHook(chart, WriteTitle, c0, width, height) == c1;
    RunHooksStep(chart, CreateLegend, s6, c1, width, height);
    assert RunHook(chart, CreateLegend, c1, width, height) == c2;
    RunHooksStep(chart, DebugLines, [], c2, width, height);
    assert RunHook(chart, DebugLines, c2, width, height) == c3;
    assert [DebugLines] + [] == s6;
  }

  /** Without debug guides a repaint draws only text: the title and one item per legend label. */
  lemma QuietRepaintIsText(chart: DisplayChart, prior: DisplayCanvas, width: int, height: int)
    requires !Truthy(chart.options.debug)
    ensures var c := RequestRepaint(chart, prior, width, height);
            && |c.items| == 1 + (if Truthy(chart.options.legend) then |chart.labels| else 0)
            && forall i :: 0 <= i < |c.items| ==> c.items[i].TextItem?
  {
    var c := RequestRepaint(chart, prior, width, height);
    var n := |LegendItems(chart, c.layout)|;
    forall i | 0 <= i < |c.items| ensures c.items[i].TextItem? {
      if i > 0 {
        assert c.items[i] == c.items[1..1 + n][i - 1];
      }
    }
  }

  /** A chart built by the constructor has no labels, so a repaint never writes legend text. */
  lemma NewChartWritesNoLegendText(options: ChartOptions, prior: DisplayCanvas, width: int, height: int)
    ensures var c := NewDisplayChart(options);
            LegendItems(c, RequestRepaint(c, prior, width, height).layout) == []
  {
  }

  /** Legend label `i` sits midway between the row guides above and below it. */
  lemma LabelsCentredBetweenGuides(chart: DisplayChart, width: int, height: int, i: nat)
    requires Truthy(chart.options.legend) && Truthy(chart.options.debug)
    requires i < |chart.labels| && 0 < i < DebugRowCount(height)
    ensures var l := PrepareLayout(width, height, true);
            var guides := DebugItems(chart, l)[4..];
            LegendItems(chart, l)[i].y == (guides[i - 1].y1 + guides[i].y1) / 2.0
  {
  }

  /** `on_click`'s test: strictly inside the plot area, with one pixel of slack right and two below. */
  predicate InPlotArea(l: DisplayLayout, x: int, y: int) {
    && x as real > l.plotMargin && x as real < l.plotMargin + l.plotWidth + 1.0
    && y as real > l.titleHeight + l.marginTop
    && y as real < l.titleHeight + l.marginTop + l.plotHeight + 2.0
  }

  /** The click area is the debug plot border, widened by one pixel to the right and two downward. */
  lemma ClickAreaIsPlotBorder(width: int, height: int, legend: bool, x: int, y: int)
    ensures var l := PrepareLayout(width, height, legend);
            var b := PlotBorder(l);
            InPlotArea(l, x, y) <==>
              b.x1 < x as real < b.x2 + 1.0 && b.y1 < y as real < b.y2 + 2.0
  {
  }

  /** The two red dotted crosshair lines through a click, spanning the plot area. */
  function Crosshair(l: DisplayLayout, x: int, y: int): seq<Item> {
    [
      LineItem((x - 1) as real, l.height as real - l.plotMargin,
        (x - 1) as real, l.titleHeight + l.marginTop, Dash(1, 1), Some("red")),
      LineItem(l.plotMargin, (y - 1) as real, l.plotMargin + l.plotWidth, (y - 1) as real, Dash(1, 1), Some("red"))
    ]
  }

  /** `on_click`: repaint, then draw the crosshair only when the click is inside the plot area. */
  function OnClick(chart: DisplayChart, prior: DisplayCanvas, width: int, height: int, x: int, y: int): (c: DisplayCanvas)
    ensures var r := RequestRepaint(chart, prior, width, height);
            && c.layout == r.layout
            && |c.items| >= |r.items|
            && c.items[..|r.items|] == r.items
            && (InPlotArea(c.layout, x, y) <==> |c.items| == |r.items| + 2)
            && (!InPlotArea(c.layout, x, y) ==> c.items == r.items)
    ensures InPlotArea(c.layout, x, y) ==>
              var b, v, h := PlotBorder(c.layout), c.items[|c.items| - 2], c.items[|c.items| - 1];
              && v.LineItem? && v.x1 == v.x2 == (x - 1) as real && v.y1 == b.y2 && v.y2 == b.y1
              && h.LineItem? && h.y1 == h.y2 == (y - 1) as real && h.x1 == b.x1 && h.x2 == b.x2
              && v.dash == h.dash == Dash(1, 1) && v.fill == h.fill == Some("red")
  {
    var r := RequestRepaint(chart, prior, width, height);
    if InPlotArea(r.layout, x, y) then r.(items := r.items + Crosshair(r.layout, x, y)) else r
  }
}
