/** The painter functions the base chart binds: canvas layout, title and legend text boxes. */
module Painters {
  import opened Wrappers
  import opened PyValues
  import opened Quickplots

  /** The legend column's geometry, set only when the legend is on. */
  datatype LegendLayout = LegendLayout(
    yMargin: real, xMargin: real, rowHeight: real, rowWidth: real, symbolWidth: real, textWidth: real)

  /** The canvas attributes `_chart_prepare_canvas` sets. */
  datatype Layout = Layout(
    width: real, height: real,
    titleHeight: real, legendWidth: real, chartWidth: real, chartHeight: real,
    marginTop: real, marginLeft: real, marginRight: real, marginBottom: real,
    plotHeight: real, plotWidth: real,
    legend: Option<LegendLayout>)

  /**
   * A `create_text` request: its four positional arguments as passed, the
   * text, and the largest font size allowed. The canvas class defines no
   * `create_text`, so which point of the box `(x, y)` names is not fixed:
   * the title passes `(0, 0)` with the band's height, while a legend label
   * passes the vertical middle of its row as `y`.
   */
  datatype TextBox = TextBox(x: real, y: real, width: real, height: real, text: PyValue, maxFontSize: int)

  /** What the painters read and write on the canvas. `layout` is `None` until a prepare has run. */
  datatype CanvasState = CanvasState(layout: Option<Layout>, graphics: seq<TextBox>, legendSymbols: int)

  /** Reading a canvas attribute that was never set. */
  datatype PainterError = AttributeError

  /** Legend rows share the legend's height evenly, but are never taller than 30. */
  function RowHeight(height: real, labelCount: nat): real {
    Min((height - 2.0 * (height / 10.0)) / (if labelCount != 0 then labelCount as real else 1.0), 30.0)
  }

  /**
   * The layout arithmetic of `_chart_prepare_canvas` for a canvas of the
   * given size, with or without the legend column, for `labelCount` labels.
   */
  function ChartLayout(width: real, height: real, legend: bool, labelCount: nat): (l: Layout)
    ensures l.width == width && l.height == height
    ensures l.titleHeight * 10.0 == height && l.titleHeight + l.chartHeight == height
    ensures l.legendWidth == (if legend then width / 4.0 else 0.0)
    ensures l.legendWidth + l.chartWidth == width
    ensures l.marginLeft + l.plotWidth + l.marginRight == l.chartWidth
    ensures l.marginTop + l.plotHeight + l.marginBottom == l.chartHeight
    ensures 50.0 * l.marginTop == height && 10.0 * l.marginLeft == width
    ensures 20.0 * l.marginRight == width && 10.0 * l.marginBottom == height
    ensures l.plotHeight == 39.0 / 50.0 * height
    ensures l.plotWidth == (if legend then 3.0 / 5.0 else 17.0 / 20.0) * width
    ensures l.legend.Some? <==> legend
    ensures legend ==> var g := l.legend.value;
              && g.rowHeight == RowHeight(height, labelCount)
              && g.yMargin * 10.0 == height && 10.0 * g.xMargin == l.legendWidth
              && g.rowWidth + 2.0 * g.xMargin == l.legendWidth
              && g.symbolWidth + g.textWidth == g.rowWidth
              && 4.0 * g.symbolWidth == g.rowWidth
  {
    var titleHeight := height / 10.0;
    var legendWidth := if legend then width / 4.0 else 0.0;
    var chartWidth := width - legendWidth;
    var chartHeight := height - titleHeight;
    var marginTop := height / 50.0;
    var marginLeft := width / 10.0;
    var marginRight := width / 20.0;
    var marginBottom := height / 10.0;
    var legendLayout :=
      if legend then
        var yMargin := height / 10.0;
        var xMargin := legendWidth / 10.0;
        var rowWidth := legendWidth - 2.0 * xMargin;
        var symbolWidth := rowWidth * 0.25;
        Some(LegendLayout(yMargin, xMargin, RowHeight(height, labelCount), rowWidth, symbolWidth, rowWidth - symbolWidth))
      else None;
    Layout(
      width, height, titleHeight, legendWidth, chartWidth, chartHeight,
      marginTop, marginLeft, marginRight, marginBottom,
      chartHeight - (marginBottom + marginTop), chartWidth - (marginLeft + marginRight),
      legendLayout)
  }

  /**
   * Rows are at most 30 high. Unless capped at 30, they fill the space
   * between the legend's margins exactly, an empty label list counting as
   * one row. For a non-negative height they are non-negative and all fit.
   */
  lemma RowsFitInLegend(height: real, labelCount: nat)
    requires height >= 0.0
    ensures RowHeight(height, labelCount) <= 30.0
    ensures RowHeight(height, 0) == Min(0.8 * height, 30.0)
    ensures RowHeight(height, labelCount) == 30.0
            || (if labelCount == 0 then 1.0 else labelCount as real) * RowHeight(height, labelCount) == 0.8 * height
    ensures 0.0 <= RowHeight(height, labelCount)
    ensures labelCount as real * RowHeight(height, labelCount) <= height - 2.0 * (height / 10.0)
  {
    var avail := height - 2.0 * (height / 10.0);
    var m: real := if labelCount != 0 then labelCount as real else 1.0;
    var r := RowHeight(height, labelCount);
    assert avail / m * m == avail;
    assert r <= avail / m;
    assert labelCount as real <= m;
    MulMono(r, avail / m, m);
    assert m * r <= avail;
    MulMono(labelCount as real, m, r);
  }

  /** `a <= b` and `c >= 0` give `a * c <= b * c`. */
  lemma MulMono(a: real, b: real, c: real)
    requires a <= b && c >= 0.0
    ensures a * c <= b * c
  {
  }

  /** `_chart_prepare_canvas`: a fresh layout, no graphics and no legend symbols. */
  function PrepareCanvas(chart: Chart, s: CanvasState, width: real, height: real): (r: CanvasState)
    ensures r.graphics == [] && r.legendSymbols == 0
    ensures r.layout == Some(ChartLayout(width, height, LegendOn(chart), |chart.legendLabels|))
  {
    CanvasState(Some(ChartLayout(width, height, LegendOn(chart), |chart.legendLabels|)), [], 0)
  }

  /** The title box: the chart column above the plot, font at most 32. */
  function TitleBox(chart: Chart, l: Layout): TextBox {
    TextBox(0.0, 0.0, l.width - l.legendWidth, l.titleHeight, chart.options.title, 32)
  }

  /** `_chart_write_title`: appends the title box. */
  function WriteTitle(chart: Chart, s: CanvasState): (r: Result<CanvasState, PainterError>)
    ensures r.Success? <==> s.layout.Some?
    ensures r.Success? ==>
              && r.value.layout == s.layout && r.value.legendSymbols == s.legendSymbols
              && |r.value.graphics| == |s.graphics| + 1
              && r.value.graphics[..|s.graphics|] == s.graphics
              && var b := r.value.graphics[|s.graphics|];
                 && b.x == 0.0 && b.y == 0.0
                 && b.width + s.layout.value.legendWidth == s.layout.value.width
                 && b.height == s.layout.value.titleHeight
                 && b.text == chart.options.title && b.maxFontSize == 32
  {
    if s.layout.None? then Failure(AttributeError)
    else Success(s.(graphics := s.graphics + [TitleBox(chart, s.layout.value)]))
  }

  /** Row `index` of the legend: the text part to the right of the symbol, font at most 18. */
  function LegendBox(caption: string, index: nat, l: Layout, g: LegendLayout): TextBox {
    TextBox(
      l.chartWidth + g.xMargin + g.symbolWidth + g.textWidth / 25.0,
      g.yMargin + g.rowHeight * index as real + g.rowHeight / 2.0,
      g.textWidth * (24.0 / 25.0),
      g.rowHeight,
      Str(caption),
      18)
  }

  function LegendBoxes(labels: seq<string>, l: Layout, g: LegendLayout): (bs: seq<TextBox>) {
    seq(|labels|, i requires 0 <= i < |labels| => LegendBox(labels[i], i, l, g))
  }

  /** Whether `_chart_write_legend_labels` draws anything: the legend is on and there is a label. */
  predicate DrawsLabels(chart: Chart) {
    LegendOn(chart) && |chart.legendLabels| > 0
  }

  /**
   * `_chart_write_legend_labels`: one box per label when the legend is on,
   * none otherwise. The canvas's layout is read only inside the loop, so
   * only a painter with a label to draw raises on an unprepared canvas.
   */
  function WriteLegendLabels(chart: Chart, s: CanvasState): (r: Result<CanvasState, PainterError>)
    ensures r.Success? <==> !DrawsLabels(chart) || (s.layout.Some? && s.layout.value.legend.Some?)
    ensures !DrawsLabels(chart) ==> r == Success(s)
    ensures r.Success? ==>
              && r.value.layout == s.layout && r.value.legendSymbols == s.legendSymbols
              && |r.value.graphics| == |s.graphics| + (if LegendOn(chart) then |chart.legendLabels| else 0)
              && r.value.graphics[..|s.graphics|] == s.graphics
    ensures r.Success? && DrawsLabels(chart) ==>
              var l := s.layout.value;
              r.value.graphics[|s.graphics|..] == LegendBoxes(chart.legendLabels, l, l.legend.value)
    ensures r.Success? && DrawsLabels(chart) ==>
              var l, g, added := s.layout.value, s.layout.value.legend.value, r.value.graphics[|s.graphics|..];
              && (forall i :: 0 <= i < |added| ==>
                   && added[i].x == l.chartWidth + g.xMargin + g.symbolWidth + g.textWidth / 25.0
                   && added[i].width == g.textWidth * (24.0 / 25.0)
                   && added[i].maxFontSize == 18
                   && added[i].text == Str(chart.legendLabels[i])
                   && added[i].height == g.rowHeight
                   && added[i].y == g.yMargin + g.rowHeight * i as real + g.rowHeight / 2.0)
              && (forall i :: 0 < i < |added| ==> added[i].y - added[i - 1].y == g.rowHeight)
  {
    if !DrawsLabels(chart) then Success(s)
    else if s.layout.None? || s.layout.value.legend.None? then Failure(AttributeError)
    else
      var l := s.layout.value;
      var bs := LegendBoxes(chart.legendLabels, l, l.legend.value);
      var gs := s.graphics + bs;
      assert gs[|s.graphics|..] == bs;
      Success(s.(graphics := gs))
  }

  /** With the legend off, the painter leaves even an unprepared canvas untouched. */
  lemma LegendOffNeedsNoLayout(chart: Chart)
    requires !LegendOn(chart)
    ensures WriteLegendLabels(chart, CanvasState(None, [], 0)) == Success(CanvasState(None, [], 0))
  {
  }

  /**
   * In a prepared layout of non-negative size, every legend box lies inside
   * the legend column: right of the chart area, ending at the column's right
   * margin, and between its top and bottom margins.
   */
  lemma LegendBoxesInsideLegend(labels: seq<string>, width: real, height: real)
    requires width >= 0.0 && height >= 0.0
    ensures var l := ChartLayout(width, height, true, |labels|);
            var g := l.legend.value;
            forall i :: 0 <= i < |labels| ==>
              var b := LegendBoxes(labels, l, g)[i];
              && l.chartWidth <= b.x && b.x + b.width == width - g.xMargin
              && g.yMargin <= b.y - b.height / 2.0
              && b.y + b.height / 2.0 <= height - g.yMargin
  {
    var l := ChartLayout(width, height, true, |labels|);
    var g := l.legend.value;
    RowsFitInLegend(height, |labels|);
    forall i | 0 <= i < |labels|
      ensures var b := LegendBoxes(labels, l, g)[i];
              && l.chartWidth <= b.x && b.x + b.width == width - g.xMargin
              && g.yMargin <= b.y - b.height / 2.0
              && b.y + b.height / 2.0 <= height - g.yMargin
    {
      var b := LegendBoxes(labels, l, g)[i];
      assert b.y == g.yMargin + g.rowHeight * i as real + g.rowHeight / 2.0 && b.height == g.rowHeight;
      assert g.rowHeight == RowHeight(height, |labels|) && g.yMargin == height / 10.0;
      RowBandFits(g.rowHeight, g.yMargin, height, i, |labels|);
    }
  }

  /** Row `i` of `n` rows of height `rh` lies between margins `ym` when all `n` rows fit. */
  lemma RowBandFits(rh: real, ym: real, height: real, i: nat, n: nat)
    requires 0.0 <= rh && i < n && n as real * rh <= height - 2.0 * ym
    ensures ym <= ym + rh * i as real
    ensures ym + rh * i as real + rh <= height - ym
  {
    MulMono((i + 1) as real, n as real, rh);
    MulMono(0.0, i as real, rh);
  }
}
