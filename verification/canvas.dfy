/** `QuickplotsCanvas`: the canvas a chart owns and the fixed order of a repaint. */
module Canvas {

  /** The canvas keeps a reference to the chart it was made for. */
  datatype QuickplotsCanvas<C> = QuickplotsCanvas(chart: C)

  /** The chart hooks `request_repaint` calls, named after the chart attributes. */
  datatype Step =
    | Prepare            // _prepare_canvas
    | PaintGrids         // _paint_grids
    | PaintSeries        // _paint_series
    | PaintPlotBounds    // _paint_plot_bounds
    | WriteTitle         // _write_title
    | WriteLegendLabels  // _write_legend_labels
    | PaintLegendSymbols // _paint_legend_symbols
    | PaintDebugLines    // _paint_debug_lines

  /** The order in which `request_repaint` calls the hooks. */
  const RepaintOrder: seq<Step> := [
    Prepare, PaintGrids, PaintSeries, PaintPlotBounds,
    WriteTitle, WriteLegendLabels, PaintLegendSymbols, PaintDebugLines
  ]

  /** Where a step falls in a repaint. */
  function Position(s: Step): (i: nat)
    ensures i < |RepaintOrder| && RepaintOrder[i] == s
  {
    match s
    case Prepare => 0
    case PaintGrids => 1
    case PaintSeries => 2
    case PaintPlotBounds => 3
    case WriteTitle => 4
    case WriteLegendLabels => 5
    case PaintLegendSymbols => 6
    case PaintDebugLines => 7
  }

  /**
   * No hook runs twice in a repaint; preparation comes first, the
   * debug lines last, and the title and legend text after the series and
   * plot bounds.
   */
  lemma RepaintOrderShape()
    ensures forall i, j :: 0 <= i < j < |RepaintOrder| ==> RepaintOrder[i] != RepaintOrder[j]
    ensures RepaintOrder[0] == Prepare && RepaintOrder[|RepaintOrder| - 1] == PaintDebugLines
    ensures Position(PaintSeries) < Position(WriteTitle) && Position(PaintPlotBounds) < Position(WriteTitle)
    ensures Position(WriteTitle) < Position(WriteLegendLabels) < Position(PaintLegendSymbols)
  {
    forall i, j | 0 <= i < j < |RepaintOrder| ensures RepaintOrder[i] != RepaintOrder[j] {
      assert Position(RepaintOrder[i]) == i && Position(RepaintOrder[j]) == j;
    }
  }
}
