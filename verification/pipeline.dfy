/** `QuickplotsCanvas.request_repaint` run against the base chart's painter bindings. */
module Pipeline {
  import opened Wrappers
  import opened PyValues
  import opened Canvas
  import opened Quickplots
  import opened Painters

  /** A repaint either runs every step or stops at the step that raised, keeping what was painted so far. */
  datatype RepaintOutcome =
    | Completed(state: CanvasState)
    | Raised(at: Step, state: CanvasState)

  /** Calls one hook: a missing binding raises `AttributeError` like a failing painter does. */
  function Perform(chart: Chart, step: Step, s: CanvasState, width: real, height: real): Result<CanvasState, PainterError> {
    match Binding(step)
    case None => Failure(AttributeError)
    case Some(p) =>
      match p
      case Empty => Success(s)
      case ChartPrepareCanvas => Success(PrepareCanvas(chart, s, width, height))
      case ChartWriteTitle => Painters.WriteTitle(chart, s)
      case ChartWriteLegendLabels => Painters.WriteLegendLabels(chart, s)
  }

  /** Runs the steps in order, stopping at the first that raises. */
  function RunSteps(chart: Chart, steps: seq<Step>, s: CanvasState, width: real, height: real): RepaintOutcome
    decreases |steps|
  {
    if |steps| == 0 then Completed(s)
    else
      match Perform(chart, steps[0], s, width, height)
      case Failure(_) => Raised(steps[0], s)
      case Success(s') => RunSteps(chart, steps[1..], s', width, height)
  }

  /**
   * What a repaint leaves on a canvas of the given size: the prepared layout,
   * the title box followed by one box per legend label when the legend is
   * on, and no legend symbols.
   */
  function Repainted(chart: Chart, width: real, height: real): CanvasState {
    var l := ChartLayout(width, height, LegendOn(chart), |chart.legendLabels|);
    var legendBoxes := if LegendOn(chart) then LegendBoxes(chart.legendLabels, l, l.legend.value) else [];
    CanvasState(Some(l), [TitleBox(chart, l)] + legendBoxes, 0)
  }

  /**
   * `request_repaint` on the base chart: every painter runs, then the
   * unbound `_paint_debug_lines` raises. Since preparation runs first, the
   * result does not depend on what the canvas held before.
   */
  function RequestRepaint(chart: Chart, s: CanvasState, width: real, height: real): (o: RepaintOutcome)
    ensures o == Raised(PaintDebugLines, Repainted(chart, width, height))
  {
    var o := RunSteps(chart, RepaintOrder, s, width, height);
    RepaintSteps(chart, s, width, height);
    o
  }

  /**
   * Only a listed step can raise, and a run that lists the unbound
   * debug-lines hook never completes: it raises there or earlier.
   */
  lemma {:induction false} RunStepsOutcome(chart: Chart, steps: seq<Step>, s: CanvasState, width: real, height: real)
    ensures var o := RunSteps(chart, steps, s, width, height);
            && (o.Raised? ==> o.at in steps)
            && (PaintDebugLines in steps ==> o.Raised?)
    decreases |steps|
  {
    if steps != [] {
      match Perform(chart, steps[0], s, width, height)
      case Failure(_) =>
      case Success(s') =>
        RunStepsOutcome(chart, steps[1..], s', width, height);
        assert steps == [steps[0]] + steps[1..];
    }
  }

  lemma StepSucceeds(chart: Chart, steps: seq<Step>, s: CanvasState, s': CanvasState, width: real, height: real)
    requires |steps| > 0 && Perform(chart, steps[0], s, width, height) == Success(s')
    ensures RunSteps(chart, steps, s, width, height) == RunSteps(chart, steps[1..], s', width, height)
  {
  }

  lemma RepaintSteps(chart: Chart, s: CanvasState, width: real, height: real)
    ensures RunSteps(chart, RepaintOrder, s, width, height) == Raised(PaintDebugLines, Repainted(chart, width, height))
  {
    var p := PrepareCanvas(chart, s, width, height);
    var l := p.layout.value;
    var t := p.(graphics := [TitleBox(chart, l)]);
    var final := Repainted(chart, width, height);
    var o := RepaintOrder;
    assert o[1..][1..] == o[2..] && o[2..][1..] == o[3..] && o[3..][1..] == o[4..];
    assert o[4..][1..] == o[5..] && o[5..][1..] == o[6..] && o[6..][1..] == o[7..];
    StepSucceeds(chart, o, s, p, width, height);
    StepSucceeds(chart, o[1..], p, p, width, height);
    StepSucceeds(chart, o[2..], p, p, width, height);
    StepSucceeds(chart, o[3..], p, p, width, height);
    assert Perform(chart, WriteTitle, p, width, height) == Success(t);
    StepSucceeds(chart, o[4..], p, t, width, height);
    if LegendOn(chart) {
      assert t.layout.value.legend.Some?;
      var bs := LegendBoxes(chart.legendLabels, l, l.legend.value);
      if |chart.legendLabels| == 0 {
        assert bs == [] && t.graphics + bs == t.graphics;
      }
      assert Painters.WriteLegendLabels(chart, t) == Success(t.(graphics := t.graphics + bs));
    } else {
      assert [TitleBox(chart, l)] + [] == [TitleBox(chart, l)];
    }
    assert Perform(chart, WriteLegendLabels, t, width, height) == Success(final);
    StepSucceeds(chart, o[5..], t, final, width, height);
    StepSucceeds(chart, o[6..], final, final, width, height);
    assert o[7..] == [PaintDebugLines];
  }

  /** The steps bound to `_empty` leave the canvas exactly as it was. */
  lemma EmptyStepsChangeNothing(chart: Chart, step: Step, s: CanvasState, width: real, height: real)
    requires step in {PaintGrids, PaintSeries, PaintPlotBounds, PaintLegendSymbols}
    ensures Perform(chart, step, s, width, height) == Success(s)
  {
  }

  /** Two canvases repainted at the same size end up identical, whatever they held before. */
  lemma RepaintForgetsPriorState(chart: Chart, s1: CanvasState, s2: CanvasState, width: real, height: real)
    ensures RequestRepaint(chart, s1, width, height) == RequestRepaint(chart, s2, width, height)
  {
  }

  /** The title is painted before any legend label, and with the legend off it is the only box. */
  lemma RepaintedGraphics(chart: Chart, width: real, height: real)
    ensures var g := Repainted(chart, width, height).graphics;
            && |g| == 1 + (if LegendOn(chart) then |chart.legendLabels| else 0)
            && g[0].text == chart.options.title && g[0].maxFontSize == 32
            && forall i :: 1 <= i < |g| ==> g[i].text == Str(chart.legendLabels[i - 1]) && g[i].maxFontSize == 18
  {
  }
}
