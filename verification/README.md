# quickplots rendering core, modelled in Dafny

quickplots draws charts onto a Tk canvas or into an SVG file. The package contains
several generations of its chart code, and much of `quickplots/__init__.py` sits inside
a string literal, so it never runs. This project models the parts that do run, as pure
functions over immutable values:

- `Series`: `Series(*data)` turns its arguments into a list of points. The arguments are
  either the points themselves or an x column and a y column that are zipped together.
- `Charts`: `charts.Chart(title, width, height)` checks the types of its arguments and
  supplies defaults. Python arguments are represented by the `PyValue` datatype, and
  `isinstance` follows Python, so a `bool` counts as an `int`.
- `Quickplots`: the base `Chart` of the package root. This covers the colour palette,
  constructor defaults, the fixed legend labels, the canvas back-reference, and the
  painter each repaint hook is bound to.
- `Canvas`: the order in which `request_repaint` calls the chart's hooks.
- `Painters`: the layout arithmetic of `_chart_prepare_canvas`, plus the title and legend
  text boxes. Sizes are exact `real`s.
- `Pipeline`: a complete `request_repaint` on the base chart, run with its bindings.
- `Display`: the older Tk-era chart. This covers its layout, title and legend text, debug
  guides, and the click crosshair with its plot-area hit test.
- `TkDisplay`: how line, rectangle, text, circle and arc graphics become the arguments of
  Tk canvas calls. This covers the dash table and the alignment-to-anchor table.
- `SvgDisplay`: the SVG envelope `produce_svg` writes.
- `Data`: `DatetimeDatum`, a date that compares and does arithmetic as its timestamp,
  and the filter that wraps dates found in a series.

Helper modules: `Wrappers` (Option and Result), `PyValues` (Python values, `isinstance`,
truthiness, `min` and `max`), `Numerals` (`int()` truncation, `%i` rendering and reading it back), and
`Tk` (anchor, justify, arc-style and dash constants).

`Series.__init__` does not sort its points, does not check that the two columns have
the same length, and accepts an empty `Series((), ())`. It keeps the order it is given,
and `zip` silently drops the tail of the longer column. The axis mapping, tick derivation
and limit derivation exist only inside the string literal in `quickplots/__init__.py`,
so they are not modelled.

## Model

| member | source | states |
|---|---|---|
| Series.NewSeries | quickplots/series.py:3-7 | No arguments raise IndexError. More than two arguments, or a first argument of length two, are returned as the points unchanged and in order. A single argument of another length raises IndexError. A non-sequence first argument, or a non-sequence second argument that has to be zipped, raises TypeError. Otherwise the result is the pairwise zip of the two columns. |
| Series.Zip | quickplots/series.py:7 | The zip has the length of the shorter column, and its element i is the pair (xs[i], ys[i]). |
| Series.ZipUnzips | quickplots/series.py:7 | The x and y columns of the zipped points are exactly the prefixes of the two arguments, up to the shorter length. |
| Series.ParallelRoundTrip | quickplots/series.py:4-7 | Two columns of equal length, other than length two, come back intact as the x and y columns of the series. |
| Series.TwoPointsNotZipped | quickplots/series.py:4-5 | Two 2-tuples are taken as two points and are not zipped. |
| Series.PointsExample | tests/test_series.py:6-8 | `Series((1, 1), (2, 4), (3, 9))` stores exactly those three points. |
| Series.ParallelExample | tests/test_series.py:11-13 | `Series((1, 2, 3), (1, 4, 9))` stores (1, 1), (2, 4), (3, 9). |
| Charts.NewChart | quickplots/charts.py:3-14 | Succeeds exactly when the title is a str and the width and height are int (bool included) or float. Omitted arguments default to "", 700 and 500. Valid values are stored unchanged. Otherwise the TypeError names the first invalid argument in the order title, width, height, and carries its value. |
| Charts.StoredValuesRebuild | quickplots/charts.py:6-14 | Passing a chart's stored values back to the constructor yields that same chart. |
| Charts.DefaultChart | tests/test_charts.py:6-8 | `Chart()` has title "", width 700 and height 500. |
| Charts.TitledChart | tests/test_charts.py:11-13 | `Chart(title="Chart Title")` stores that title. |
| Charts.BoolDimensionsAccepted | quickplots/charts.py:8-14 | Bools pass the numeric checks for width and height. |
| Charts.ErrorMessage | quickplots/charts.py:5-13 | The message starts with the name of the bad argument and ends with `, not '`, the printed value, and a closing `'`. |
| Charts.MessageNamesField | quickplots/charts.py:5-13 | However the values print, the error messages for different arguments differ. |
| Quickplots.PaletteIsNineDistinctColours | quickplots/__init__.py:9-10 | `COLORS` has nine entries. Each is a `#RRGGBB` hex colour, and no two are equal. |
| Quickplots.Options | quickplots/__init__.py:18-26 | Every supplied argument is stored unchanged, and each omitted one takes its own default: title "", legend False, window [900, 700], window title "", background "#CCCCCC", margin 50, debug False. |
| Quickplots.DefaultOptions | quickplots/__init__.py:18-19 | The defaults: title "", legend False, window [900, 700], window title "", background "#CCCCCC", margin 50, debug False. |
| Quickplots.OptionsRebuild | quickplots/__init__.py:18-26 | Passing a chart's stored options back as arguments yields the same options. |
| Quickplots.NewChart | quickplots/__init__.py:20-29 | The options are kept. The legend labels are ["One", "two"] whatever the arguments. The canvas holds the chart's options as its back-reference. |
| Quickplots.CanvasIdentifiesChart | quickplots/__init__.py:20-29 | Building a chart from its canvas's back-reference gives back the same chart. |
| Quickplots.Binding | quickplots/__init__.py:32-38 | Only the debug-lines hook is unbound. Exactly the grid, series, plot-bounds and legend-symbol hooks are bound to `_empty`. |
| Canvas.Position | quickplots/canvas.py:8-16 | Every hook has a place in the repaint order. |
| Canvas.RepaintOrderShape | quickplots/canvas.py:8-16 | No hook runs twice in a repaint. Prepare runs first and debug lines last. The title and legend labels come after the series and plot bounds, and the legend symbols come after the labels. |
| Painters.ChartLayout | quickplots/painters.py:9-37 | Title band plus chart area is the height, and legend column plus chart area is the width. The legend takes a quarter of the width or nothing. The plot margins are height/50 at the top, width/10 on the left, width/20 on the right and height/10 at the bottom, and with the plot they fill the chart area exactly. The plot is 39/50 of the height, and 17/20 of the width without a legend or 3/5 with one. Legend geometry exists only with the legend on: the y margin is a tenth of the height, the x margin a tenth of the legend width, the row height is `RowHeight`, and the symbol takes a quarter of the row width with the text taking the rest. |
| Painters.RowsFitInLegend | quickplots/painters.py:29-33 | Rows are at most 30 high. Unless capped at 30, the rows fill the space between the legend's top and bottom margins exactly, with an empty label list counting as one row, so with no labels the row height is min(0.8·height, 30). For a non-negative height the row height is non-negative and all label rows fit between the margins. |
| Painters.PrepareCanvas | quickplots/painters.py:5-38 | Prepare clears the graphics and zeroes the legend symbols, whether or not the legend is on, and installs the chart's layout. |
| Painters.WriteTitle | quickplots/painters.py:41-50 | On a prepared canvas, exactly one box is appended and earlier graphics are kept. Its position arguments are (0, 0), its width is the canvas minus the legend and its height is the title band. It holds the chart title, with maximum font size 32. Before prepare, the painter raises AttributeError. |
| Painters.WriteLegendLabels | quickplots/painters.py:53-66 | With the legend off or no labels, the canvas is returned untouched, prepared or not. Otherwise the painter raises AttributeError exactly when the canvas has no legend layout, and it appends exactly the `LegendBoxes` of the labels, one per label. Box i holds label i with maximum font size 18. Its x is chart width + x margin + symbol width + text width/25, its width is 24/25 of the text width, and it is one row high and centred at y = yMargin + rowHeight·i + rowHeight/2, so consecutive boxes are one row apart. |
| Painters.LegendOffNeedsNoLayout | quickplots/painters.py:54-56 | With the legend off, the painter succeeds on a canvas that was never prepared and leaves it as it was. |
| Painters.LegendBoxesInsideLegend | quickplots/painters.py:53-66 | In a prepared layout of non-negative size, for every label: the box's x argument is right of the chart area and x plus the box width reaches exactly the legend's right margin; the y argument, the middle of row i, is half a row below the top margin or more and half a row above the bottom margin or more, so the row band [y − height/2, y + height/2] lies between the legend's margins. |
| Pipeline.RequestRepaint | quickplots/canvas.py:8-16 | A repaint of the base chart leaves the prepared layout, the title box followed by the legend label boxes, and no legend symbols. It then raises at the unbound debug-lines hook. |
| Pipeline.RepaintSteps | quickplots/canvas.py:8-16 | Running the eight hooks in order ends in that state, raising at the debug-lines hook. |
| Pipeline.RunStepsOutcome | quickplots/canvas.py:8-16 | Running hooks in order can only raise at a hook in the list, and a list that includes the unbound debug-lines hook never completes. |
| Pipeline.EmptyStepsChangeNothing | quickplots/painters.py:1-2 | The hooks bound to `_empty` leave the canvas exactly as it was. |
| Pipeline.RepaintForgetsPriorState | quickplots/canvas.py:8-9 | Because prepare runs first, two canvases repainted at the same size end up identical, whatever they held before. |
| Pipeline.RepaintedGraphics | quickplots/canvas.py:13-14 | After a repaint the title is the first box (maximum font 32). It is followed by one box per legend label (maximum font 18) only when the legend is on. |
| Display.NewDisplayChart | quickplots/display.py:9-19 | The older chart stores its options, and its label list starts empty. |
| Display.PrepareLayout | quickplots/display.py:36-59 | The title band is a tenth of the height, and the legend is 200 wide or absent. The plot margin is the larger of height·width/10000 and width/20, so it is never below width/20. The top margin is height/50. The plot width plus two margins fills the chart width, and title band, top margin, plot height and margin add up to the height, so the plot height is the chart height minus the margin and the top margin. The legend metrics are 80, 10, 30 and 5 when the legend is on. |
| Display.TitleItem | quickplots/display.py:62-67 | The title is a text item with no anchor or justify, centred at half the chart width and half the title band's height, and it holds the chart title. |
| Display.TitleFontSize | quickplots/display.py:62-67 | For a non-negative height, the title font is "bold " followed by height // 15. |
| Display.LegendItems | quickplots/display.py:82-92 | With the legend on there is one west-anchored, left-justified "Tahoma 10" text per label. Label i is at y = 80 + 30·i + 15 and x = width − legend width + 40. With the legend off there are none. |
| Display.DebugRowCount | quickplots/display.py:125-126 | The number of row guides is the largest count whose guide lines at 80 + 30k all fit on the canvas, or 0 if none fits. |
| Display.DebugItems | quickplots/display.py:95-133 | Nothing is drawn unless debug is on. Then the title border runs from (0, title height) to (chart width, title height), the legend border from (chart width, 0) to (chart width, height), both dashed (1, 1), and the third item is the plot border rectangle. With the legend on there follow the legend rectangle from (chart width + 10, 80) to (width − 10, height), and one (3, 3)-dashed horizontal guide per row k = 1..count at y = 80 + 30k from x = chart width + 10 to width − 10, each lying on the canvas. |
| Display.RequestRepaint | quickplots/display.py:148-155 | Running the seven hooks in order on any prior canvas leaves the freshly prepared layout, with the title drawn first, then the legend labels, then the debug guides. |
| Display.RepaintRunsHooks | quickplots/display.py:148-155 | Prepare discards what the canvas held, the grid, series and plot-bounds hooks draw nothing, and the title, legend and debug hooks append their items in that order. |
| Display.QuietRepaintIsText | quickplots/display.py:62-92 | With debug off, a repaint draws only text: one title plus one item per label when the legend is on. |
| Display.NewChartWritesNoLegendText | quickplots/display.py:19 | A chart made by the constructor has no labels, so its repaint never writes legend text. |
| Display.LabelsCentredBetweenGuides | quickplots/display.py:84-87 | Legend label i sits midway between the debug row guides above and below it. |
| Display.ClickAreaIsPlotBorder | quickplots/display.py:160-162 | The click test holds exactly inside the debug plot border, widened by one pixel to the right and two downward. |
| Display.OnClick | quickplots/display.py:158-179 | A click repaints the chart. It adds two red dotted crosshair lines exactly when the click is inside the plot area, and each line spans the plot border. |
| TkDisplay.DashFor | quickplots/tkdisplay.py:41-44 | "." is dash (1, 2), "--" is dash (3, 2), and any other style gives no dash. |
| TkDisplay.AnchorFor | quickplots/tkdisplay.py:67-89 | An anchor is chosen exactly when the horizontal alignment is left, center or right and the vertical one is top, center or bottom. Otherwise the anchor is None. |
| TkDisplay.AnchorsMatchCompass | quickplots/tkdisplay.py:67-89 | The nine recognised alignment pairs and the nine compass anchors correspond one to one, with each pair mapped to the anchor on the side it names. |
| TkDisplay.LinePaint | quickplots/tkdisplay.py:46-53 | Endpoints, colour and width pass through, and the dash comes from the style table. |
| TkDisplay.RectanglePaint | quickplots/tkdisplay.py:56-64 | The first corner is (x, y), and the opposite corner lies width and height away. Line width, dash, outline and fill come from the graphic. |
| TkDisplay.TextPaint | quickplots/tkdisplay.py:67-97 | Position, text, font and colour pass through. The anchor is present exactly for a recognised alignment pair, and it stands for that pair. |
| TkDisplay.CirclePaint | quickplots/tkdisplay.py:100-108 | The box is a square of side twice the radius, centred on the circle's centre. |
| TkDisplay.ArcPaint | quickplots/tkdisplay.py:111-122 | The box is the circle's box. The start is a quarter turn before the end (clockwise) or before the start (otherwise), the extent is end − start, and the style is a pie slice exactly when the radii are shown. |
| TkDisplay.ArcAnglesRecoverable | quickplots/tkdisplay.py:115-116 | Given the direction, the arc's own start and end can be recovered from the call's start and extent. |
| Numerals.Trunc | quickplots/display.py:66 | `%i` of a float rounds toward zero, whatever the sign. |
| Numerals.IntToString | quickplots/svgdisplay.py:6 | `%i` writes a leading minus exactly for negative numbers, and digits after it. |
| Numerals.ReadIntToString | quickplots/svgdisplay.py:6 | Reading back what `%i` wrote returns the number and leaves the following text alone. |
| SvgDisplay.ProduceSvgAsWritten | quickplots/svgdisplay.py:1-14 | As written, the document fails exactly when fewer than two dimensions are given. Otherwise it is a line break followed by the corrected document, and after that line break it reads back as both dimensions truncated to whole pixels with an empty body. |
| SvgDisplay.Envelope | quickplots/svgdisplay.py:1-8 | The filled template starts with the fixed header (declaration, generator comment, doctype and `<svg` tag up to the width), and the sizes, body and closing tag follow it. |
| SvgDisplay.AsWrittenDeclarationNotFirst | quickplots/svgdisplay.py:1-2 | As written, the document does not begin with `<?xml`, so it is not read as an envelope. |
| SvgDisplay.ProduceSvg | quickplots/svgdisplay.py:11-14 | With the leading line break removed, the document begins with the XML declaration and ends with `</svg>`. It fails exactly when fewer than two dimensions are given. |
| SvgDisplay.EnvelopeShape | quickplots/svgdisplay.py:1-8 | Every envelope opens with the XML declaration and closes with `</svg>`. |
| SvgDisplay.SizedRoundTrip | quickplots/svgdisplay.py:6-8 | The text after the header reads back as the width, height and body it was written with. |
| SvgDisplay.EnvelopeRoundTrip | quickplots/svgdisplay.py:5-8 | Reading an envelope back yields the width, height and body it was written with. |
| SvgDisplay.ProduceSvgReadsBack | quickplots/svgdisplay.py:11-14 | The chart argument plays no part. The document records both dimensions truncated to whole pixels, and the body between the `<svg>` tags is empty. |
| Data.CheckValueForDate | quickplots/data.py:55-62 | A datetime becomes a wrapper holding its timestamp. A plain date is wrapped as its midnight datetime. Anything else comes back unchanged, and no date is ever returned. |
| Data.CheckSeriesForDates | quickplots/data.py:65-67 | The result has the same container kind and length, and element i is the filtered element i. |
| Data.FilterIsIdempotent | quickplots/data.py:55-67 | No date survives the filter, non-dates keep their place, and filtering twice is the same as filtering once. |
| Data.Add | quickplots/data.py:15-16 | `a + other` is the timestamp plus the other's numeric value, including another wrapper's, through the reflected `__radd__`. |
| Data.RAdd | quickplots/data.py:19-20 | `n + a` is n plus the timestamp. |
| Data.Sub | quickplots/data.py:23-24 | `a - other` is the timestamp minus the other's numeric value, including another wrapper's, through the reflected `__rsub__`. |
| Data.RSub | quickplots/data.py:27-28 | `n - a` is n minus the timestamp. |
| Data.Lt | quickplots/data.py:31-32 | `<` compares the timestamps, also between two wrappers through the reflected `__gt__`. |
| Data.Le | quickplots/data.py:35-36 | `<=` compares the timestamps, also between two wrappers. |
| Data.Gt | quickplots/data.py:39-40 | `>` compares the timestamps, also between two wrappers. |
| Data.Ge | quickplots/data.py:43-44 | `>=` compares the timestamps, also between two wrappers. |
| Data.Eq | quickplots/data.py:47-48 | `==` compares the timestamps, also between two wrappers. |
| Data.Ne | quickplots/data.py:51-52 | `!=` compares the timestamps, also between two wrappers. |
| Data.ArithmeticOnTimestamps | quickplots/data.py:15-28 | `a + n == n + a`, and `a - n == -(n - a)`. |
| Data.ComparisonsAreConsistent | quickplots/data.py:31-52 | The six comparisons behave as a total order: `<=` is `<` or `==`, `>=` is not `<`, `>` is not `<=`, `!=` is not `==`, and trichotomy holds. |
| Data.WrappedDatesCompareByTimestamp | quickplots/data.py:31-60 | Two wrapped dates compare, test equal and subtract as their timestamps do. |

## Left out

- `quickplots/__init__.py:39-284` is a string literal. `PieChart`, the axis charts, ticks, limits, moving averages and random colours there never run.
- `quickplots.py`, `setup.py` and `quickplots/quick.py` are left out. The first is a matplotlib wrapper and the second is packaging. The third imports `LineSeries` and `AxisChart`, which the shown code does not define.
- Windows and event plumbing are left out: `tkdisplay.show`, both `ChartCanvas` classes and their bindings, `display.Chart.show`, and the Tk `create_*` and `delete` calls. Only the arguments passed to the calls are modelled. In the older chart, `on_unclick` is just a repaint (`Display.RequestRepaint`). `on_click` is only bound when `can_grid` is true, and it is false there.
- `QuickplotsCanvas.draw_to_tkinter` has an empty body, so there is nothing to model.
- `QuickplotsCanvas` never receives `width`, `height` or `create_text`. The layout takes the canvas size as input, and a `create_text` call is modelled as appending a `TextBox` holding its arguments as passed. The resulting runtime failures are not modelled. Because `create_text` is not defined, which point of a box `(x, y)` names is not fixed: the title passes the band's top-left corner, and a legend label passes the vertical middle of its row.
- Font fitting (`max_font_size`) is an external text-sizing service. Only the limit passed to it is recorded.
- Several Tk-side defects are not modelled:
  - `_circle_paint` and `_arc_paint` refer to names that are not in scope.
  - `_arc_paint` passes `start`, `extent` and `style` to `create_oval`.
  - `ChartCanvas.request_repaint` calls a `paint_to_tkinter` that does not exist.

  Only the coordinate and angle formulas are modelled; the arc call is recorded as `CreateArcOval`.
- `datetime.timestamp()` depends on the local time zone and is taken as a function parameter. `DatetimeDatum.__repr__` and its `dt` attribute are not modelled, since the attribute stores the `datetime.date` class rather than the input.
- `PyValue.List` stands for both lists and tuples. Python's `(1, 1) == [1, 1]` is False, but the modelled code never compares a list with a tuple, so the model does not tell them apart.
- Quickplots.Options: the default `window_dimensions=[900, 700]` is one list object shared by every chart built without that argument. Values here cannot share, and nothing in the modelled code mutates the list, so the sharing is not modelled.
- Floats are exact `real`s, so rounding, NaN and infinities are not modelled.
- Series.NewSeries: only `str`, `list` and `tuple` are treated as having a length and being iterable. Other objects count as neither, so dictionaries, sets and generators are not modelled.
- Charts.NewChart: the text of the `TypeError` relies on Python's `str()` of the offending value. That text is modelled only by `ErrorMessage`, with `str()` passed in as a parameter.
- Data.Add: operands that are neither numbers nor wrappers are not modelled. In Python they make `+`, `-` and the order comparisons raise `TypeError`, while `==` returns `False` and `!=` returns `True`, because the comparison falls back to identity.
- Data.CheckSeriesForDates: only lists and tuples are modelled. On a `str`, `type(series)(filtered)` returns the printed form of a list, which has a different length. On a generator it raises `TypeError`.
- Quickplots.NewChart: the canvas refers back to the chart object itself (`quickplots/__init__.py:29`). An immutable value cannot contain itself, so the back-reference holds the chart's options, which `CanvasIdentifiesChart` shows are enough to rebuild the chart.

## Findings

| source | as written | input that shows it | evidently intended | confidence | as-written member | corrected member |
|---|---|---|---|---|---|---|
| quickplots/svgdisplay.py:1-2 | The template opens with a line break, so the document starts with `\n` before `<?xml`. Section 2.8 of XML 1.0 requires the XML declaration to come first, so a parser rejects the document. | `produce_svg(chart, [700, 500])` | The document starts with `<?xml version="1.0" ...` | high; not executed | SvgDisplay.AsWrittenDeclarationNotFirst | SvgDisplay.ProduceSvg |
