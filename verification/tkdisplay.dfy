/** The tkinter backend: how each graphic becomes the arguments of a canvas `create_*` call. */
module TkDisplay {
  import opened Wrappers
  import opened Tk

  /** `TKINTER_LINE_STYLES`: line style name to dash pattern. */
  const LineStyles: map<string, Dash> := map["." := Dash(1, 2), "--" := Dash(3, 2)]

  /** `TKINTER_LINE_STYLES.get(style)`: dotted, dashed, or solid (`None`). */
  function DashFor(style: string): (d: Option<Dash>)
    ensures style == "." ==> d == Some(Dash(1, 2))
    ensures style == "--" ==> d == Some(Dash(3, 2))
    ensures style != "." && style != "--" ==> d == None
  {
    if style in LineStyles then Some(LineStyles[style]) else None
  }

  datatype LineGraphic = LineGraphic(
    startX: real, startY: real, endX: real, endY: real, style: string, color: string, width: real)

  datatype RectangleGraphic = RectangleGraphic(
    x: real, y: real, width: real, height: real,
    lineWidth: real, lineStyle: string, lineColor: string, fillColor: string)

  datatype TextGraphic = TextGraphic(
    x: real, y: real, horizontalAlign: string, verticalAlign: string,
    text: string, font: string, fontSize: int, color: string)

  datatype CircleGraphic = CircleGraphic(
    x: real, y: real, radius: real,
    lineWidth: real, lineStyle: string, lineColor: string, fillColor: string)

  datatype ArcGraphic = ArcGraphic(
    x: real, y: real, radius: real, start: real, end: real, clockwise: bool, showRadii: bool,
    lineWidth: real, lineStyle: string, lineColor: string, fillColor: string)

  /** The tkinter canvas calls, with the arguments the painters pass. */
  datatype Call =
    | CreateLine(x1: real, y1: real, x2: real, y2: real, dash: Option<Dash>, fill: string, width: real)
    | CreateRectangle(
        x1: real, y1: real, x2: real, y2: real,
        width: real, dash: Option<Dash>, outline: string, fill: string)
    | CreateText(x: real, y: real, anchor: Option<Anchor>, text: string, font: string, fontSize: int, fill: string)
    | CreateOval(
        x1: real, y1: real, x2: real, y2: real,
        width: real, dash: Option<Dash>, outline: string, fill: string)
    | CreateArcOval(
        x1: real, y1: real, x2: real, y2: real, start: real, extent: real, style: ArcStyle,
        width: real, dash: Option<Dash>, outline: string, fill: string)

  /** The horizontal and vertical alignments a text graphic may name. */
  predicate IsHorizontal(h: string) {
    h == "left" || h == "center" || h == "right"
  }

  predicate IsVertical(v: string) {
    v == "top" || v == "center" || v == "bottom"
  }

  /** The anchor `_text_paint` picks for an alignment pair; `None` when either is unrecognised. */
  function AnchorFor(horizontal: string, vertical: string): (a: Option<Anchor>)
    ensures a.Some? <==> IsHorizontal(horizontal) && IsVertical(vertical)
  {
    if horizontal == "center" then
      if vertical == "center" then Some(Center)
      else if vertical == "top" then Some(N)
      else if vertical == "bottom" then Some(S)
      else None
    else if horizontal == "left" then
      if vertical == "center" then Some(W)
      else if vertical == "top" then Some(NW)
      else if vertical == "bottom" then Some(SW)
      else None
    else if horizontal == "right" then
      if vertical == "center" then Some(E)
      else if vertical == "top" then Some(NE)
      else if vertical == "bottom" then Some(SE)
      else None
    else None
  }

  /**
   * The alignment an anchor stands for, read off the compass: a western
   * anchor is left-aligned text, a northern one top-aligned, and so on.
   */
  function Alignment(a: Anchor): (string, string) {
    var h := if a in {W, NW, SW} then "left" else if a in {E, NE, SE} then "right" else "center";
    var v := if a in {N, NW, NE} then "top" else if a in {S, SW, SE} then "bottom" else "center";
    (h, v)
  }

  /**
   * The nine alignment pairs and the nine anchors correspond one to one:
   * each recognised pair gets the compass anchor on the side it names.
   */
  lemma AnchorsMatchCompass(horizontal: string, vertical: string, a: Anchor)
    ensures AnchorFor(Alignment(a).0, Alignment(a).1) == Some(a)
    ensures AnchorFor(horizontal, vertical).Some? ==>
              Alignment(AnchorFor(horizontal, vertical).value) == (horizontal, vertical)
  {
  }

  /** `_line_paint`. */
  function LinePaint(g: LineGraphic): (c: Call)
    ensures c.CreateLine?
    ensures (c.x1, c.y1, c.x2, c.y2) == (g.startX, g.startY, g.endX, g.endY)
    ensures c.dash == DashFor(g.style) && c.fill == g.color && c.width == g.width
  {
    CreateLine(g.startX, g.startY, g.endX, g.endY, DashFor(g.style), g.color, g.width)
  }

  /** `_rectangle_paint`: the rectangle's top-left corner and the corner opposite it. */
  function RectanglePaint(g: RectangleGraphic): (c: Call)
    ensures c.CreateRectangle?
    ensures c.x1 == g.x && c.y1 == g.y
    ensures c.x2 - c.x1 == g.width && c.y2 - c.y1 == g.height
    ensures c.width == g.lineWidth && c.dash == DashFor(g.lineStyle)
    ensures c.outline == g.lineColor && c.fill == g.fillColor
  {
    CreateRectangle(
      g.x, g.y, g.x + g.width, g.y + g.height,
      g.lineWidth, DashFor(g.lineStyle), g.lineColor, g.fillColor)
  }

  /** `_text_paint`: position, text and colour pass through; the anchor comes from the alignment. */
  function TextPaint(g: TextGraphic): (c: Call)
    ensures c.CreateText?
    ensures c.x == g.x && c.y == g.y && c.text == g.text && c.fill == g.color
    ensures c.font == g.font && c.fontSize == g.fontSize
    ensures c.anchor.Some? <==> IsHorizontal(g.horizontalAlign) && IsVertical(g.verticalAlign)
    ensures c.anchor.Some? ==> Alignment(c.anchor.value) == (g.horizontalAlign, g.verticalAlign)
  {
    AnchorsMatchCompass(g.horizontalAlign, g.verticalAlign, Center);
    CreateText(g.x, g.y, AnchorFor(g.horizontalAlign, g.verticalAlign), g.text, g.font, g.fontSize, g.color)
  }

  /** The bounding box of the circle of radius `r` about (x, y). */
  function CircleBox(x: real, y: real, r: real): (real, real, real, real) {
    (x - r, y - r, x + r, y + r)
  }

  /** `_circle_paint`: a square box of side twice the radius, centred on the circle's centre. */
  function CirclePaint(g: CircleGraphic): (c: Call)
    ensures c.CreateOval?
    ensures c.x2 - c.x1 == 2.0 * g.radius && c.y2 - c.y1 == 2.0 * g.radius
    ensures (c.x1 + c.x2) / 2.0 == g.x && (c.y1 + c.y2) / 2.0 == g.y
    ensures c.width == g.lineWidth && c.dash == DashFor(g.lineStyle)
    ensures c.outline == g.lineColor && c.fill == g.fillColor
  {
    var (x1, y1, x2, y2) := CircleBox(g.x, g.y, g.radius);
    CreateOval(x1, y1, x2, y2, g.lineWidth, DashFor(g.lineStyle), g.lineColor, g.fillColor)
  }

  /**
   * `_arc_paint`: the circle's box, a start angle turned back a quarter turn
   * from the end (clockwise) or the start (otherwise), and an extent of
   * `end - start`.
   */
  function ArcPaint(g: ArcGraphic): (c: Call)
    ensures c.CreateArcOval?
    ensures c.x2 - c.x1 == 2.0 * g.radius && c.y2 - c.y1 == 2.0 * g.radius
    ensures (c.x1 + c.x2) / 2.0 == g.x && (c.y1 + c.y2) / 2.0 == g.y
    ensures c.start + 90.0 == (if g.clockwise then g.end else g.start)
    ensures c.extent == g.end - g.start
    ensures c.style == (if g.showRadii then PieSlice else ArcOnly)
    ensures c.width == g.lineWidth && c.dash == DashFor(g.lineStyle)
    ensures c.outline == g.lineColor && c.fill == g.fillColor
  {
    var (x1, y1, x2, y2) := CircleBox(g.x, g.y, g.radius);
    CreateArcOval(
      x1, y1, x2, y2,
      if g.clockwise then g.end - 90.0 else g.start - 90.0,
      g.end - g.start,
      if g.showRadii then PieSlice else ArcOnly,
      g.lineWidth, DashFor(g.lineStyle), g.lineColor, g.fillColor)
  }

  /** The arc's own start and end angles can be read back from the call and the direction. */
  lemma ArcAnglesRecoverable(g: ArcGraphic)
    ensures var c := ArcPaint(g);
            if g.clockwise then g.end == c.start + 90.0 && g.start == g.end - c.extent
            else g.start == c.start + 90.0 && g.end == g.start + c.extent
  {
  }
}
