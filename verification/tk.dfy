/** The tkinter constants the backends pass to the canvas. */
module Tk {

  /** Compass anchor of a text item: which point of the text sits at (x, y). */
  datatype Anchor = N | NE | E | SE | S | SW | W | NW | Center

  /** Text justification. */
  datatype Justify = Left

  /** How an arc is closed: as a pie slice or as a bare arc. */
  datatype ArcStyle = PieSlice | ArcOnly

  /** A dash pattern: pixels drawn, then pixels skipped. */
  datatype Dash = Dash(on: int, off: int)
}
