/** Lines `[x1, y1, x2, y2]` between two pixels, both end points included. */
module Lines {

  /** A line of pixels from (x1, y1) to (x2, y2); the eighth builder only makes vertical ones (x1 == x2). */
  datatype Line = Line(x1: int, y1: int, x2: int, y2: int)

  /** Number of rows a vertical line covers (`length`). */
  function Length(l: Line): int {
    l.y2 - l.y1 + 1
  }

  /** The same line with its end row moved from y2 to y2 + 1 (`lengthen_last_line` on one line). */
  function Lengthened(l: Line): Line {
    l.(y2 := l.y2 + 1)
  }

  /**
   * A line primitive of the host `[x1, y1, x2, y2, r, g, b]`; the host draws it
   * without its end point.
   */
  datatype Primitive = LinePrimitive(x1: int, y1: int, x2: int, y2: int, r: int, g: int, b: int)

  function Last(lines: seq<Line>): Line
    requires lines != []
  {
    lines[|lines| - 1]
  }
}
