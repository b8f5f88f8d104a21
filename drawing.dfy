/** Abstract records for the elements of the vector drawing. Only the
    coordinates, sizes, colours and references the layout decides are kept;
    stroke widths, fonts and other styling are not. */
module Drawing {
  import opened Input

  /** A point in half pixels: `Point(x2, y2)` is `(x2 / 2, y2 / 2)`. Every
      coordinate the layout computes is a whole or half pixel, so this is
      exact. */
  datatype Point = Point(x2: int, y2: int)

  datatype Anchor = AnchorMiddle | AnchorEnd

  /** The two arrowheads of an era arrow. */
  datatype MarkerShape = StartArrow | EndArrow

  datatype Element =
    | Line(from: Point, to: Point, stroke: Color, dashed: bool)
      /** A line decorated with the marker definitions at the two given
          positions of the definitions list. */
    | Arrow(from: Point, to: Point, stroke: Color, startMarker: nat, endMarker: nat)
    | Rect(corner: Point, w: int, h: int, fill: Color)
      /** `vertical` marks the rotated, top-to-bottom axis labels. */
    | Text(content: string, at: Point, fill: Color, anchor: Anchor, vertical: bool)
    | Path(points: seq<Point>, stroke: Color)
    | Circle(center: Point, r: int, stroke: Color)
    | MarkerDef(shape: MarkerShape, insert: Point, fill: Color)
      /** A group translated down by `dy`. */
    | Group(dy: int, children: seq<Element>)

  /** The point at whole pixels `(x, y)`. */
  function P(x: int, y: int): Point {
    Point(2 * x, 2 * y)
  }
}
