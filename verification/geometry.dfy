/** Integer points and rectangles as the paint host uses them, and the fixed
    54-pixel box every placed shape occupies. */
module Geometry {
  import opened JavaLang

  /** An AWT `Point`. */
  datatype Point = Point(x: int32, y: int32)

  /** An AWT `Rectangle`: top-left corner and extent. */
  datatype Rect = Rect(x: int32, y: int32, width: int32, height: int32)

  /** Side of the square box a placed shape occupies. */
  const SHAPE_SIZE: int32 := 54

  /** The centre of a rectangle as the host computes it:
      `x + width / 2`, `y + height / 2` in Java int arithmetic. */
  function Centre(r: Rect): Point {
    Point(Add(r.x, Half(r.width)), Add(r.y, Half(r.height)))
  }

  /** The box a shape gets when it is placed or dropped at `p`:
      `(p.x - SHAPE_SIZE / 2, p.y - SHAPE_SIZE / 2, SHAPE_SIZE, SHAPE_SIZE)`.
      Its centre is `p` again, for every `p`, overflow included. */
  function CenteredBox(p: Point): (r: Rect)
    ensures r.width == SHAPE_SIZE && r.height == SHAPE_SIZE
    ensures Centre(r) == p
  {
    var r := Rect(Sub(p.x, Half(SHAPE_SIZE)), Sub(p.y, Half(SHAPE_SIZE)), SHAPE_SIZE, SHAPE_SIZE);
    SubThenAdd(p.x, Half(SHAPE_SIZE));
    SubThenAdd(p.y, Half(SHAPE_SIZE));
    r
  }

  /** `JComponent.contains` for a child with bounds `r`, asked about a point
      `p` of its parent: the point translated into the child's coordinates
      lies in `[0, width) x [0, height)`. */
  predicate Contains(r: Rect, p: Point) {
    var dx := Sub(p.x, r.x);
    var dy := Sub(p.y, r.y);
    0 <= dx < r.width && 0 <= dy < r.height
  }
}
