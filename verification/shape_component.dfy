/** A shape placed on the canvas. It refers to its shape by name only, so it
    outlives the shape's provider; the shape is looked up when the component
    is painted (see module Painting). */
module ShapeComponents {
  import opened JavaLang
  import opened Geometry

  /** A placed component. `serial` stands for the component's object
      identity, which the host uses to remember the one being dragged. */
  datatype ShapeComponent = ShapeComponent(serial: nat, shapeName: string, bounds: Rect)

  /** `new ShapeComponent(frame, shapeName)`: a fresh component has the
      empty bounds every Swing component starts with. */
  function NewComponent(serial: nat, shapeName: string): (c: ShapeComponent)
    ensures GetName(c) == shapeName && c.serial == serial
    ensures c.bounds == Rect(0, 0, 0, 0)
  {
    ShapeComponent(serial, shapeName, Rect(0, 0, 0, 0))
  }

  /** `setBounds(x, y, width, height)`. */
  function SetBounds(c: ShapeComponent, r: Rect): (c': ShapeComponent)
    ensures c'.bounds == r
    ensures GetName(c') == GetName(c) && c'.serial == c.serial
  {
    c.(bounds := r)
  }

  /** `getName()`. */
  function GetName(c: ShapeComponent): string {
    c.shapeName
  }

  /** The point a component asks its shape to draw at:
      `(getWidth() / 2, getHeight() / 2)`, in component coordinates. */
  function Anchor(c: ShapeComponent): (p: Point)
    ensures c.bounds.width >= 0 ==> 0 <= c.bounds.width - 2 * p.x <= 1
    ensures c.bounds.width < 0 ==> -1 <= c.bounds.width - 2 * p.x <= 0
    ensures c.bounds.height >= 0 ==> 0 <= c.bounds.height - 2 * p.y <= 1
    ensures c.bounds.height < 0 ==> -1 <= c.bounds.height - 2 * p.y <= 0
  {
    Point(Half(c.bounds.width), Half(c.bounds.height))
  }

  /** A component re-bounded any number of times keeps the name it was
      built with. */
  lemma {:induction false} NameSurvivesMoves(serial: nat, shapeName: string, moves: seq<Rect>)
    ensures GetName(MoveAll(NewComponent(serial, shapeName), moves)) == shapeName
    decreases |moves|
  {
    if |moves| > 0 {
      NameSurvivesMoves(serial, shapeName, moves[..|moves| - 1]);
    }
  }

  /** The component after `setBounds` with each rectangle in turn. */
  function MoveAll(c: ShapeComponent, moves: seq<Rect>): ShapeComponent
    decreases |moves|
  {
    if |moves| == 0 then c else SetBounds(MoveAll(c, moves[..|moves| - 1]), moves[|moves| - 1])
  }

  /** A component in the host's 54x54 box draws its shape at (27, 27), the
      middle of the box, wherever the box is. */
  lemma AnchorOfPlacedBox(c: ShapeComponent, p: Point)
    requires c.bounds == CenteredBox(p)
    ensures Anchor(c) == Point(27, 27)
  {
  }
}
