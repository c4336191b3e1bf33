/** The query API's value for a placed shape: a name and the centre of the
    component's bounds, compared by name and centre only. */
module ShapeImpls {
  import opened JavaLang
  import opened Geometry
  import opened ShapeApi

  /** The five fields of a `ShapeImpl`. */
  datatype ShapeImpl = ShapeImpl(name: Option<string>, x: int32, y: int32, width: int32, height: int32)

  /** `new ShapeImpl(name, bounds)`: the name and the extent are kept, and
      the corner is turned into the centre. */
  function FromBounds(name: Option<string>, bounds: Rect): (s: ShapeImpl)
    ensures s.name == name && s.width == bounds.width && s.height == bounds.height
    ensures Point(s.x, s.y) == Centre(bounds)
  {
    ShapeImpl(name, Add(bounds.x, Half(bounds.width)), Add(bounds.y, Half(bounds.height)), bounds.width, bounds.height)
  }

  /** The getters. */
  function View(s: ShapeImpl): ShapeView {
    ShapeView(s.name, s.x, s.y, s.width, s.height)
  }

  /** `equals(obj)`: false for anything that is not a `Shape`; otherwise
      the names and the centres must agree, width and height not being
      compared. A `ShapeImpl` without a name throws when compared with a
      `Shape`. */
  function Equals(s: ShapeImpl, obj: JObject): (r: Result<bool>)
    ensures obj.NotAShape? ==> r == Normal(false)
    ensures obj.AShape? && s.name.None? ==> r == Threw(NullPointerException)
    ensures obj.AShape? && s.name.Some? ==>
              r.Normal? && (r.value <==> obj.view.name == s.name && obj.view.x == s.x && obj.view.y == s.y)
  {
    match obj
    case NotAShape => Normal(false)
    case AShape(other) =>
      match s.name
      case None => Threw(NullPointerException)
      case Some(n) => Normal(other.name == Some(n) && s.x == other.x && s.y == other.y)
  }

  /** The getters of a value built from a component's bounds report the
      name, the centre of the bounds and the extent. */
  lemma ViewOfBounds(name: Option<string>, bounds: Rect)
    ensures View(FromBounds(name, bounds)) == ShapeView(name, Centre(bounds).x, Centre(bounds).y, bounds.width, bounds.height)
  {
  }

  /** A component placed or dropped at `p` is reported with centre `p`. */
  lemma ClickRoundTrip(name: Option<string>, p: Point)
    ensures FromBounds(name, CenteredBox(p)).x == p.x
    ensures FromBounds(name, CenteredBox(p)).y == p.y
    ensures FromBounds(name, CenteredBox(p)).width == SHAPE_SIZE
  {
  }

  /** Two values that differ only in width or height are equal. */
  lemma EqualsIgnoresExtent(s: ShapeImpl, w: int32, h: int32)
    requires s.name.Some?
    ensures Equals(s, AShape(View(s.(width := w, height := h)))) == Normal(true)
  {
  }

  /** Among values with names, `equals` is reflexive. */
  lemma EqualsReflexive(s: ShapeImpl)
    requires s.name.Some?
    ensures Equals(s, AShape(View(s))) == Normal(true)
  {
  }

  /** Among values with names, `equals` is symmetric. */
  lemma EqualsSymmetric(a: ShapeImpl, b: ShapeImpl)
    requires a.name.Some? && b.name.Some?
    ensures Equals(a, AShape(View(b))) == Equals(b, AShape(View(a)))
  {
  }
}
