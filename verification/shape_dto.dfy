/** The value the REST layer builds from request parameters: a name and a
    centre, with no extent. */
module ShapeDTOs {
  import opened JavaLang
  import opened Geometry
  import opened ShapeApi
  import ShapeComponents
  import opened ShapeImpls

  /** The three fields of a `ShapeDTO`. */
  datatype ShapeDTO = ShapeDTO(x: int32, y: int32, name: Option<string>)

  /** A freshly constructed DTO: Java's default field values. */
  function NewDTO(): (d: ShapeDTO)
    ensures GetX(d) == 0 && GetY(d) == 0 && GetName(d).None?
  {
    ShapeDTO(0, 0, None)
  }

  function GetX(d: ShapeDTO): int32 { d.x }
  function GetY(d: ShapeDTO): int32 { d.y }
  function GetName(d: ShapeDTO): Option<string> { d.name }

  /** `getWidth()`: a DTO has no extent. */
  function GetWidth(d: ShapeDTO): int32 { 0 }

  /** `getHeight()`: a DTO has no extent. */
  function GetHeight(d: ShapeDTO): int32 { 0 }

  /** `setX(v)`: only `x` changes. */
  function SetX(d: ShapeDTO, v: int32): (r: ShapeDTO)
    ensures GetX(r) == v && GetY(r) == GetY(d) && GetName(r) == GetName(d)
  {
    d.(x := v)
  }

  /** `setY(v)`: only `y` changes. */
  function SetY(d: ShapeDTO, v: int32): (r: ShapeDTO)
    ensures GetY(r) == v && GetX(r) == GetX(d) && GetName(r) == GetName(d)
  {
    d.(y := v)
  }

  /** `setName(s)`: only the name changes. */
  function SetName(d: ShapeDTO, s: Option<string>): (r: ShapeDTO)
    ensures GetName(r) == s && GetX(r) == GetX(d) && GetY(r) == GetY(d)
  {
    d.(name := s)
  }

  /** The DTO seen as a `Shape`. */
  function AsShape(d: ShapeDTO): JObject {
    AShape(ShapeView(GetName(d), GetX(d), GetY(d), GetWidth(d), GetHeight(d)))
  }

  /** Whatever setters have been applied, a DTO reports zero width and
      height. */
  lemma NoExtent(d: ShapeDTO, x: int32, y: int32, s: Option<string>)
    ensures AsShape(SetName(SetY(SetX(d, x), y), s)).view.width == 0
    ensures AsShape(SetName(SetY(SetX(d, x), y), s)).view.height == 0
  {
  }

  /** The getters of a DTO filled through its setters report what was set,
      and no extent. */
  lemma GettersReadSetters(d: ShapeDTO, x: int32, y: int32, s: Option<string>)
    ensures var e := SetName(SetY(SetX(d, x), y), s);
      && GetX(e) == x && GetY(e) == y && GetName(e) == s
      && GetWidth(e) == 0 && GetHeight(e) == 0
  {
  }

  /** A DTO filled from a name and a point matches the reported value of a
      component placed at that point exactly when it names the component's
      shape and the point is the click point, although the two differ in
      width and height. */
  lemma DTOMatchesPlacedComponent(c: ShapeComponents.ShapeComponent, p: Point, d: ShapeDTO)
    requires c.bounds == CenteredBox(p)
    ensures Equals(FromBounds(Some(ShapeComponents.GetName(c)), c.bounds), AsShape(d))
              == Normal(GetName(d) == Some(c.shapeName) && GetX(d) == p.x && GetY(d) == p.y)
    ensures Equals(FromBounds(Some(ShapeComponents.GetName(c)), c.bounds),
                   AsShape(SetY(SetX(SetName(NewDTO(), Some(ShapeComponents.GetName(c))), p.x), p.y))) == Normal(true)
  {
    ClickRoundTrip(Some(ShapeComponents.GetName(c)), p);
  }
}
