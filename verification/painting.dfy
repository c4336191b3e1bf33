/** Painting a placed component: the component looks its shape up in the
    frame by name at paint time and asks it to draw at the component's
    middle. Drawing may fill a proxy's icon cache, so painting yields the
    updated proxies along with what was drawn. */
module Painting {
  import opened JavaLang
  import opened Geometry
  import opened DefaultShapes
  import opened ShapeComponents
  import opened PaintFrame

  /** What a paint drew, and the frame and proxy states after it. */
  datatype Painted = Painted(drawing: Drawing, frame: Frame, proxies: map<nat, DefaultShape>)

  /** Every proxy the frame refers to has a state in `proxies`. */
  ghost predicate Resolvable(f: Frame, proxies: map<nat, DefaultShape>) {
    forall n :: n in f.shapes && f.shapes[n].shape.Proxy? ==> f.shapes[n].shape.id in proxies
  }

  /** `paintComponent`: draw `getShape(getName())` at `(width / 2, height / 2)`. */
  function PaintComponent(f: Frame, proxies: map<nat, DefaultShape>, c: ShapeComponent, resource: Option<Image>): (r: Painted)
    requires Resolvable(f, proxies)
    ensures GetName(c) !in f.shapes ==> !f.placeholder.Delegates() ==> !r.drawing.Delegated?
    ensures GetShape(f, GetName(c)).Proxy? ==>
              var id := GetShape(f, GetName(c)).id;
              proxies[id].Delegates() ==> r.drawing == Delegated(proxies[id].shape.value, Anchor(c))
    ensures GetShape(f, GetName(c)).Proxy? && !proxies[GetShape(f, GetName(c)).id].Delegates() ==> !r.drawing.Delegated?
    ensures r.frame.(placeholder := f.placeholder) == f
    ensures r.frame.placeholder.shape == f.placeholder.shape
    ensures r.proxies.Keys == proxies.Keys
    ensures forall id :: id in proxies ==> r.proxies[id].shape == proxies[id].shape
  {
    match GetShape(f, GetName(c))
    case DefaultPlaceholder =>
      var d := Draw(f.placeholder, Anchor(c), resource);
      Painted(d.drawing, f.(placeholder := d.after), proxies)
    case Proxy(id) =>
      var d := Draw(proxies[id], Anchor(c), resource);
      Painted(d.drawing, f, proxies[id := d.after])
  }

  /** Once its shape has been removed, a component paints through the
      frame's placeholder: the default icon at the origin, or the red block,
      never the provider's shape. */
  lemma RemovedShapePaintsPlaceholder(f: Frame, proxies: map<nat, DefaultShape>, c: ShapeComponent, resource: Option<Image>)
    requires Inv(f) && Resolvable(f, proxies)
    ensures var g := RemoveShape(f, GetName(c));
      && Resolvable(g, proxies)
      && var r := PaintComponent(g, proxies, c, resource);
      && r.drawing == Draw(f.placeholder, Anchor(c), resource).drawing
      && (r.drawing.PlaceholderIcon? || r.drawing.RedBlock?)
  {
  }

  /** The lookup happens at paint time: a component created under one
      binding of its name paints with whatever the name is bound to when it
      is painted. */
  lemma PaintUsesCurrentBinding(f: Frame, proxies: map<nat, DefaultShape>, c: ShapeComponent, icon: Image, id: nat, cap: Capability, resource: Option<Image>)
    requires Resolvable(f, proxies)
    requires id in proxies && proxies[id] == Wrapping(cap)
    ensures var g := AddShape(f, GetName(c), icon, Proxy(id));
      && Resolvable(g, proxies)
      && PaintComponent(g, proxies, c, resource).drawing == Delegated(cap, Anchor(c))
  {
  }

  /** A component placed by a click asks a live shape to draw at (27, 27),
      the middle of its 54x54 box. */
  lemma PlacedComponentDrawsAtMiddle(f: Frame, proxies: map<nat, DefaultShape>, p: Point, resource: Option<Image>)
    requires Resolvable(f, proxies) && f.selected.Some?
    requires GetShape(f, f.selected.value).Proxy?
    requires proxies[GetShape(f, f.selected.value).id].Delegates()
    ensures var g := MouseClicked(f, p, true);
      var r := PaintComponent(g, proxies, g.placed[0], resource);
      r.drawing == Delegated(proxies[GetShape(f, f.selected.value).id].shape.value, Point(27, 27))
  {
    var g := MouseClicked(f, p, true);
    AnchorOfPlacedBox(g.placed[0], p);
  }
}
