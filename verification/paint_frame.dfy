/** The paint host's window state with Swing stripped away: the name-to-shape
    registry, the toolbar (the action commands of its buttons, in order), the
    selected tool, the components placed on the canvas and the one being
    dragged. Every operation is a pure transition from one state to the next. */
module PaintFrame {
  import opened JavaLang
  import opened Geometry
  import opened DefaultShapes
  import opened ShapeComponents

  /** A `SimpleShape` as the frame holds it: a tracked proxy, by identity,
      or the frame's own shared placeholder. */
  datatype ShapeRef = DefaultPlaceholder | Proxy(id: nat)

  /** A registry entry. */
  datatype ShapeInfo = ShapeInfo(name: string, icon: Image, shape: ShapeRef)

  /** The frame. `grabbed` is the serial of the component being dragged;
      `nextSerial` hands out identities to new components; `placeholder` is
      the state of the frame's own `DefaultShape`. */
  datatype Frame = Frame(
    shapes: map<string, ShapeInfo>,
    toolbar: seq<string>,
    selected: Option<string>,
    placed: seq<ShapeComponent>,
    grabbed: Option<nat>,
    nextSerial: nat,
    placeholder: DefaultShape)

  /** Selection and registry agree with the toolbar: nothing is selected
      exactly when there are no buttons, a selected name has a button, and
      every registered name has a button. */
  ghost predicate ToolbarConsistent(f: Frame) {
    && (f.selected.None? <==> |f.toolbar| == 0)
    && (f.selected.Some? ==> f.selected.value in f.toolbar)
    && (forall n :: n in f.shapes ==> n in f.toolbar)
  }

  /** Every placed component has its own serial, below `nextSerial`. */
  ghost predicate SerialsFresh(f: Frame) {
    && (forall i :: 0 <= i < |f.placed| ==> f.placed[i].serial < f.nextSerial)
    && (forall i, j :: 0 <= i < j < |f.placed| ==> f.placed[i].serial != f.placed[j].serial)
  }

  /** The state invariant of the frame. */
  ghost predicate Inv(f: Frame) {
    && ToolbarConsistent(f)
    && (forall n :: n in f.shapes ==> f.shapes[n].name == n)
    && !f.placeholder.Delegates()
    && SerialsFresh(f)
  }

  /** The frame as the constructor leaves it: no shapes, no buttons, no
      selection, an empty canvas and a fresh placeholder. */
  function NewFrame(): (f: Frame)
    ensures Inv(f)
    ensures f.shapes == map[] && f.toolbar == [] && f.placed == []
    ensures f.selected.None? && f.grabbed.None? && f.nextSerial == 0 && f.placeholder == Placeholder()
  {
    Frame(map[], [], None, [], None, 0, Placeholder())
  }

  /** `selectShape(name)`: takes any name, without checking it. */
  function SelectShape(f: Frame, name: string): (r: Frame)
    ensures r.selected == Some(name)
    ensures r.(selected := f.selected) == f
  {
    f.(selected := Some(name))
  }

  /** `ShapeActionListener`: a toolbar button fires its action command, and
      the listener selects it. */
  function ShapeAction(f: Frame, command: string): (r: Frame)
    ensures r.selected == Some(command)
    ensures r.(selected := f.selected) == f
  {
    SelectShape(f, command)
  }

  /** `getShape(name)`: the registered shape, or the shared placeholder. */
  function GetShape(f: Frame, name: string): (r: ShapeRef)
    ensures name in f.shapes ==> r == f.shapes[name].shape
    ensures name !in f.shapes ==> r == DefaultPlaceholder
  {
    if name in f.shapes then f.shapes[name].shape else DefaultPlaceholder
  }

  /** `addShape(name, icon, shape)`: overwrite the registry entry, click the
      new button if nothing is selected yet, then append the button. */
  function AddShape(f: Frame, name: string, icon: Image, shape: ShapeRef): (r: Frame)
    ensures r.shapes == f.shapes[name := ShapeInfo(name, icon, shape)]
    ensures |r.toolbar| == |f.toolbar| + 1 && r.toolbar[..|f.toolbar|] == f.toolbar
    ensures r.toolbar[|f.toolbar|] == name
    ensures f.selected.None? ==> r.selected == Some(name)
    ensures f.selected.Some? ==> r.selected == f.selected
    ensures r.placed == f.placed && r.grabbed == f.grabbed && r.nextSerial == f.nextSerial
    ensures r.placeholder == f.placeholder
  {
    var registered := f.(shapes := f.shapes[name := ShapeInfo(name, icon, shape)]);
    var clicked := if registered.selected.None? then ShapeAction(registered, name) else registered;
    clicked.(toolbar := clicked.toolbar + [name])
  }

  /** After `addShape`, `getShape` answers the new shape for the added name
      and what it answered before for every other name. */
  lemma AddShapeLookups(f: Frame, name: string, icon: Image, shape: ShapeRef)
    ensures GetShape(AddShape(f, name, icon, shape), name) == shape
    ensures forall n :: n != name ==> GetShape(AddShape(f, name, icon, shape), n) == GetShape(f, n)
    ensures AddShape(f, name, icon, shape).shapes.Keys == f.shapes.Keys + {name}
  {
  }

  /** Removing a name and adding it again leaves any other name's binding
      and its number of buttons alone. */
  lemma ReplaceKeepsOtherNames(f: Frame, name: string, icon: Image, shape: ShapeRef, other: string)
    requires other != name
    ensures var g := AddShape(RemoveShape(f, name), name, icon, shape);
      && GetShape(g, other) == GetShape(f, other)
      && multiset(g.toolbar)[other] == multiset(f.toolbar)[other]
  {
    var removed := RemoveShape(f, name);
    var g := AddShape(removed, name, icon, shape);
    assert g.toolbar == removed.toolbar + [name];
    assert multiset(removed.toolbar) == multiset(f.toolbar) - multiset{name};
  }

  /** The position of the first `x` in `s`. */
  function FirstIndex(s: seq<string>, x: string): (i: nat)
    requires x in s
    ensures i < |s| && s[i] == x
    ensures forall j :: 0 <= j < i ==> s[j] != x
  {
    if s[0] == x then 0 else 1 + FirstIndex(s[1..], x)
  }

  /** `s` without its first `x`, the rest in order; `s` itself if it holds
      no `x`. */
  function RemoveFirst(s: seq<string>, x: string): (r: seq<string>)
    ensures x !in s ==> r == s
    ensures x in s ==> |r| == |s| - 1
    ensures multiset(r) == multiset(s) - multiset{x}
    ensures forall y :: y != x ==> (y in r <==> y in s)
  {
    if x in s then
      var i := FirstIndex(s, x);
      assert s == s[..i] + [x] + s[i + 1..];
      s[..i] + s[i + 1..]
    else s
  }

  /** The copy `RemoveFirst` takes out is the first one, and the elements
      before and after it stay in order. */
  lemma RemoveFirstTakesFirstCopy(s: seq<string>, x: string)
    requires x in s
    ensures exists i :: 0 <= i < |s| && s[i] == x && x !in s[..i] && RemoveFirst(s, x) == s[..i] + s[i + 1..]
  {
    var i := FirstIndex(s, x);
    assert x !in s[..i];
  }

  /** `removeShape(name)`: drop the registry entry, clear the selection if it
      named `name`, remove the first button for `name`, and if nothing is
      selected then click the first remaining button. */
  function RemoveShape(f: Frame, name: string): (r: Frame)
    ensures r.shapes == f.shapes - {name}
    ensures GetShape(r, name) == DefaultPlaceholder
    ensures r.toolbar == RemoveFirst(f.toolbar, name)
    ensures f.selected.None? || f.selected == Some(name) ==>
              r.selected == (if |r.toolbar| > 0 then Some(r.toolbar[0]) else None)
    ensures f.selected.Some? && f.selected != Some(name) ==> r.selected == f.selected
    ensures r.placed == f.placed && r.grabbed == f.grabbed && r.nextSerial == f.nextSerial
    ensures r.placeholder == f.placeholder
  {
    var unregistered := f.(shapes := f.shapes - {name});
    var cleared := if unregistered.selected == Some(name) then unregistered.(selected := None) else unregistered;
    var pruned := cleared.(toolbar := RemoveFirst(cleared.toolbar, name));
    if pruned.selected.None? && |pruned.toolbar| > 0 then ShapeAction(pruned, pruned.toolbar[0]) else pruned
  }

  /** Adding a shape keeps the invariant. */
  lemma AddShapeKeepsInv(f: Frame, name: string, icon: Image, shape: ShapeRef)
    requires Inv(f)
    ensures Inv(AddShape(f, name, icon, shape))
  {
    var r := AddShape(f, name, icon, shape);
    assert r.toolbar == f.toolbar + [name];
    forall n | n in r.shapes
      ensures n in r.toolbar
    {
      if n != name {
        assert n in f.toolbar;
      }
    }
  }

  /** Removing a shape keeps the invariant: in particular a selection that
      pointed at the removed tool moves to the first remaining button, and
      one that pointed elsewhere keeps its button, since only one button
      goes. */
  lemma RemoveShapeKeepsInv(f: Frame, name: string)
    requires Inv(f)
    ensures Inv(RemoveShape(f, name))
  {
    var r := RemoveShape(f, name);
    if f.selected.Some? && f.selected != Some(name) {
      assert f.selected.value in r.toolbar;
    }
  }

  /** `mouseClicked`: with a tool selected and the click inside the canvas
      (`inPanel`, Swing's `contains`), put a new component for the selected
      shape in front of all others, in the 54x54 box centred on the click. */
  function MouseClicked(f: Frame, p: Point, inPanel: bool): (r: Frame)
    ensures f.selected.None? || !inPanel ==> r == f
    ensures f.selected.Some? && inPanel ==>
              && |r.placed| == |f.placed| + 1 && r.placed[1..] == f.placed
              && GetName(r.placed[0]) == f.selected.value
              && r.placed[0].bounds == CenteredBox(p)
              && Centre(r.placed[0].bounds) == p
              && r.placed[0].serial == f.nextSerial && r.nextSerial == f.nextSerial + 1
    ensures r.shapes == f.shapes && r.toolbar == f.toolbar && r.selected == f.selected
    ensures r.grabbed == f.grabbed && r.placeholder == f.placeholder
  {
    if f.selected.None? then f
    else if inPanel then
      var sc := SetBounds(NewComponent(f.nextSerial, f.selected.value), CenteredBox(p));
      f.(placed := [sc] + f.placed, nextSerial := f.nextSerial + 1)
    else f
  }

  /** Index of the front-most component whose bounds contain `p`: the one
      Swing's `getComponentAt` returns, since it scans children from
      index 0. */
  function FirstHit(s: seq<ShapeComponent>, p: Point): (r: Option<nat>)
    ensures r.Some? ==> r.value < |s| && Contains(s[r.value].bounds, p)
    ensures r.Some? ==> forall j :: 0 <= j < r.value ==> !Contains(s[j].bounds, p)
    ensures r.None? ==> forall j :: 0 <= j < |s| ==> !Contains(s[j].bounds, p)
  {
    if |s| == 0 then None
    else if Contains(s[0].bounds, p) then Some(0)
    else match FirstHit(s[1..], p)
      case Some(i) => Some(i + 1)
      case None => None
  }

  /** `mousePressed`: grab the front-most component under the pointer, if
      the pointer is inside the canvas and over a component. */
  function MousePressed(f: Frame, p: Point, inPanel: bool): (r: Frame)
    ensures r.grabbed != f.grabbed ==>
              inPanel && exists i :: 0 <= i < |f.placed| && r.grabbed == Some(f.placed[i].serial) && Contains(f.placed[i].bounds, p)
    ensures inPanel && (exists i :: 0 <= i < |f.placed| && Contains(f.placed[i].bounds, p)) ==> r.grabbed.Some?
    ensures inPanel && FirstHit(f.placed, p).Some? ==> r.grabbed == Some(f.placed[FirstHit(f.placed, p).value].serial)
    ensures !inPanel || FirstHit(f.placed, p).None? ==> r == f
    ensures r.(grabbed := f.grabbed) == f
  {
    var hit := if inPanel then FirstHit(f.placed, p) else None;
    match hit
    case Some(i) => f.(grabbed := Some(f.placed[i].serial))
    case None => f
  }

  /** Every component with the given serial re-bounded to `r`; the others
      left as they are. */
  function Rebound(s: seq<ShapeComponent>, serial: nat, r: Rect): (s': seq<ShapeComponent>)
    ensures |s'| == |s|
    ensures forall i :: 0 <= i < |s| ==> s'[i].serial == s[i].serial && GetName(s'[i]) == GetName(s[i])
    ensures forall i :: 0 <= i < |s| && s[i].serial == serial ==> s'[i].bounds == r
    ensures forall i :: 0 <= i < |s| && s[i].serial != serial ==> s'[i] == s[i]
  {
    seq(|s|, i requires 0 <= i < |s| => if s[i].serial == serial then SetBounds(s[i], r) else s[i])
  }

  /** `mouseDragged`: re-centre the grabbed component on the pointer. It
      needs a grabbed component: every grabbing press registers the motion
      listener again and a release removes only one copy, so a drag can
      come with nothing grabbed; it then throws before changing anything,
      and `Apply` treats it as a no-op. */
  function MouseDragged(f: Frame, p: Point): (r: Frame)
    requires f.grabbed.Some?
    ensures r.placed == Rebound(f.placed, f.grabbed.value, CenteredBox(p))
    ensures r.(placed := f.placed) == f
  {
    f.(placed := Rebound(f.placed, f.grabbed.value, CenteredBox(p)))
  }

  /** `mouseReleased`: drop the grabbed component centred on the pointer and
      stop dragging; nothing happens when no component is grabbed. */
  function MouseReleased(f: Frame, p: Point): (r: Frame)
    ensures r.grabbed.None?
    ensures f.grabbed.None? ==> r == f
    ensures f.grabbed.Some? ==> r.placed == Rebound(f.placed, f.grabbed.value, CenteredBox(p))
    ensures r.(placed := f.placed, grabbed := f.grabbed) == f
  {
    if f.grabbed.Some? then
      f.(placed := Rebound(f.placed, f.grabbed.value, CenteredBox(p)), grabbed := None)
    else f
  }
}
