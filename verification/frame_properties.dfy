/** Properties of the paint frame over whole runs of user and registry
    events, starting from a freshly constructed frame. */
module FrameProperties {
  import opened JavaLang
  import opened Geometry
  import opened DefaultShapes
  import opened ShapeComponents
  import opened PaintFrame

  /** What the user can do: press the toolbar button at `index`, or use the
      mouse on the canvas. */
  datatype UserInput =
    | ToolbarButton(index: nat)
    | Click(at: Point, inPanel: bool)
    | Press(at: Point, inPanel: bool)
    | Drag(at: Point)
    | Release(at: Point)

  /** What can happen to the frame: registry calls and user input. */
  datatype FrameEvent =
    | AddShapeCall(name: string, icon: Image, shape: ShapeRef)
    | RemoveShapeCall(name: string)
    | Input(input: UserInput)

  /** One piece of user input. A press on a button that does not exist does
      nothing. A drag needs a grabbed component; one without (possible
      because each grabbing press registers the motion listener again while
      a release removes only one copy) throws before changing anything and
      is a no-op here. */
  function Apply(f: Frame, u: UserInput): (r: Frame)
    ensures r.shapes == f.shapes && r.toolbar == f.toolbar
    ensures r.selected.Some? ==> r.selected == f.selected || r.selected.value in f.toolbar
    ensures r.placeholder == f.placeholder
  {
    match u
    case ToolbarButton(index) => if index < |f.toolbar| then ShapeAction(f, f.toolbar[index]) else f
    case Click(p, inPanel) => MouseClicked(f, p, inPanel)
    case Press(p, inPanel) => MousePressed(f, p, inPanel)
    case Drag(p) => if f.grabbed.Some? then MouseDragged(f, p) else f
    case Release(p) => MouseReleased(f, p)
  }

  /** One event. */
  function Step(f: Frame, e: FrameEvent): Frame {
    match e
    case AddShapeCall(name, icon, shape) => AddShape(f, name, icon, shape)
    case RemoveShapeCall(name) => RemoveShape(f, name)
    case Input(u) => Apply(f, u)
  }

  /** The frame after the events, first to last. */
  function Run(f: Frame, es: seq<FrameEvent>): Frame
    decreases |es|
  {
    if |es| == 0 then f else Run(Step(f, es[0]), es[1..])
  }

  /** User input keeps the invariant. */
  lemma ApplyKeepsInv(f: Frame, u: UserInput)
    requires Inv(f)
    ensures Inv(Apply(f, u))
  {
  }

  /** Every event keeps the invariant. */
  lemma StepKeepsInv(f: Frame, e: FrameEvent)
    requires Inv(f)
    ensures Inv(Step(f, e))
  {
    match e
    case AddShapeCall(name, icon, shape) => AddShapeKeepsInv(f, name, icon, shape);
    case RemoveShapeCall(name) => RemoveShapeKeepsInv(f, name);
    case Input(u) => ApplyKeepsInv(f, u);
  }

  /** The invariant holds after any run of events from an invariant state. */
  lemma {:induction false} RunKeepsInv(f: Frame, es: seq<FrameEvent>)
    requires Inv(f)
    ensures Inv(Run(f, es))
    decreases |es|
  {
    if |es| > 0 {
      StepKeepsInv(f, es[0]);
      RunKeepsInv(Step(f, es[0]), es[1..]);
    }
  }

  /** From a new frame, whatever the events: nothing is selected exactly
      when the toolbar is empty, a selection always names a button, and
      every registered name has a button. */
  lemma ToolStateConsistentAfterAnyRun(es: seq<FrameEvent>)
    ensures var f := Run(NewFrame(), es);
      && (f.selected.None? <==> |f.toolbar| == 0)
      && (f.selected.Some? ==> f.selected.value in f.toolbar)
      && f.shapes.Keys <= set n | n in f.toolbar
  {
    RunKeepsInv(NewFrame(), es);
  }

  /** `selectShape` checks nothing: it can select a name that has no button
      and no registry entry, which toolbar presses alone never do. */
  lemma SelectShapeDoesNotValidate()
    ensures !ToolbarConsistent(SelectShape(NewFrame(), "unknown"))
  {
  }

  /** Names still registered after a run, computed from the events alone:
      added names join, removed names leave. */
  function LiveNames(start: set<string>, es: seq<FrameEvent>): set<string>
    decreases |es|
  {
    if |es| == 0 then start
    else
      var next := match es[0]
        case AddShapeCall(name, _, _) => start + {name}
        case RemoveShapeCall(name) => start - {name}
        case _ => start;
      LiveNames(next, es[1..])
  }

  /** The registry holds exactly the names added and not removed since. */
  lemma {:induction false} RegistryTracksLiveNames(f: Frame, es: seq<FrameEvent>)
    ensures Run(f, es).shapes.Keys == LiveNames(f.shapes.Keys, es)
    decreases |es|
  {
    if |es| > 0 {
      var g := Step(f, es[0]);
      assert g.shapes.Keys == match es[0]
        case AddShapeCall(name, _, _) => f.shapes.Keys + {name}
        case RemoveShapeCall(name) => f.shapes.Keys - {name}
        case _ => f.shapes.Keys;
      RegistryTracksLiveNames(g, es[1..]);
    }
  }

  /** Identity and shape name of each placed component, front to back. */
  function Placements(f: Frame): seq<(nat, string)> {
    seq(|f.placed|, i requires 0 <= i < |f.placed| => (f.placed[i].serial, GetName(f.placed[i])))
  }

  /** `a` is what remains at the back of `b`. */
  predicate IsSuffix<T(==)>(a: seq<T>, b: seq<T>) {
    |a| <= |b| && b[|b| - |a|..] == a
  }

  /** Frames whose components agree one by one in identity and name have
      the same placements. */
  lemma SamePlacements(f: Frame, g: Frame)
    requires |g.placed| == |f.placed|
    requires forall i :: 0 <= i < |f.placed| ==>
               g.placed[i].serial == f.placed[i].serial && GetName(g.placed[i]) == GetName(f.placed[i])
    ensures IsSuffix(Placements(f), Placements(g))
  {
    assert Placements(g) == Placements(f);
  }

  /** User input only adds components at the front or moves them. */
  lemma ApplyKeepsPlacements(f: Frame, u: UserInput)
    ensures IsSuffix(Placements(f), Placements(Apply(f, u)))
  {
    match u
    case ToolbarButton(_) => SamePlacements(f, Apply(f, u));
    case Click(p, inPanel) => ClickKeepsPlacements(f, p, inPanel);
    case Press(p, inPanel) => SamePlacements(f, MousePressed(f, p, inPanel));
    case Drag(p) => SamePlacements(f, Apply(f, u));
    case Release(p) => SamePlacements(f, MouseReleased(f, p));
  }

  /** A click puts at most one component in front of the others. */
  lemma ClickKeepsPlacements(f: Frame, p: Point, inPanel: bool)
    ensures IsSuffix(Placements(f), Placements(MouseClicked(f, p, inPanel)))
  {
    var g := MouseClicked(f, p, inPanel);
    if f.selected.Some? && inPanel {
      PrependKeepsPlacements(f, g);
    } else {
      assert g == f;
      SamePlacements(f, g);
    }
  }

  /** A frame whose components are another's with one more in front keeps
      the other's placements at its back. */
  lemma PrependKeepsPlacements(f: Frame, g: Frame)
    requires |g.placed| == |f.placed| + 1 && g.placed[1..] == f.placed
    ensures IsSuffix(Placements(f), Placements(g))
  {
    var a, b := Placements(f), Placements(g);
    forall i | 0 <= i < |a|
      ensures b[1..][i] == a[i]
    {
      assert g.placed[i + 1] == f.placed[i];
    }
    assert b[1..] == a;
  }

  /** No event takes a component off the canvas or renames it: the
      components present before an event are still there after it, in the
      same order behind any new one. */
  lemma StepKeepsPlacements(f: Frame, e: FrameEvent)
    ensures IsSuffix(Placements(f), Placements(Step(f, e)))
  {
    match e
    case AddShapeCall(name, icon, shape) => SamePlacements(f, AddShape(f, name, icon, shape));
    case RemoveShapeCall(name) => SamePlacements(f, RemoveShape(f, name));
    case Input(u) => ApplyKeepsPlacements(f, u);
  }

  /** Over a whole run, placed components survive: in particular removing a
      shape leaves the components drawn with it in place. */
  lemma {:induction false} RunKeepsPlacements(f: Frame, es: seq<FrameEvent>)
    ensures IsSuffix(Placements(f), Placements(Run(f, es)))
    decreases |es|
  {
    if |es| > 0 {
      var g := Step(f, es[0]);
      StepKeepsPlacements(f, es[0]);
      RunKeepsPlacements(g, es[1..]);
      var a, b, c := Placements(f), Placements(g), Placements(Run(g, es[1..]));
      assert c[|c| - |b|..][|b| - |a|..] == c[|c| - |a|..];
    }
  }

  /** Dragging or releasing moves exactly the grabbed component: when the
      invariant holds and the grabbed serial is on the canvas, that one
      component is re-centred on the pointer and every other one is left
      untouched. */
  lemma DragMovesOnlyGrabbed(f: Frame, p: Point, k: nat)
    requires Inv(f) && f.grabbed.Some?
    requires k < |f.placed| && f.placed[k].serial == f.grabbed.value
    ensures var g := MouseDragged(f, p);
      && Centre(g.placed[k].bounds) == p
      && forall i :: 0 <= i < |f.placed| && i != k ==> g.placed[i] == f.placed[i]
    ensures var g := MouseReleased(f, p);
      && Centre(g.placed[k].bounds) == p && g.grabbed.None?
      && forall i :: 0 <= i < |f.placed| && i != k ==> g.placed[i] == f.placed[i]
  {
  }

  /** Pressing inside the canvas on a component and releasing elsewhere
      moves exactly the front-most component under the press, re-centred on
      the release point, and ends the grab. */
  lemma PressThenReleaseMovesFrontMost(f: Frame, p: Point, q: Point, k: nat)
    requires Inv(f)
    requires FirstHit(f.placed, p) == Some(k)
    ensures var g := MouseReleased(MousePressed(f, p, true), q);
      && |g.placed| == |f.placed|
      && Centre(g.placed[k].bounds) == q && GetName(g.placed[k]) == GetName(f.placed[k])
      && g.grabbed.None?
      && forall i :: 0 <= i < |f.placed| && i != k ==> g.placed[i] == f.placed[i]
  {
    var pressed := MousePressed(f, p, true);
    assert pressed.grabbed == Some(f.placed[k].serial);
    assert pressed.placed == f.placed;
  }

  /** Re-adding a name gives it a second button. Removing it afterwards
      takes only the first button away, so the selection falls back onto the
      remaining, stale button of a name that is no longer registered. */
  lemma DuplicateAddLeavesStaleSelection(icon: Image, first: ShapeRef, second: ShapeRef)
    ensures var f := RemoveShape(AddShape(AddShape(NewFrame(), "Circle", icon, first), "Circle", icon, second), "Circle");
      && f.toolbar == ["Circle"]
      && f.selected == Some("Circle")
      && "Circle" !in f.shapes
      && GetShape(f, "Circle") == DefaultPlaceholder
  {
    var f1 := AddShape(NewFrame(), "Circle", icon, first);
    assert f1.toolbar == ["Circle"] && f1.selected == Some("Circle");
    var f2 := AddShape(f1, "Circle", icon, second);
    assert f2.toolbar == ["Circle", "Circle"] && f2.selected == Some("Circle");
    assert FirstIndex(f2.toolbar, "Circle") == 0;
    assert RemoveFirst(f2.toolbar, "Circle") == ["Circle"];
    var f3 := RemoveShape(f2, "Circle");
    assert f3.toolbar == ["Circle"];
  }

  /** Removing a name that has neither an entry nor a button changes
      nothing at all. */
  lemma RemovingUnknownNameIsNoOp(f: Frame, name: string)
    requires Inv(f)
    requires name !in f.shapes && name !in f.toolbar
    ensures RemoveShape(f, name) == f
  {
  }

  /** A modification is a removal followed by an addition, so a modified
      tool that was selected loses the selection to the first other button,
      if there is one, and gets it back only when it was alone. */
  lemma ModifySelection(f: Frame, name: string, icon: Image, shape: ShapeRef)
    requires Inv(f) && f.selected == Some(name)
    ensures var others := RemoveFirst(f.toolbar, name);
      var g := AddShape(RemoveShape(f, name), name, icon, shape);
      && g.toolbar == others + [name]
      && g.selected == (if |others| > 0 then Some(others[0]) else Some(name))
  {
  }
}
