/** The host as a whole: service notifications and user input interleaved
    in any order. Each notification, the disposal of a departed proxy
    included, is treated as one atomic step, although that disposal runs
    outside the event thread. The tracker here is the corrected one, which
    reads a shape's icon from the icon property. */
module HostProperties {
  import opened JavaLang
  import opened Geometry
  import opened DefaultShapes
  import opened ShapeComponents
  import opened PaintFrame
  import opened FrameProperties
  import opened Painting
  import opened ShapeTracker

  /** A service tracker callback, with the framework state at the time. */
  datatype Notification =
    | Arrival(state: bv32, ref: ServiceRef)
    | Change(state: bv32, ref: ServiceRef, svc: nat)
    | Departure(state: bv32, ref: ServiceRef, svc: nat)

  /** Anything that can happen to the host. */
  datatype HostEvent = Notify(notification: Notification) | User(input: UserInput)

  /** One event. The service tracker only reports modification and removal
      of services it tracks, so those carry a proxy it created. */
  function HostStep(w: World, e: HostEvent): World {
    match e
    case Notify(Arrival(state, ref)) => AddingService(w, state, ref).world
    case Notify(Change(state, ref, svc)) => if svc in w.proxies then ModifiedService(w, state, ref, svc) else w
    case Notify(Departure(state, ref, svc)) => if svc in w.proxies then RemovedService(w, state, ref, svc) else w
    case User(u) => w.(frame := Apply(w.frame, u))
  }

  /** The host after the events, first to last. */
  function HostRun(w: World, es: seq<HostEvent>): World
    decreases |es|
  {
    if |es| == 0 then w else HostRun(HostStep(w, es[0]), es[1..])
  }

  lemma HostStepKeepsWorldInv(w: World, e: HostEvent)
    requires WorldInv(w)
    ensures WorldInv(HostStep(w, e))
  {
    match e
    case Notify(Arrival(state, ref)) => AddingServiceKeepsWorldInv(w, state, ref);
    case Notify(Change(state, ref, svc)) =>
      if svc in w.proxies {
        ModifiedServiceKeepsWorldInv(w, state, ref, svc);
      }
    case Notify(Departure(state, ref, svc)) =>
      if svc in w.proxies {
        RemovedServiceKeepsWorldInv(w, state, ref, svc);
      }
    case User(u) => ApplyKeepsInv(w.frame, u);
  }

  /** Whatever the interleaving of notifications and user input, the host
      invariant holds: the tool state stays consistent with the toolbar and
      every registered name resolves to a proxy the tracker created. */
  lemma {:induction false} HostRunKeepsWorldInv(w: World, es: seq<HostEvent>)
    requires WorldInv(w)
    ensures WorldInv(HostRun(w, es))
    decreases |es|
  {
    if |es| > 0 {
      HostStepKeepsWorldInv(w, es[0]);
      HostRunKeepsWorldInv(HostStep(w, es[0]), es[1..]);
    }
  }

  /** In every reachable host state, every placed component can be painted:
      its name resolves either to a tracked proxy or, once the name is
      unregistered, to the frame's placeholder, which never delegates; and a
      name still bound to a disposed proxy never delegates either. */
  lemma EveryPlacedComponentPaints(es: seq<HostEvent>, k: nat, resource: Option<Image>)
    requires k < |HostRun(NewWorld(), es).frame.placed|
    ensures var w := HostRun(NewWorld(), es);
      var c := w.frame.placed[k];
      && Resolvable(w.frame, w.proxies)
      && (GetName(c) !in w.frame.shapes ==>
            !PaintComponent(w.frame, w.proxies, c, resource).drawing.Delegated?)
      && (GetShape(w.frame, GetName(c)).Proxy? && !w.proxies[GetShape(w.frame, GetName(c)).id].Delegates() ==>
            !PaintComponent(w.frame, w.proxies, c, resource).drawing.Delegated?)
  {
    HostRunKeepsWorldInv(NewWorld(), es);
  }

  /** After a departure, whether or not the gate let the removal through,
      no component whose name resolves to the departed proxy delegates: the
      proxy is disposed even when its name stays registered. */
  lemma DepartedProxyNeverPaints(w: World, state: bv32, ref: ServiceRef, svc: nat, c: ShapeComponent, resource: Option<Image>)
    requires Resolvable(w.frame, w.proxies) && svc in w.proxies
    ensures var r := HostStep(w, Notify(Departure(state, ref, svc)));
      && Resolvable(r.frame, r.proxies)
      && (GetShape(r.frame, GetName(c)) == Proxy(svc) ==> !PaintComponent(r.frame, r.proxies, c, resource).drawing.Delegated?)
  {
    DepartureOfTracked(w, state, ref, svc);
    RemovedServiceKeepsResolvable(w, state, ref, svc);
  }

  /** With the framework neither starting nor active, no notification
      changes the frame; a removal still disposes the proxy. */
  lemma ClosedGateLeavesFrame(w: World, n: Notification)
    requires !Accepting(n.state)
    ensures HostStep(w, Notify(n)).frame == w.frame
  {
  }

  /** The host after "Circle" has arrived. */
  function OneShape(circle: ServiceRef): World
    requires circle.name == "Circle"
  {
    World(
      Frame(map["Circle" := ShapeInfo("Circle", circle.icon, Proxy(0))], ["Circle"], Some("Circle"), [], None, 0, Placeholder()),
      map[0 := Wrapping(circle.service)], 1)
  }

  /** The host after "Circle" and then "Square" have arrived. */
  function TwoShapes(circle: ServiceRef, square: ServiceRef): World
    requires circle.name == "Circle" && square.name == "Square"
  {
    World(
      Frame(map["Circle" := ShapeInfo("Circle", circle.icon, Proxy(0)), "Square" := ShapeInfo("Square", square.icon, Proxy(1))],
            ["Circle", "Square"], Some("Circle"), [], None, 0, Placeholder()),
      map[0 := Wrapping(circle.service), 1 := Wrapping(square.service)], 2)
  }

  /** The host after a click at (50, 50) with "Circle" selected. */
  function CirclePlaced(circle: ServiceRef, square: ServiceRef): World
    requires circle.name == "Circle" && square.name == "Square"
  {
    var w := TwoShapes(circle, square);
    w.(frame := w.frame.(placed := [ShapeComponent(0, "Circle", Rect(23, 23, 54, 54))], nextSerial := 1))
  }

  /** "Circle" arriving at a new host becomes proxy 0, gets the first
      button and is selected. */
  lemma FirstArrival(circle: ServiceRef)
    requires circle.name == "Circle"
    ensures AddingService(NewWorld(), ACTIVE, circle) == Adding(OneShape(circle), 0)
  {
    assert Accepting(ACTIVE);
    var f := AddShape(NewFrame(), "Circle", circle.icon, Proxy(0));
    assert f.toolbar == ["Circle"];
  }

  /** "Square" arriving next becomes proxy 1 and gets the second button,
      leaving "Circle" selected. */
  lemma SecondArrival(circle: ServiceRef, square: ServiceRef)
    requires circle.name == "Circle" && square.name == "Square"
    ensures AddingService(OneShape(circle), ACTIVE, square) == Adding(TwoShapes(circle, square), 1)
  {
    assert Accepting(ACTIVE);
    var f := AddShape(OneShape(circle).frame, "Square", square.icon, Proxy(1));
    assert f.toolbar == ["Circle", "Square"];
  }

  /** A click at (50, 50) with "Circle" selected on an empty canvas places
      one Circle component in the 54x54 box around the click. */
  lemma ClickPlacesCircle(w: World)
    requires w.frame.selected == Some("Circle") && w.frame.placed == [] && w.frame.nextSerial == 0
    ensures HostStep(w, User(Click(Point(50, 50), true))).frame
              == w.frame.(placed := [ShapeComponent(0, "Circle", Rect(23, 23, 54, 54))], nextSerial := 1)
  {
    WrapInRange(50 - 27);
  }

  /** Removing "Circle" from a frame with buttons "Circle" and "Square"
      and "Circle" selected hands the selection to "Square". */
  lemma RemoveCircleSelectsSquare(f: Frame)
    requires f.toolbar == ["Circle", "Square"] && f.selected == Some("Circle")
    ensures RemoveShape(f, "Circle").selected == Some("Square")
    ensures RemoveShape(f, "Circle").shapes == f.shapes - {"Circle"}
  {
    assert FirstIndex(f.toolbar, "Circle") == 0;
    assert RemoveFirst(f.toolbar, "Circle") == ["Square"];
  }

  /** Removing "Circle" after the click: its component stays, "Square"
      takes the selection, and "Circle" resolves to the placeholder while
      "Square" still resolves to its proxy. */
  lemma CircleDeparts(circle: ServiceRef, square: ServiceRef)
    requires circle.name == "Circle" && square.name == "Square"
    ensures var w3 := CirclePlaced(circle, square);
      var w4 := RemovedService(w3, ACTIVE, circle, 0);
      && w4.frame.placed == w3.frame.placed
      && w4.frame.selected == Some("Square")
      && GetShape(w4.frame, "Circle") == DefaultPlaceholder
      && GetShape(w4.frame, "Square") == Proxy(1)
      && Resolvable(w4.frame, w4.proxies)
  {
    assert Accepting(ACTIVE);
    var w3 := CirclePlaced(circle, square);
    RemoveCircleSelectsSquare(w3.frame);
    RemovedServiceKeepsResolvable(w3, ACTIVE, circle, 0);
  }

  /** A departure leaves every remaining name resolvable: the proxy it
      disposes keeps its identity in the tracker. */
  lemma RemovedServiceKeepsResolvable(w: World, state: bv32, ref: ServiceRef, svc: nat)
    requires Resolvable(w.frame, w.proxies) && svc in w.proxies
    ensures var r := RemovedService(w, state, ref, svc);
      Resolvable(r.frame, r.proxies)
  {
  }

  /** Removing "Circle" while the framework is only resolved: the gate
      keeps the frame as it was, so "Circle" stays registered to proxy 0,
      but the proxy is disposed, and the placed component paints the
      placeholder instead of the departed provider's shape. */
  lemma ClosedGateDepartureKeepsBinding(circle: ServiceRef, square: ServiceRef, resource: Option<Image>)
    requires circle.name == "Circle" && square.name == "Square"
    ensures var w3 := CirclePlaced(circle, square);
      var w4 := RemovedService(w3, RESOLVED, circle, 0);
      && w4.frame == w3.frame
      && GetShape(w4.frame, "Circle") == Proxy(0)
      && !w4.proxies[0].Delegates()
      && Resolvable(w4.frame, w4.proxies)
      && var r := PaintComponent(w4.frame, w4.proxies, w4.frame.placed[0], resource);
      && !r.drawing.Delegated?
      && (r.drawing.PlaceholderIcon? || r.drawing.RedBlock?)
  {
    assert !Accepting(RESOLVED);
    var w3 := CirclePlaced(circle, square);
    RemovedServiceKeepsResolvable(w3, RESOLVED, circle, 0);
  }

  /** The scenario of registering "Circle" then "Square", clicking at
      (50, 50) and removing "Circle": Circle is selected first; the click
      places a Circle component in the box (23, 23, 54, 54); after the
      removal the component is still there, the selection has moved to
      "Square", and "Circle" resolves to the placeholder. */
  lemma CircleSquareScenario(circle: ServiceRef, square: ServiceRef)
    requires circle.name == "Circle" && square.name == "Square"
    ensures
      var a1 := AddingService(NewWorld(), ACTIVE, circle);
      var a2 := AddingService(a1.world, ACTIVE, square);
      var w3 := HostStep(a2.world, User(Click(Point(50, 50), true)));
      var w4 := HostStep(w3, Notify(Departure(ACTIVE, circle, a1.proxy)));
      && a2.world.frame.selected == Some("Circle")
      && w3.frame.placed == [ShapeComponent(0, "Circle", Rect(23, 23, 54, 54))]
      && w4.frame.placed == w3.frame.placed
      && w4.frame.selected == Some("Square")
      && GetShape(w4.frame, "Circle") == DefaultPlaceholder
  {
    FirstArrival(circle);
    SecondArrival(circle, square);
    var a2 := AddingService(OneShape(circle), ACTIVE, square);
    assert a2.world == TwoShapes(circle, square);
    ClickPlacesCircle(a2.world);
    var w3 := HostStep(a2.world, User(Click(Point(50, 50), true)));
    assert w3 == CirclePlaced(circle, square);
    CircleDeparts(circle, square);
    assert 0 in w3.proxies;
    DepartureOfTracked(w3, ACTIVE, circle, 0);
  }

  /** A departure of a proxy the tracker created is handled by
      `removedService`. */
  lemma DepartureOfTracked(w: World, state: bv32, ref: ServiceRef, svc: nat)
    requires svc in w.proxies
    ensures HostStep(w, Notify(Departure(state, ref, svc))) == RemovedService(w, state, ref, svc)
  {
  }
}
