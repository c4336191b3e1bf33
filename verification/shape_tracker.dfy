/** The service tracker that feeds the paint frame. Each shape service that
    appears is wrapped in a new proxy and registered with the frame; a
    modified service is removed and registered again; a removed service is
    unregistered and its proxy disposed. Notifications are processed only
    while the framework is starting or active, and errors raised while
    processing are printed and swallowed. */
module ShapeTracker {
  import opened JavaLang
  import opened DefaultShapes
  import opened PaintFrame

  /** A shape service's reference, registered the way the shape providers
      do it: a `String` under the name property and an icon under the icon
      property. `service` is the provider's shape object. */
  datatype ServiceRef = ServiceRef(name: string, icon: Image, service: Capability)

  /** The two service properties the tracker reads. */
  datatype PropertyKey = NameProperty | IconProperty

  /** A property value as `getProperty` returns it. */
  datatype PropertyValue = Text(text: string) | Picture(image: Image)

  /** `ref.getProperty(key)`. */
  function GetProperty(ref: ServiceRef, key: PropertyKey): PropertyValue {
    match key
    case NameProperty => Text(ref.name)
    case IconProperty => Picture(ref.icon)
  }

  /** The cast `(String) value`. */
  function AsString(v: PropertyValue): (r: Result<string>)
    ensures r.Normal? <==> v.Text?
    ensures r.Threw? ==> r.exception == ClassCastException
  {
    match v
    case Text(s) => Normal(s)
    case Picture(_) => Threw(ClassCastException)
  }

  /** The cast `(Icon) value`. */
  function AsIcon(v: PropertyValue): (r: Result<Image>)
    ensures r.Normal? <==> v.Picture?
    ensures r.Threw? ==> r.exception == ClassCastException
  {
    match v
    case Picture(i) => Normal(i)
    case Text(_) => Threw(ClassCastException)
  }

  /** The three notification kinds. */
  datatype Action = Added | Modified | Removed

  /** OSGi bundle state bits (OSGi Core specification, `Bundle` interface). */
  const UNINSTALLED: bv32 := 0x01
  const INSTALLED: bv32 := 0x02
  const RESOLVED: bv32 := 0x04
  const STARTING: bv32 := 0x08
  const STOPPING: bv32 := 0x10
  const ACTIVE: bv32 := 0x20

  /** The tracker's gate on the system bundle's state:
      `(state & (STARTING | ACTIVE)) != 0`. */
  predicate Accepting(state: bv32) {
    state & (STARTING | ACTIVE) != 0
  }

  /** Of the six bundle states, the gate lets notifications through in
      exactly two: while the framework is starting and while it is active. */
  lemma AcceptingExactlyStartingOrActive(state: bv32)
    requires state in {UNINSTALLED, INSTALLED, RESOLVED, STARTING, STOPPING, ACTIVE}
    ensures Accepting(state) <==> state == STARTING || state == ACTIVE
  {
  }

  /** What processing a notification did to the frame, and the exception
      that cut it short, if any. Effects made before the exception stay. */
  datatype Processed = Processed(frame: Frame, thrown: Option<Exception>)

  /** `processShape(action, ref, shape)`, reading the icon from the property
      `iconKey`. The name is read once and used by both halves of a
      modification; a modification is a removal that falls through to an
      addition. */
  function Process(f: Frame, action: Action, ref: ServiceRef, shape: ShapeRef, iconKey: PropertyKey): (r: Processed)
    ensures action == Removed ==> r == Processed(RemoveShape(f, ref.name), None)
    ensures action != Removed && iconKey == IconProperty ==>
              r == Processed(AddShape(if action == Modified then RemoveShape(f, ref.name) else f, ref.name, ref.icon, shape), None)
    ensures action != Removed && iconKey == NameProperty ==>
              r == Processed(if action == Modified then RemoveShape(f, ref.name) else f, Some(ClassCastException))
  {
    match AsString(GetProperty(ref, NameProperty))
    case Threw(e) => Processed(f, Some(e))
    case Normal(name) =>
      var before := if action == Modified then RemoveShape(f, name) else f;
      if action == Removed then Processed(RemoveShape(f, name), None)
      else
        match AsIcon(GetProperty(ref, iconKey))
        case Threw(e) => Processed(before, Some(e))
        case Normal(icon) => Processed(AddShape(before, name, icon, shape), None)
  }

  /** `processShape` as written reads the icon from the NAME property, which
      holds a `String`: the `(Icon)` cast throws before `addShape` is
      reached. An addition changes nothing, and a modification only
      removes. */
  function ProcessShapeAsWritten(f: Frame, action: Action, ref: ServiceRef, shape: ShapeRef): (r: Processed)
    ensures action == Added ==> r == Processed(f, Some(ClassCastException))
    ensures action == Modified ==> r == Processed(RemoveShape(f, ref.name), Some(ClassCastException))
    ensures action == Removed ==> r == Processed(RemoveShape(f, ref.name), None)
  {
    Process(f, action, ref, shape, NameProperty)
  }

  /** `processShape` reading the icon from the icon property: an addition
      registers the shape once, a removal unregisters it once, and a
      modification is exactly a removal followed by an addition of the same
      shape under the same name. Nothing is thrown. */
  function ProcessShape(f: Frame, action: Action, ref: ServiceRef, shape: ShapeRef): (r: Processed)
    ensures r.thrown.None?
    ensures action == Added ==> r.frame == AddShape(f, ref.name, ref.icon, shape)
    ensures action == Modified ==> r.frame == AddShape(RemoveShape(f, ref.name), ref.name, ref.icon, shape)
    ensures action == Removed ==> r.frame == RemoveShape(f, ref.name)
  {
    Process(f, action, ref, shape, IconProperty)
  }

  /** `processShapeOnEventThread`: nothing happens unless the framework is
      starting or active; otherwise the notification is processed (on the
      event thread, sequentially) and any exception is swallowed, keeping
      whatever was done before it. */
  function ProcessShapeOnEventThread(f: Frame, state: bv32, action: Action, ref: ServiceRef, shape: ShapeRef, iconKey: PropertyKey): (r: Frame)
    ensures !Accepting(state) ==> r == f
    ensures Accepting(state) ==> r == Process(f, action, ref, shape, iconKey).frame
  {
    if !Accepting(state) then f
    else
      var processed := Process(f, action, ref, shape, iconKey);
      processed.frame
  }

  /** The frame, the proxies the tracker has created (by identity) and the
      next identity to hand out. */
  datatype World = World(frame: Frame, proxies: map<nat, DefaultShape>, nextProxy: nat)

  /** The frame's invariant holds, every registered shape is a proxy the
      tracker created (possibly disposed), and proxy identities are fresh. */
  ghost predicate WorldInv(w: World) {
    && Inv(w.frame)
    && (forall n :: n in w.frame.shapes ==> w.frame.shapes[n].shape.Proxy? && w.frame.shapes[n].shape.id in w.proxies)
    && (forall id :: id in w.proxies ==> id < w.nextProxy)
  }

  /** A host whose frame was just constructed and whose tracker tracks
      nothing yet. */
  function NewWorld(): (w: World)
    ensures w.frame == NewFrame() && w.proxies == map[] && w.nextProxy == 0
    ensures WorldInv(w)
  {
    World(NewFrame(), map[], 0)
  }

  /** `addingService(ref)` and the proxy it returns. */
  datatype Adding = Adding(world: World, proxy: nat)

  /** `addingService(ref)`: wrap the service in a new proxy, register it
      under the reference's name, and return that same proxy to the
      tracker. Processing reads the icon from the icon property (the
      corrected `processShape`); `AddedIsDroppedAsWritten` shows what the
      name-property read does instead. */
  function AddingService(w: World, state: bv32, ref: ServiceRef): (r: Adding)
    ensures WorldInv(w) ==> r.proxy !in w.proxies
    ensures r.world.proxies == w.proxies[r.proxy := Wrapping(ref.service)]
    ensures Accepting(state) ==> r.world.frame == AddShape(w.frame, ref.name, ref.icon, Proxy(r.proxy))
    ensures Accepting(state) ==> GetShape(r.world.frame, ref.name) == Proxy(r.proxy)
    ensures !Accepting(state) ==> r.world.frame == w.frame
    ensures r.proxy == w.nextProxy && r.world.nextProxy == w.nextProxy + 1
  {
    var id := w.nextProxy;
    var frame := ProcessShapeOnEventThread(w.frame, state, Added, ref, Proxy(id), IconProperty);
    Adding(World(frame, w.proxies[id := Wrapping(ref.service)], w.nextProxy + 1), id)
  }

  /** `modifiedService(ref, svc)`: re-register the tracked proxy `svc` under
      the reference's current name, with the icon read from the icon
      property (the corrected `processShape`). */
  function ModifiedService(w: World, state: bv32, ref: ServiceRef, svc: nat): (r: World)
    ensures r.proxies == w.proxies && r.nextProxy == w.nextProxy
    ensures Accepting(state) ==> r.frame == AddShape(RemoveShape(w.frame, ref.name), ref.name, ref.icon, Proxy(svc))
    ensures !Accepting(state) ==> r.frame == w.frame
  {
    w.(frame := ProcessShapeOnEventThread(w.frame, state, Modified, ref, Proxy(svc), IconProperty))
  }

  /** A modification whose reference now carries another name re-registers
      the proxy under the new name and leaves the old name, with its button,
      bound as before: what is removed is whatever the current name held. */
  lemma RenameKeepsOldBinding(w: World, state: bv32, ref: ServiceRef, svc: nat, former: string)
    requires Accepting(state) && former != ref.name
    ensures var r := ModifiedService(w, state, ref, svc);
      && GetShape(r.frame, ref.name) == Proxy(svc)
      && GetShape(r.frame, former) == GetShape(w.frame, former)
      && multiset(r.frame.toolbar)[former] == multiset(w.frame.toolbar)[former]
  {
    ReplaceKeepsOtherNames(w.frame, ref.name, ref.icon, Proxy(svc), former);
  }

  /** `removedService(ref, svc)`: unregister the reference's name, then
      dispose the proxy, whether or not the gate let the removal through.
      A removal reads no icon, so it is the same as written and corrected. */
  function RemovedService(w: World, state: bv32, ref: ServiceRef, svc: nat): (r: World)
    requires svc in w.proxies
    ensures Accepting(state) ==> r.frame == RemoveShape(w.frame, ref.name)
    ensures !Accepting(state) ==> r.frame == w.frame
    ensures r.proxies == w.proxies[svc := Dispose(w.proxies[svc])]
    ensures svc in r.proxies && !r.proxies[svc].Delegates()
    ensures r.nextProxy == w.nextProxy
  {
    var frame := ProcessShapeOnEventThread(w.frame, state, Removed, ref, Proxy(svc), IconProperty);
    World(frame, w.proxies[svc := Dispose(w.proxies[svc])], w.nextProxy)
  }

  /** Registering a tracked proxy keeps the host invariant. */
  lemma RegisterKeepsWorldInv(w: World, name: string, icon: Image, svc: nat)
    requires WorldInv(w) && svc in w.proxies
    ensures WorldInv(w.(frame := AddShape(w.frame, name, icon, Proxy(svc))))
  {
    var f := AddShape(w.frame, name, icon, Proxy(svc));
    AddShapeKeepsInv(w.frame, name, icon, Proxy(svc));
    forall n | n in f.shapes
      ensures f.shapes[n].shape.Proxy? && f.shapes[n].shape.id in w.proxies
    {
      if n != name {
        assert f.shapes[n] == w.frame.shapes[n];
      }
    }
  }

  /** Unregistering a name keeps the host invariant. */
  lemma UnregisterKeepsWorldInv(w: World, name: string)
    requires WorldInv(w)
    ensures WorldInv(w.(frame := RemoveShape(w.frame, name)))
  {
    RemoveShapeKeepsInv(w.frame, name);
  }

  /** Each notification keeps the host invariant (a modification or removal
      names a proxy the tracker created). */
  lemma AddingServiceKeepsWorldInv(w: World, state: bv32, ref: ServiceRef)
    requires WorldInv(w)
    ensures WorldInv(AddingService(w, state, ref).world)
  {
    var a := AddingService(w, state, ref);
    var grown := w.(proxies := a.world.proxies, nextProxy := a.world.nextProxy);
    assert WorldInv(grown);
    if Accepting(state) {
      RegisterKeepsWorldInv(grown, ref.name, ref.icon, a.proxy);
    }
  }

  lemma ModifiedServiceKeepsWorldInv(w: World, state: bv32, ref: ServiceRef, svc: nat)
    requires WorldInv(w) && svc in w.proxies
    ensures WorldInv(ModifiedService(w, state, ref, svc))
  {
    if Accepting(state) {
      var removed := w.(frame := RemoveShape(w.frame, ref.name));
      UnregisterKeepsWorldInv(w, ref.name);
      RegisterKeepsWorldInv(removed, ref.name, ref.icon, svc);
    }
  }

  lemma RemovedServiceKeepsWorldInv(w: World, state: bv32, ref: ServiceRef, svc: nat)
    requires WorldInv(w) && svc in w.proxies
    ensures WorldInv(RemovedService(w, state, ref, svc))
  {
    if Accepting(state) {
      UnregisterKeepsWorldInv(w, ref.name);
    }
  }

  /** As written, a shape service that appears is never registered. Its
      name property holds the `String` "Circle", so reading the icon from
      that property throws `ClassCastException`, which is swallowed: the
      frame stays empty. Read from the icon property, the same
      notification registers the proxy. */
  lemma AddedIsDroppedAsWritten(ref: ServiceRef)
    requires ref.name == "Circle"
    ensures var f := ProcessShapeOnEventThread(NewFrame(), ACTIVE, Added, ref, Proxy(0), NameProperty);
      && f == NewFrame()
      && GetShape(f, "Circle") == DefaultPlaceholder && f.toolbar == [] && f.selected.None?
    ensures var f := ProcessShapeOnEventThread(NewFrame(), ACTIVE, Added, ref, Proxy(0), IconProperty);
      && GetShape(f, "Circle") == Proxy(0) && f.toolbar == ["Circle"] && f.selected == Some("Circle")
  {
    assert Accepting(ACTIVE);
  }
}
