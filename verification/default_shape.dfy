/** The shape proxy of the paint host. One type plays two roles: while it
    wraps a provider's shape it forwards drawing to it; once disposed, or
    when built without a shape, it is a placeholder that draws a default
    icon, loaded on first use and cached, or a red block when the icon
    resource cannot be found. */
module DefaultShapes {
  import opened JavaLang
  import opened Geometry

  /** A drawable shape published by a provider (`SimpleShape`), by identity. */
  datatype Capability = Capability(id: nat)

  /** A loaded image, by identity. */
  datatype Image = Image(id: nat)

  /** The proxy's two fields: the wrapped shape and the cached icon. */
  datatype DefaultShape = DefaultShape(shape: Option<Capability>, icon: Option<Image>)
  {
    /** Drawing forwards to a provider's shape. */
    predicate Delegates() {
      shape.Some?
    }
  }

  /** What one call of `draw` puts on the surface. */
  datatype Drawing =
    | Delegated(target: Capability, at: Point)
    | PlaceholderIcon(image: Image, at: Point)
    | RedBlock(area: Rect)

  /** The drawing a call produced and the proxy's state after it. */
  datatype DrawResult = DrawResult(drawing: Drawing, after: DefaultShape)

  /** Where the placeholder icon is painted, whatever the anchor. */
  const ICON_ORIGIN: Point := Point(0, 0)

  /** The fallback painted when the icon resource is missing. */
  const FALLBACK_BLOCK: Rect := Rect(0, 0, 60, 60)

  /** `new DefaultShape()`: a pure placeholder with nothing cached. */
  function Placeholder(): (d: DefaultShape)
    ensures !d.Delegates() && d.icon.None?
  {
    DefaultShape(None, None)
  }

  /** `new DefaultShape(shape)`: a proxy forwarding to `c`. */
  function Wrapping(c: Capability): (d: DefaultShape)
    ensures d.Delegates() && d.shape.value == c
    ensures d.icon.None?
  {
    DefaultShape(Some(c), None)
  }

  /** `dispose()`: forget the wrapped shape; the icon cache is kept. */
  function Dispose(d: DefaultShape): (r: DefaultShape)
    ensures !r.Delegates()
    ensures r.icon == d.icon
  {
    d.(shape := None)
  }

  /** `draw(g2, p)`. `resource` is what looking up the placeholder icon
      resource yields this time (`None` when it is missing, which makes the
      `ImageIcon` constructor throw); it is consulted only on the placeholder
      path with nothing cached. */
  function Draw(d: DefaultShape, p: Point, resource: Option<Image>): (r: DrawResult)
    ensures d.Delegates() ==> r.drawing == Delegated(d.shape.value, p) && r.after == d
    ensures !d.Delegates() ==> !r.drawing.Delegated?
    ensures r.drawing.RedBlock? <==> !d.Delegates() && d.icon.None? && resource.None?
    ensures r.drawing.PlaceholderIcon? ==> r.drawing.at == ICON_ORIGIN && r.after.icon == Some(r.drawing.image)
    ensures !d.Delegates() && d.icon.Some? ==> r.drawing == PlaceholderIcon(d.icon.value, ICON_ORIGIN)
    ensures !d.Delegates() && d.icon.None? && resource.Some? ==> r.drawing == PlaceholderIcon(resource.value, ICON_ORIGIN)
    ensures r.after.shape == d.shape
    ensures d.icon.Some? ==> r.after.icon == d.icon
  {
    if d.shape.Some? then
      DrawResult(Delegated(d.shape.value, p), d)
    else
      match d.icon
      case Some(i) => DrawResult(PlaceholderIcon(i, ICON_ORIGIN), d)
      case None =>
        match resource
        case Some(i) => DrawResult(PlaceholderIcon(i, ICON_ORIGIN), d.(icon := Some(i)))
        case None => DrawResult(RedBlock(FALLBACK_BLOCK), d)
  }

  /** Disposing twice is the same as disposing once. */
  lemma DisposeIdempotent(d: DefaultShape)
    ensures Dispose(Dispose(d)) == Dispose(d)
  {
  }

  /** After `dispose`, drawing takes the placeholder path: it never reaches
      the provider's shape again, whatever the anchor and the resource. */
  lemma DisposedNeverDelegates(d: DefaultShape, p: Point, resource: Option<Image>)
    ensures !Draw(Dispose(d), p, resource).drawing.Delegated?
    ensures Draw(Dispose(d), p, resource).after.shape.None?
  {
  }

  /** The placeholder path ignores the anchor: the icon (or the red block)
      lands at the origin wherever the shape was asked to be drawn. */
  lemma PlaceholderIgnoresAnchor(d: DefaultShape, p: Point, q: Point, resource: Option<Image>)
    requires !d.Delegates()
    ensures Draw(d, p, resource) == Draw(d, q, resource)
  {
  }

  /** The icon is loaded at most once: after a draw that painted the icon,
      later draws paint that same icon without consulting the resource. */
  lemma IconCachedAfterFirstLoad(d: DefaultShape, p: Point, q: Point, first: Option<Image>, later: Option<Image>)
    requires !d.Delegates()
    requires Draw(d, p, first).drawing.PlaceholderIcon?
    ensures Draw(Draw(d, p, first).after, q, later) == Draw(d, p, first)
  {
  }

  /** A failed load caches nothing, so the next draw tries the resource again
      and paints the icon once it is there. */
  lemma FailedLoadRetried(d: DefaultShape, p: Point, q: Point, i: Image)
    requires !d.Delegates() && d.icon.None?
    ensures Draw(d, p, None).drawing == RedBlock(FALLBACK_BLOCK)
    ensures Draw(d, p, None).after == d
    ensures Draw(Draw(d, p, None).after, q, Some(i)).drawing == PlaceholderIcon(i, ICON_ORIGIN)
  {
  }

  /** The result of drawing a proxy repeatedly, at the given anchors with the
      given resource lookups, from first to last. */
  function DrawAll(d: DefaultShape, calls: seq<(Point, Option<Image>)>): (r: seq<Drawing>)
    ensures |r| == |calls|
    decreases |calls|
  {
    if |calls| == 0 then []
    else
      var first := Draw(d, calls[0].0, calls[0].1);
      [first.drawing] + DrawAll(first.after, calls[1..])
  }

  /** The proxy's state after the given draws, first to last. */
  function After(d: DefaultShape, calls: seq<(Point, Option<Image>)>): DefaultShape
    decreases |calls|
  {
    if |calls| == 0 then d
    else
      var last := calls[|calls| - 1];
      Draw(After(d, calls[..|calls| - 1]), last.0, last.1).after
  }

  /** Drawing once and then the rest leaves the state that all the draws
      leave. */
  lemma {:induction false} AfterFirst(d: DefaultShape, calls: seq<(Point, Option<Image>)>)
    requires |calls| > 0
    ensures After(Draw(d, calls[0].0, calls[0].1).after, calls[1..]) == After(d, calls)
    decreases |calls|
  {
    var n := |calls|;
    if n == 1 {
      assert calls[1..] == [] && calls[..0] == [];
    } else {
      AfterFirst(d, calls[..n - 1]);
      assert calls[..n - 1][1..] == calls[1..][..n - 2];
      assert calls[1..][n - 2] == calls[n - 1];
    }
  }

  /** The `k`-th repeated draw is a single draw of the proxy in the state the
      draws before it left: each draw sees the icon cached by earlier ones. */
  lemma {:induction false} DrawAllThreadsState(d: DefaultShape, calls: seq<(Point, Option<Image>)>, k: nat)
    requires k < |calls|
    ensures DrawAll(d, calls)[k] == Draw(After(d, calls[..k]), calls[k].0, calls[k].1).drawing
    decreases |calls|
  {
    var first := Draw(d, calls[0].0, calls[0].1);
    assert DrawAll(d, calls) == [first.drawing] + DrawAll(first.after, calls[1..]);
    if k == 0 {
      assert calls[..0] == [];
    } else {
      DrawAllThreadsState(first.after, calls[1..], k - 1);
      AfterFirst(d, calls[..k]);
      assert calls[..k][1..] == calls[1..][..k - 1];
    }
  }

  /** A proxy that does not wrap a shape, such as the one built by the
      no-argument constructor, never delegates, however often it is drawn. */
  lemma {:induction false} PlaceholderNeverDelegates(d: DefaultShape, calls: seq<(Point, Option<Image>)>)
    requires !d.Delegates()
    ensures forall k :: 0 <= k < |calls| ==> !DrawAll(d, calls)[k].Delegated?
    decreases |calls|
  {
    if |calls| > 0 {
      var first := Draw(d, calls[0].0, calls[0].1);
      PlaceholderNeverDelegates(first.after, calls[1..]);
      assert DrawAll(d, calls) == [first.drawing] + DrawAll(first.after, calls[1..]);
    }
  }
}
