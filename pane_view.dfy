/** The pane view of a price-range annotation: the cached pixel projection of
    its two anchors and the hit-tester that classifies a pointer position as
    one of eight resize handles, the body, or nothing. */
module PaneView {
  import opened Wrappers
  import opened JsMath
  import opened ChartHost

  const HandleWidth: real := 10.0
  const HandleHeight: real := 10.0
  /** Half-width of the left/right edge bands. */
  const HandleRadiusH: real := HandleWidth / 2.0
  /** Half-height of the top/bottom edge bands. */
  const HandleRadiusV: real := HandleHeight / 2.0
  /** Radius of the corner discs. */
  const CornerRadius: real := HandleWidth

  /** The hit targets, with the body as the ninth. */
  datatype HandleId =
    | Left | Right | Top | Bottom
    | TopLeft | TopRight | BottomLeft | BottomRight
    | Body

  /** The `externalId` string the hit-tester reports for each target. */
  function ExternalId(h: HandleId): string
  {
    match h
    case Left => "left-handle"
    case Right => "right-handle"
    case Top => "top-handle"
    case Bottom => "bottom-handle"
    case TopLeft => "top-left-handle"
    case TopRight => "top-right-handle"
    case BottomLeft => "bottom-left-handle"
    case BottomRight => "bottom-right-handle"
    case Body => "body"
  }

  /** Distinct targets report distinct ids, so the interaction code can
      recover the target from the id alone. */
  lemma ExternalIdInjective(g: HandleId, h: HandleId)
    ensures ExternalId(g) == ExternalId(h) ==> g == h
  {
    if ExternalId(g) == ExternalId(h) {
      assert ExternalId(g)[0] == ExternalId(h)[0];
      assert |ExternalId(g)| == |ExternalId(h)|;
      match g
      case TopLeft => assert ExternalId(g)[4] == ExternalId(h)[4];
      case TopRight => assert ExternalId(g)[4] == ExternalId(h)[4];
      case BottomLeft => assert ExternalId(g)[7] == ExternalId(h)[7];
      case BottomRight => assert ExternalId(g)[7] == ExternalId(h)[7];
      case _ =>
    }
  }

  /** A projected anchor: either coordinate may be unavailable. */
  datatype ViewPoint = ViewPoint(x: Option<real>, y: Option<real>)

  /** The projected rectangle normalised to its extremes. */
  datatype Box = Box(minX: real, maxX: real, minY: real, maxY: real)
  {
    predicate Valid() { minX <= maxX && minY <= maxY }
  }

  /** The normalised rectangle of two projected anchors, or `None` when any of
      the four coordinates is missing. */
  function Normalize(p1: ViewPoint, p2: ViewPoint): (r: Option<Box>)
    ensures r.Some? <==> p1.x.Some? && p1.y.Some? && p2.x.Some? && p2.y.Some?
    ensures r.Some? ==> r.value.Valid()
    ensures r.Some? ==>
              && r.value.minX <= p1.x.value <= r.value.maxX && r.value.minX <= p2.x.value <= r.value.maxX
              && r.value.minY <= p1.y.value <= r.value.maxY && r.value.minY <= p2.y.value <= r.value.maxY
              && (r.value.minX == p1.x.value || r.value.minX == p2.x.value)
              && (r.value.maxX == p1.x.value || r.value.maxX == p2.x.value)
              && (r.value.minY == p1.y.value || r.value.minY == p2.y.value)
              && (r.value.maxY == p1.y.value || r.value.maxY == p2.y.value)
  {
    if p1.x.None? || p1.y.None? || p2.x.None? || p2.y.None? then None
    else Some(Box(Min(p1.x.value, p2.x.value), Max(p1.x.value, p2.x.value),
                  Min(p1.y.value, p2.y.value), Max(p1.y.value, p2.y.value)))
  }

  /** `Math.hypot(dx, dy) < CornerRadius`, compared on squares. */
  predicate WithinCorner(dx: real, dy: real)
  {
    dx * dx + dy * dy < CornerRadius * CornerRadius
  }

  /** The body test, also the whole test of an idle annotation. */
  function BodyHit(b: Box, x: real, y: real): Option<HandleId>
  {
    if x >= b.minX && x <= b.maxX && y >= b.minY && y <= b.maxY then Some(Body) else None
  }

  /** The hit-tester's decision chain on a normalised rectangle. `active` is
      "selected or hovered": only then are the handles tested, edge bands
      first, then corner discs, then the body. */
  function Classify(b: Box, active: bool, x: real, y: real): (r: Option<HandleId>)
    ensures r.Some? ==> Live(r.value, active)
    ensures r == Some(Body) ==> InRegion(b, Body, x, y)
    ensures !active ==> (r.Some? <==> InRegion(b, Body, x, y))
  {
    if !active then BodyHit(b, x, y)
    else if x >= b.minX - HandleRadiusH && x <= b.minX + HandleRadiusH && y >= b.minY && y <= b.maxY then Some(Left)
    else if x >= b.maxX - HandleRadiusH && x <= b.maxX + HandleRadiusH && y >= b.minY && y <= b.maxY then Some(Right)
    else if y >= b.minY - HandleRadiusV && y <= b.minY + HandleRadiusV && x >= b.minX && x <= b.maxX then Some(Top)
    else if y >= b.maxY - HandleRadiusV && y <= b.maxY + HandleRadiusV && x >= b.minX && x <= b.maxX then Some(Bottom)
    else if WithinCorner(x - b.minX, y - b.minY) then Some(TopLeft)
    else if WithinCorner(x - b.maxX, y - b.minY) then Some(TopRight)
    else if WithinCorner(x - b.minX, y - b.maxY) then Some(BottomLeft)
    else if WithinCorner(x - b.maxX, y - b.maxY) then Some(BottomRight)
    else BodyHit(b, x, y)
  }

  /** `hitTest(x, y)` on the cached projections `p1`, `p2`. */
  function HitTest(p1: ViewPoint, p2: ViewPoint, active: bool, x: real, y: real): (r: Option<HandleId>)
    ensures Normalize(p1, p2).None? ==> r.None?
    ensures r.Some? ==> Live(r.value, active)
  {
    match Normalize(p1, p2)
    case None => None
    case Some(b) => Classify(b, active, x, y)
  }

  // ---------------------------------------------------------------------
  // A reference description of the targets, independent of the test order

  function Abs(d: real): real { if d < 0.0 then -d else d }

  /** The region each target covers, in terms of distances. */
  predicate InRegion(b: Box, h: HandleId, x: real, y: real)
  {
    match h
    case Left => Abs(x - b.minX) <= HandleRadiusH && b.minY <= y <= b.maxY
    case Right => Abs(x - b.maxX) <= HandleRadiusH && b.minY <= y <= b.maxY
    case Top => Abs(y - b.minY) <= HandleRadiusV && b.minX <= x <= b.maxX
    case Bottom => Abs(y - b.maxY) <= HandleRadiusV && b.minX <= x <= b.maxX
    case TopLeft => WithinCorner(x - b.minX, y - b.minY)
    case TopRight => WithinCorner(x - b.maxX, y - b.minY)
    case BottomLeft => WithinCorner(x - b.minX, y - b.maxY)
    case BottomRight => WithinCorner(x - b.maxX, y - b.maxY)
    case Body => b.minX <= x <= b.maxX && b.minY <= y <= b.maxY
  }

  /** Position in the test order; lower wins. */
  function Priority(h: HandleId): nat
  {
    match h
    case Left => 0
    case Right => 1
    case Top => 2
    case Bottom => 3
    case TopLeft => 4
    case TopRight => 5
    case BottomLeft => 6
    case BottomRight => 7
    case Body => 8
  }

  /** Whether a target can be hit at all: handles only on an active annotation. */
  predicate Live(h: HandleId, active: bool) { active || h == Body }

  predicate IsEdge(h: HandleId) { h == Left || h == Right || h == Top || h == Bottom }

  predicate IsCorner(h: HandleId)
  {
    h == TopLeft || h == TopRight || h == BottomLeft || h == BottomRight
  }

  /** The classifier returns exactly the highest-priority live region that
      contains the point, and nothing when no live region does. */
  lemma ClassifyIsFirstLiveRegion(b: Box, active: bool, x: real, y: real)
    ensures Classify(b, active, x, y).None? <==>
              forall h :: Live(h, active) ==> !InRegion(b, h, x, y)
    ensures Classify(b, active, x, y).Some? ==>
              var h := Classify(b, active, x, y).value;
              && Live(h, active) && InRegion(b, h, x, y)
              && forall g :: Live(g, active) && InRegion(b, g, x, y) ==> Priority(h) <= Priority(g)
  {
    var r := Classify(b, active, x, y);
    forall g | Live(g, active) && InRegion(b, g, x, y)
      ensures r.Some? && Priority(r.value) <= Priority(g)
    {
      match g
      case Left =>
      case Right =>
      case Top =>
      case Bottom =>
      case TopLeft =>
      case TopRight =>
      case BottomLeft =>
      case BottomRight =>
      case Body =>
    }
    if r.Some? {
      assert Live(r.value, active) && InRegion(b, r.value, x, y);
    }
  }

  /** An idle annotation is hit exactly on its body, and never on a handle. */
  lemma IdleHitsOnlyBody(b: Box, x: real, y: real)
    ensures Classify(b, false, x, y) == if InRegion(b, Body, x, y) then Some(Body) else None
  {
  }

  /** At the exact top-left corner the left edge band wins over the corner disc. */
  lemma ExactCornerIsLeftEdge(b: Box)
    requires b.Valid()
    ensures Classify(b, true, b.minX, b.minY) == Some(Left)
  {
  }

  /** A corner handle is reported only for points outside every edge band. */
  lemma CornerOnlyOutsideEdgeBands(b: Box, active: bool, x: real, y: real)
    requires Classify(b, active, x, y).Some? && IsCorner(Classify(b, active, x, y).value)
    ensures forall e :: IsEdge(e) ==> !InRegion(b, e, x, y)
  {
    ClassifyIsFirstLiveRegion(b, active, x, y);
    forall e | IsEdge(e) ensures !InRegion(b, e, x, y) {
      assert Live(e, active) && Priority(e) < Priority(Classify(b, active, x, y).value);
    }
  }

  /** A squared distance under the corner radius bounds each offset. */
  lemma WithinCornerBounds(dx: real, dy: real)
    requires WithinCorner(dx, dy)
    ensures -CornerRadius < dx < CornerRadius && -CornerRadius < dy < CornerRadius
  {
  }

  /** Every hit lies strictly inside the rectangle grown by the corner radius
      on each side. */
  lemma HitWithinGrownBox(b: Box, active: bool, x: real, y: real)
    requires b.Valid() && Classify(b, active, x, y).Some?
    ensures b.minX - CornerRadius < x < b.maxX + CornerRadius
    ensures b.minY - CornerRadius < y < b.maxY + CornerRadius
  {
    match Classify(b, active, x, y).value
    case TopLeft => WithinCornerBounds(x - b.minX, y - b.minY);
    case TopRight => WithinCornerBounds(x - b.maxX, y - b.minY);
    case BottomLeft => WithinCornerBounds(x - b.minX, y - b.maxY);
    case BottomRight => WithinCornerBounds(x - b.maxX, y - b.maxY);
    case _ =>
  }

  /** On an active annotation, a point of the rectangle farther than the band
      half-width from every edge and outside every corner disc is the body. */
  lemma ActiveInteriorIsBody(b: Box, x: real, y: real)
    requires b.minX + HandleRadiusH < x < b.maxX - HandleRadiusH
    requires b.minY + HandleRadiusV < y < b.maxY - HandleRadiusV
    requires forall c :: IsCorner(c) ==> !InRegion(b, c, x, y)
    ensures Classify(b, true, x, y) == Some(Body)
  {
    assert !InRegion(b, TopLeft, x, y) && !InRegion(b, TopRight, x, y);
    assert !InRegion(b, BottomLeft, x, y) && !InRegion(b, BottomRight, x, y);
  }

  /** The corner discs reach into the rectangle: six pixels from both the left
      and the top edge is still the top-left handle, not the body. */
  lemma CornerDiscReachesInside()
    ensures Classify(Box(0.0, 100.0, 0.0, 100.0), true, 6.0, 6.0) == Some(TopLeft)
  {
  }

  // ---------------------------------------------------------------------
  // Properties of hitTest on the cached projections

  /** With any cached coordinate missing, nothing is ever hit. */
  lemma MissingCoordinateIsInert(p1: ViewPoint, p2: ViewPoint, active: bool, x: real, y: real)
    requires p1.x.None? || p1.y.None? || p2.x.None? || p2.y.None?
    ensures HitTest(p1, p2, active, x, y).None?
  {
  }

  /** hitTest sees only the extremes: swapping the anchors, or only their x
      coordinates, or only their y coordinates, changes nothing. */
  lemma HitTestSymmetric(p1: ViewPoint, p2: ViewPoint, active: bool, x: real, y: real)
    ensures HitTest(p2, p1, active, x, y) == HitTest(p1, p2, active, x, y)
    ensures HitTest(ViewPoint(p2.x, p1.y), ViewPoint(p1.x, p2.y), active, x, y) == HitTest(p1, p2, active, x, y)
    ensures HitTest(ViewPoint(p1.x, p2.y), ViewPoint(p2.x, p1.y), active, x, y) == HitTest(p1, p2, active, x, y)
  {
  }

  /** Every hit lies strictly inside the projected rectangle grown by the
      corner radius on each side. */
  lemma HitTestBounds(p1: ViewPoint, p2: ViewPoint, active: bool, x: real, y: real)
    requires HitTest(p1, p2, active, x, y).Some?
    ensures var b := Normalize(p1, p2).value;
            && b.minX - CornerRadius < x < b.maxX + CornerRadius
            && b.minY - CornerRadius < y < b.maxY + CornerRadius
  {
    HitWithinGrownBox(Normalize(p1, p2).value, active, x, y);
  }

  /** The projection of an anchor: x from its time, y from its price. */
  function Project(host: Host, a: Point): (v: ViewPoint)
    ensures v.x == host.timeToCoordinate(a.time)
    ensures v.y == host.priceToCoordinate(a.price)
  {
    ViewPoint(host.timeToCoordinate(a.time), host.priceToCoordinate(a.price))
  }

  /** An anchor the host cannot project makes the annotation inert. */
  lemma UnprojectableIsInert(host: Host, a1: Point, a2: Point, active: bool, x: real, y: real)
    requires host.timeToCoordinate(a1.time).None? || host.priceToCoordinate(a1.price).None?
          || host.timeToCoordinate(a2.time).None? || host.priceToCoordinate(a2.price).None?
    ensures HitTest(Project(host, a1), Project(host, a2), active, x, y).None?
  {
    MissingCoordinateIsInert(Project(host, a1), Project(host, a2), active, x, y);
  }

  /** The view's projection cache. */
  class PricerangesPaneView {
    var p1: ViewPoint
    var p2: ViewPoint

    constructor ()
      ensures p1 == ViewPoint(None, None) && p2 == ViewPoint(None, None)
    {
      p1 := ViewPoint(None, None);
      p2 := ViewPoint(None, None);
    }

    /** Re-project the owning annotation's anchors `a1`, `a2`. */
    method Update(host: Host, a1: Point, a2: Point)
      modifies this
      ensures p1 == Project(host, a1) && p2 == Project(host, a2)
    {
      var y1 := host.priceToCoordinate(a1.price);
      var y2 := host.priceToCoordinate(a2.price);
      var x1 := host.timeToCoordinate(a1.time);
      var x2 := host.timeToCoordinate(a2.time);
      p1 := ViewPoint(x1, y1);
      p2 := ViewPoint(x2, y2);
    }
  }
}
