/** The interaction engine of the price-range annotation: per-annotation
    hover/selection/drag state, the process-wide selection, hover and
    sticky-resize slots, and the click, crosshair and mouse handlers that
    drive them. */
module PriceRanges {
  import opened Wrappers
  import opened JsMath
  import opened ChartHost
  import opened PaneView

  /** The targets a click can arm for a sticky resize: every one but the body. */
  type ResizeHandle = h: HandleId | h != Body witness Left

  /** Value of `_activePricePoint`: the anchor whose price a resize edits. */
  datatype PricePoint = P1 | P2

  /** The armed sticky resize: which annotation, and which handle. */
  datatype StickyPart = StickyPart(instance: Priceranges, part: ResizeHandle)

  /** The price range reported to the chart's autoscaler. */
  datatype PriceRange = PriceRange(minValue: real, maxValue: real)

  /** The two anchors of an annotation, as one value. */
  datatype Anchors = Anchors(p1: Point, p2: Point)

  /** Number of update requests a flag assignment issues. */
  function Changed(before: bool, after: bool): nat { if before == after then 0 else 1 }

  function Slot(p: Priceranges?): set<Priceranges> { if p == null then {} else {p} }

  // ---------------------------------------------------------------------
  // Which anchor components each handle governs

  /** Handles that move the left (minimum-time) edge. */
  predicate MovesMinTime(h: HandleId) { h == Left || h == TopLeft || h == BottomLeft }

  /** Handles that move the right (maximum-time) edge. */
  predicate MovesMaxTime(h: HandleId) { h == Right || h == TopRight || h == BottomRight }

  /** Handles whose price anchor is the one holding the maximum price. */
  predicate MovesMaxPrice(h: HandleId) { h == Top || h == TopLeft || h == TopRight }

  /** Handles whose price anchor is the one holding the minimum price. */
  predicate MovesMinPrice(h: HandleId) { h == Bottom || h == BottomLeft || h == BottomRight }

  function PriceOf(p1: Point, p2: Point, which: PricePoint): real
  {
    if which == P1 then p1.price else p2.price
  }

  /** `_activePricePoint` as set when a click arms `part`: the anchor holding
      the maximum price for top-side handles, the minimum for bottom-side
      handles, `p1` on a tie, and none for the left and right handles. */
  function ArmedPricePoint(part: ResizeHandle, p1: Point, p2: Point): (r: Option<PricePoint>)
    ensures MovesMaxPrice(part) ==>
              r.Some? && PriceOf(p1, p2, r.value) >= p1.price && PriceOf(p1, p2, r.value) >= p2.price
    ensures MovesMinPrice(part) ==>
              r.Some? && PriceOf(p1, p2, r.value) <= p1.price && PriceOf(p1, p2, r.value) <= p2.price
    ensures part == Left || part == Right ==> r.None?
    ensures r == Some(P2) ==> p1.price != p2.price
  {
    var currentMinPrice := Min(p1.price, p2.price);
    var currentMaxPrice := Max(p1.price, p2.price);
    match part
    case Top => if p1.price == currentMaxPrice then Some(P1) else Some(P2)
    case Bottom => if p1.price == currentMinPrice then Some(P1) else Some(P2)
    case TopLeft | TopRight => if p1.price == currentMaxPrice then Some(P1) else Some(P2)
    case BottomLeft | BottomRight => if p1.price == currentMinPrice then Some(P1) else Some(P2)
    case _ => None
  }

  /** Set the time of whichever anchor `onP1` designates. */
  function SetTime(a: Anchors, onP1: bool, time: int): Anchors
  {
    if onP1 then Anchors(a.p1.(time := time), a.p2) else Anchors(a.p1, a.p2.(time := time))
  }

  /** Set the price of the cached active anchor, if there is one. */
  function SetActivePrice(a: Anchors, active: Option<PricePoint>, price: real): Anchors
  {
    match active
    case None => a
    case Some(P1) => Anchors(a.p1.(price := price), a.p2)
    case Some(P2) => Anchors(a.p1, a.p2.(price := price))
  }

  /** The anchors after one sticky-resize move to the resolved `time` and
      `price`. The time anchor is chosen from the current extremes on every
      move; the price anchor is the one cached at arm time. */
  function StickyMove(a: Anchors, part: ResizeHandle, active: Option<PricePoint>,
                      time: int, price: real): (r: Anchors)
    ensures r.p1.time == a.p1.time || r.p2.time == a.p2.time
    ensures r.p1.price == a.p1.price || r.p2.price == a.p2.price
    ensures r.p1.time in {a.p1.time, time} && r.p2.time in {a.p2.time, time}
    ensures r.p1.price in {a.p1.price, price} && r.p2.price in {a.p2.price, price}
  {
    var currentMinTime := MinInt(a.p1.time, a.p2.time);
    var currentMaxTime := MaxInt(a.p1.time, a.p2.time);
    match part
    case Left => SetTime(a, a.p1.time == currentMinTime, time)
    case Right => SetTime(a, a.p1.time == currentMaxTime, time)
    case Top => SetActivePrice(a, active, price)
    case Bottom => SetActivePrice(a, active, price)
    case TopLeft => SetActivePrice(SetTime(a, a.p1.time == currentMinTime, time), active, price)
    case TopRight => SetActivePrice(SetTime(a, a.p1.time == currentMaxTime, time), active, price)
    case BottomLeft => SetActivePrice(SetTime(a, a.p1.time == currentMinTime, time), active, price)
    case BottomRight => SetActivePrice(SetTime(a, a.p1.time == currentMaxTime, time), active, price)
  }

  /** What one sticky move edits. Left-side handles give the new time to the
      anchor with the smaller time (`p1` on a tie), right-side handles to the
      anchor with the larger time (`p1` on a tie); top and bottom leave the
      times alone. Left and right leave the prices alone; every other handle
      gives the new price to the cached anchor, and to none if none is cached. */
  lemma StickyMoveEdits(a: Anchors, part: ResizeHandle, active: Option<PricePoint>, time: int, price: real)
    ensures var r := StickyMove(a, part, active, time, price);
      && (MovesMinTime(part) ==>
            if a.p1.time <= a.p2.time then r.p1.time == time && r.p2.time == a.p2.time
            else r.p1.time == a.p1.time && r.p2.time == time)
      && (MovesMaxTime(part) ==>
            if a.p1.time >= a.p2.time then r.p1.time == time && r.p2.time == a.p2.time
            else r.p1.time == a.p1.time && r.p2.time == time)
      && (part == Top || part == Bottom ==> r.p1.time == a.p1.time && r.p2.time == a.p2.time)
      && (part == Left || part == Right || active.None? ==>
            r.p1.price == a.p1.price && r.p2.price == a.p2.price)
      && (part != Left && part != Right && active == Some(P1) ==>
            r.p1.price == price && r.p2.price == a.p2.price)
      && (part != Left && part != Right && active == Some(P2) ==>
            r.p1.price == a.p1.price && r.p2.price == price)
  {
  }

  /** The time anchor follows the current extremes: a left-handle move that
      carries `p1` past `p2` hands the left edge to `p2` on the very next move. */
  lemma LeftHandleFollowsCurrentMinimum()
    ensures var a0 := Anchors(Point(100, 50.0), Point(200, 80.0));
            var a1 := StickyMove(a0, Left, None, 300, 1.0);
            var a2 := StickyMove(a1, Left, None, 250, 1.0);
            && a1 == Anchors(Point(300, 50.0), Point(200, 80.0))
            && a2 == Anchors(Point(300, 50.0), Point(250, 80.0))
  {
  }

  /** The price anchor does not follow the extremes: a top-handle move that
      carries the cached `p2` below `p1` keeps editing `p2`. */
  lemma TopHandleKeepsCachedAnchor()
    ensures var a0 := Anchors(Point(100, 50.0), Point(200, 80.0));
            var active := ArmedPricePoint(Top, a0.p1, a0.p2);
            var a1 := StickyMove(a0, Top, active, 1, 40.0);
            var a2 := StickyMove(a1, Top, active, 1, 45.0);
            && active == Some(P2)
            && a1 == Anchors(Point(100, 50.0), Point(200, 40.0))
            && a2 == Anchors(Point(100, 50.0), Point(200, 45.0))
  {
  }

  /** Arming the top handle of p1=(100,50), p2=(200,80) caches `p2`; a move
      to price 90 gives p2=(200,90) and leaves p1 alone. */
  lemma TopHandleScenario(time: int)
    ensures var a0 := Anchors(Point(100, 50.0), Point(200, 80.0));
            var active := ArmedPricePoint(Top, a0.p1, a0.p2);
            && active == Some(P2)
            && StickyMove(a0, Top, active, time, 90.0) == Anchors(Point(100, 50.0), Point(200, 90.0))
  {
  }

  // ---------------------------------------------------------------------
  // Body drag

  /** An anchor translated by the drag delta `current - start`. */
  function Dragged(initial: Point, start: Point, current: Point): (r: Point)
    ensures r.time - initial.time == current.time - start.time
    ensures r.price - initial.price == current.price - start.price
  {
    Point(initial.time + (current.time - start.time), initial.price + (current.price - start.price))
  }

  /** A body drag is a translation: both anchors move by the same delta, so
      the width and height in domain units are kept, the result depends on
      the current pointer only (a repeated move is idempotent), and moving
      back to the start point restores the snapshot. */
  lemma DragIsTranslation(i1: Point, i2: Point, start: Point, current: Point)
    ensures Dragged(i2, start, current).time - Dragged(i1, start, current).time == i2.time - i1.time
    ensures Dragged(i2, start, current).price - Dragged(i1, start, current).price == i2.price - i1.price
    ensures Dragged(i1, start, current).time - i1.time == Dragged(i2, start, current).time - i2.time
    ensures Dragged(i1, start, current).price - i1.price == current.price - start.price
    ensures Dragged(i1, start, start) == i1
  {
  }

  /** Dragging the body of p1=(100,50), p2=(200,90) by (+10, +5). */
  lemma BodyDragScenario(start: Point)
    ensures var current := Point(start.time + 10, start.price + 5.0);
            && Dragged(Point(100, 50.0), start, current) == Point(110, 55.0)
            && Dragged(Point(200, 90.0), start, current) == Point(210, 95.0)
  {
  }

  // ---------------------------------------------------------------------
  // Autoscale

  /** The logical index under an anchor time, when the host resolves both steps. */
  function LogicalIndex(host: Host, time: int): Option<real>
  {
    match host.timeToCoordinate(time)
    case None => None
    case Some(c) => host.coordinateToLogical(c)
  }

  predicate InWindow(logical: Option<real>, startTimePoint: real, endTimePoint: real)
  {
    logical.Some? && startTimePoint <= logical.value <= endTimePoint
  }

  /** `_timeCurrentlyVisible`. Unlike the drag handlers, it tests for null
      only, so a coordinate or index of 0 counts. */
  predicate TimeCurrentlyVisible(host: Host, time: int, startTimePoint: real, endTimePoint: real)
    ensures TimeCurrentlyVisible(host, time, startTimePoint, endTimePoint) <==>
              InWindow(LogicalIndex(host, time), startTimePoint, endTimePoint)
  {
    var coordinate := host.timeToCoordinate(time);
    if coordinate.None? then false
    else
      var logical := host.coordinateToLogical(coordinate.value);
      if logical.None? then false
      else logical.value <= endTimePoint && logical.value >= startTimePoint
  }

  /** The first annotation of `s`, in registration order, that the point hits;
      `|s|` when none is hit. */
  function FirstHit(s: seq<Priceranges>, x: real, y: real): (k: nat)
    reads s, set i | i in s :: i.view
    ensures k <= |s|
    ensures forall j :: 0 <= j < k ==> s[j].HitAt(x, y).None?
    ensures k < |s| ==> s[k].HitAt(x, y).Some?
  {
    if s == [] then 0
    else if s[0].HitAt(x, y).Some? then 0
    else 1 + FirstHit(s[1..], x, y)
  }

  /** `s` with every occurrence of `x` removed, order kept (`Array.filter`). */
  function Without<T(==)>(s: seq<T>, x: T): (r: seq<T>)
    ensures forall j :: 0 <= j < |r| ==> r[j] in s && r[j] != x
    ensures forall j :: 0 <= j < |s| && s[j] != x ==> s[j] in r
    ensures |r| <= |s|
    ensures x !in s ==> r == s
    ensures multiset(r) == multiset(s)[x := 0]
  {
    assert s != [] ==> s == [s[0]] + s[1..];
    if s == [] then []
    else if s[0] == x then Without(s[1..], x)
    else [s[0]] + Without(s[1..], x)
  }

  /** Filtering distributes over concatenation, so the survivors keep their
      relative order: together with the multiset clause of `Without`, the
      result is exactly `s` with the occurrences of `x` struck out. */
  lemma {:induction false} WithoutConcat<T>(a: seq<T>, b: seq<T>, x: T)
    ensures Without(a + b, x) == Without(a, x) + Without(b, x)
  {
    if a == [] {
      assert a + b == b;
    } else {
      assert (a + b)[0] == a[0];
      assert (a + b)[1..] == a[1..] + b;
      WithoutConcat(a[1..], b, x);
    }
  }

  /** Every annotation of `among` outside `touched` is untouched. */
  twostate predicate OthersUnchanged(among: set<Priceranges>, touched: set<Priceranges>)
    reads among
  {
    forall i :: i in among && i !in touched ==> unchanged(i)
  }

  /** Everything about an annotation except its anchors and its update count
      is as before. */
  twostate predicate OnlyAnchorsChanged(i: Priceranges)
    reads i
  {
    && i.isHovered == old(i.isHovered) && i.isSelected == old(i.isSelected)
    && i.isDragging == old(i.isDragging) && i.draggedPart == old(i.draggedPart)
    && i.initialP1 == old(i.initialP1) && i.initialP2 == old(i.initialP2)
    && i.startDragLogicalPoint == old(i.startDragLogicalPoint)
    && i.activePricePoint == old(i.activePricePoint)
  }

  /** Everything about an annotation except its cached price anchor is as before. */
  twostate predicate OnlyActivePriceChanged(i: Priceranges)
    reads i
  {
    && i.p1 == old(i.p1) && i.p2 == old(i.p2)
    && i.isHovered == old(i.isHovered) && i.isSelected == old(i.isSelected)
    && i.isDragging == old(i.isDragging) && i.draggedPart == old(i.draggedPart)
    && i.initialP1 == old(i.initialP1) && i.initialP2 == old(i.initialP2)
    && i.startDragLogicalPoint == old(i.startDragLogicalPoint)
    && i.updateRequests == old(i.updateRequests)
  }

  /** The effect of one sticky-resize move of `inst`'s `part` to `point`:
      nothing when the point resolves to a falsy time or price; otherwise the
      anchors become their `StickyMove` and one update is requested. No other
      annotation of `among` changes. */
  twostate predicate StickyResized(among: set<Priceranges>, inst: Priceranges, part: ResizeHandle,
                                   host: Host, point: ScreenPoint)
    reads among, inst
  {
    var time := host.coordinateToTime(point.x);
    var price := host.coordinateToPrice(point.y);
    && OthersUnchanged(among, {inst})
    && if TimeMissing(time) || PriceMissing(price) then unchanged(inst)
       else
         && Anchors(inst.p1, inst.p2) ==
              StickyMove(Anchors(old(inst.p1), old(inst.p2)), part,
                         old(inst.activePricePoint), time.value, price.value)
         && inst.updateRequests == old(inst.updateRequests) + 1
         && OnlyAnchorsChanged(inst)
  }

  /** One annotation. */
  class Priceranges {
    const coordinator: Coordinator
    const view: PricerangesPaneView
    var p1: Point
    var p2: Point
    var isHovered: bool
    var isSelected: bool
    var isDragging: bool
    var draggedPart: Option<HandleId>
    var initialP1: Option<Point>
    var initialP2: Option<Point>
    var startDragLogicalPoint: Option<Point>
    var activePricePoint: Option<PricePoint>
    /** Number of `requestUpdate()` calls issued. */
    var updateRequests: nat

    /** A new annotation registers itself at the end of the instance list. */
    constructor (coordinator: Coordinator, p1: Point, p2: Point)
      requires coordinator.Valid()
      modifies coordinator
      ensures this.coordinator == coordinator && this.p1 == p1 && this.p2 == p2
      ensures !isHovered && !isSelected && !isDragging && draggedPart.None?
      ensures initialP1.None? && initialP2.None? && startDragLogicalPoint.None?
      ensures activePricePoint.None? && updateRequests == 0
      ensures fresh(view) && view.p1 == ViewPoint(None, None) && view.p2 == ViewPoint(None, None)
      ensures coordinator.instances == old(coordinator.instances) + [this]
      ensures coordinator.created == old(coordinator.created) + {this}
      ensures coordinator.selectedItem == old(coordinator.selectedItem)
      ensures coordinator.lastHoveredInstance == old(coordinator.lastHoveredInstance)
      ensures coordinator.stickyPart == old(coordinator.stickyPart)
      ensures coordinator.mouseWheel == old(coordinator.mouseWheel)
      ensures coordinator.pressedMouseMove == old(coordinator.pressedMouseMove)
      ensures coordinator.Valid()
    {
      this.coordinator := coordinator;
      this.p1 := p1;
      this.p2 := p2;
      isHovered, isSelected, isDragging := false, false, false;
      draggedPart := None;
      initialP1, initialP2, startDragLogicalPoint := None, None, None;
      activePricePoint := None;
      updateRequests := 0;
      view := new PricerangesPaneView();
      new;
      coordinator.instances := coordinator.instances + [this];
      coordinator.created := coordinator.created + {this};
    }

    /** The view's `hitTest` with this annotation's current flags. */
    function HitAt(x: real, y: real): (r: Option<HandleId>)
      reads this, view
      ensures r.Some? && r.value != Body ==> isSelected || isHovered
      ensures view.p1.x.None? || view.p1.y.None? || view.p2.x.None? || view.p2.y.None? ==> r.None?
    {
      HitTest(view.p1, view.p2, isSelected || isHovered, x, y)
    }

    /** `updateAllViews`: re-project the anchors into the view's cache. */
    method UpdateAllViews(host: Host)
      modifies view
      ensures view.p1 == Project(host, p1) && view.p2 == Project(host, p2)
    {
      view.Update(host, p1, p2);
    }

    /** `requestUpdate()`, counted. */
    method RequestUpdate()
      modifies this`updateRequests
      ensures updateRequests == old(updateRequests) + 1
    {
      updateRequests := updateRequests + 1;
    }

    method SetHovered(value: bool)
      modifies this`isHovered, this`updateRequests
      ensures isHovered == value
      ensures updateRequests == old(updateRequests) + Changed(old(isHovered), value)
    {
      if isHovered == value {
        return;
      }
      isHovered := value;
      updateRequests := updateRequests + 1;
    }

    method SetSelected(value: bool)
      modifies this`isSelected, this`updateRequests
      ensures isSelected == value
      ensures updateRequests == old(updateRequests) + Changed(old(isSelected), value)
    {
      if isSelected == value {
        return;
      }
      isSelected := value;
      updateRequests := updateRequests + 1;
    }

    /** `autoscaleInfo`: the anchors' price range while either anchor time is
        within the visible logical window; nothing otherwise. */
    function AutoscaleInfo(host: Host, startTimePoint: real, endTimePoint: real): (r: Option<PriceRange>)
      reads this
      ensures r.Some? <==>
                InWindow(LogicalIndex(host, p1.time), startTimePoint, endTimePoint)
                || InWindow(LogicalIndex(host, p2.time), startTimePoint, endTimePoint)
      ensures r.Some? ==> r.value.minValue <= r.value.maxValue
      ensures r.Some? ==>
                && (r.value.minValue == p1.price || r.value.minValue == p2.price)
                && r.value.minValue <= p1.price && r.value.minValue <= p2.price
      ensures r.Some? ==>
                && (r.value.maxValue == p1.price || r.value.maxValue == p2.price)
                && r.value.maxValue >= p1.price && r.value.maxValue >= p2.price
    {
      if TimeCurrentlyVisible(host, p1.time, startTimePoint, endTimePoint)
         || TimeCurrentlyVisible(host, p2.time, startTimePoint, endTimePoint)
      then Some(PriceRange(Min(p1.price, p2.price), Max(p1.price, p2.price)))
      else None
    }

    /** `getSelectedHandle`: the armed handle when this annotation holds the
        sticky slot. It is never the body. */
    function GetSelectedHandle(): (r: Option<ResizeHandle>)
      reads coordinator
      ensures r.Some? <==> coordinator.stickyPart.Some? && coordinator.stickyPart.value.instance == this
      ensures r.Some? ==> r.value == coordinator.stickyPart.value.part && r.value != Body
    {
      if coordinator.stickyPart.Some? && coordinator.stickyPart.value.instance == this
      then Some(coordinator.stickyPart.value.part)
      else None
    }

    /** `detached`: leave the instance list. The selection, hover and sticky
        slots keep whatever they held. */
    method Detached()
      requires coordinator.Valid()
      modifies coordinator`instances
      ensures coordinator.instances == Without(old(coordinator.instances), this)
      ensures this !in coordinator.instances
      ensures coordinator.Valid()
    {
      coordinator.instances := Without(coordinator.instances, this);
    }

    /** Mouse down at pane pixel (x, y): start a body drag, unless a sticky
        resize is armed or the point is not on the body. The drag flags are
        set before the pointer is resolved to domain space; if that fails
        (falsy time or price) no snapshot is taken and panning stays on. */
    method HandleMouseDown(host: Host, x: real, y: real)
      requires coordinator.Valid()
      modifies this, coordinator`pressedMouseMove
      ensures coordinator.Valid()
      ensures p1 == old(p1) && p2 == old(p2)
      ensures isHovered == old(isHovered) && isSelected == old(isSelected)
      ensures activePricePoint == old(activePricePoint) && updateRequests == old(updateRequests)
      ensures old(coordinator.stickyPart).Some? || old(HitAt(x, y)) != Some(Body) ==>
                unchanged(this) && coordinator.pressedMouseMove == old(coordinator.pressedMouseMove)
      ensures old(coordinator.stickyPart).None? && old(HitAt(x, y)) == Some(Body) ==>
                var time, price := host.coordinateToTime(x), host.coordinateToPrice(y);
                && isDragging && draggedPart == Some(Body)
                && if TimeMissing(time) || PriceMissing(price) then
                     && startDragLogicalPoint == old(startDragLogicalPoint)
                     && initialP1 == old(initialP1) && initialP2 == old(initialP2)
                     && coordinator.pressedMouseMove == old(coordinator.pressedMouseMove)
                   else
                     && startDragLogicalPoint == Some(Point(time.value, price.value))
                     && initialP1 == Some(p1) && initialP2 == Some(p2)
                     && !coordinator.pressedMouseMove
    {
      if coordinator.stickyPart.Some? {
        return;
      }
      var hitTestResult := HitAt(x, y);
      if hitTestResult == Some(Body) {
        isDragging := true;
        draggedPart := hitTestResult;
        var time := host.coordinateToTime(x);
        var price := host.coordinateToPrice(y);
        if TimeMissing(time) || PriceMissing(price) {
          return;
        }
        startDragLogicalPoint := Some(Point(time.value, price.value));
        initialP1 := Some(p1);
        initialP2 := Some(p2);
        coordinator.pressedMouseMove := false;
      }
    }

    /** Mouse up: end any drag, drop the snapshot and the cached price anchor,
        and turn pressed-mouse panning back on. */
    method HandleMouseUp()
      requires coordinator.Valid()
      modifies this, coordinator`pressedMouseMove
      ensures coordinator.Valid()
      ensures !isDragging && draggedPart.None?
      ensures startDragLogicalPoint.None? && initialP1.None? && initialP2.None?
      ensures activePricePoint.None?
      ensures coordinator.pressedMouseMove
      ensures p1 == old(p1) && p2 == old(p2)
      ensures isHovered == old(isHovered) && isSelected == old(isSelected)
      ensures updateRequests == old(updateRequests)
    {
      isDragging := false;
      draggedPart := None;
      startDragLogicalPoint := None;
      initialP1 := None;
      initialP2 := None;
      activePricePoint := None;
      coordinator.pressedMouseMove := true;
    }

    /** Mouse leave: end any drag and drop the cached price anchor; the drag
        snapshot is kept and panning is not touched. */
    method HandleMouseLeave()
      modifies this`isDragging, this`draggedPart, this`activePricePoint
      ensures !isDragging && draggedPart.None? && activePricePoint.None?
    {
      isDragging := false;
      draggedPart := None;
      activePricePoint := None;
    }

    /** Mouse move at pane pixel (x, y) during a body drag: both anchors
        become their snapshot plus the domain delta from the drag start. */
    method HandleMouseMove(host: Host, x: real, y: real)
      modifies this`p1, this`p2, this`updateRequests
      ensures var time, price := host.coordinateToTime(x), host.coordinateToPrice(y);
              if !isDragging || draggedPart.None? || TimeMissing(time) || PriceMissing(price) then
                unchanged(this)
              else
                && updateRequests == old(updateRequests) + 1
                && if draggedPart == Some(Body) && startDragLogicalPoint.Some?
                      && initialP1.Some? && initialP2.Some? then
                     var current := Point(time.value, price.value);
                     && p1 == Dragged(initialP1.value, startDragLogicalPoint.value, current)
                     && p2 == Dragged(initialP2.value, startDragLogicalPoint.value, current)
                   else p1 == old(p1) && p2 == old(p2)
    {
      if !isDragging || draggedPart.None? {
        return;
      }
      var time := host.coordinateToTime(x);
      var price := host.coordinateToPrice(y);
      if TimeMissing(time) || PriceMissing(price) {
        return;
      }
      if draggedPart == Some(Body) {
        if startDragLogicalPoint.Some? && initialP1.Some? && initialP2.Some? {
          var timeDelta := time.value - startDragLogicalPoint.value.time;
          var priceDelta := price.value - startDragLogicalPoint.value.price;
          p1 := Point(initialP1.value.time + timeDelta, initialP1.value.price + priceDelta);
          p2 := Point(initialP2.value.time + timeDelta, initialP2.value.price + priceDelta);
        }
      }
      RequestUpdate();
    }
  }

  /** The process-wide state shared by all annotations: the selection
      manager's slot, the instance list in registration order, the hover and
      sticky-resize slots, and the chart's two scroll options. */
  class Coordinator {
    var selectedItem: Priceranges?
    var instances: seq<Priceranges>
    var lastHoveredInstance: Priceranges?
    var stickyPart: Option<StickyPart>
    /** `handleScroll.mouseWheel` of the chart. */
    var mouseWheel: bool
    /** `handleScroll.pressedMouseMove` of the chart. */
    var pressedMouseMove: bool
    /** Every annotation ever registered, detached ones included. */
    ghost var created: set<Priceranges>

    /** Every slot refers to a registered annotation, and the selected
        annotation is the only one whose flag is set. */
    ghost predicate Valid()
      reads this, created
    {
      && (forall i :: i in instances ==> i in created)
      && (selectedItem != null ==> selectedItem in created && selectedItem.isSelected)
      && (lastHoveredInstance != null ==> lastHoveredInstance in created)
      && (stickyPart.Some? ==> stickyPart.value.instance in created)
      && (forall i :: i in created && i.isSelected ==> i == selectedItem)
    }

    constructor ()
      ensures Valid()
      ensures selectedItem == null && instances == [] && lastHoveredInstance == null
      ensures stickyPart.None? && mouseWheel && pressedMouseMove && created == {}
    {
      selectedItem := null;
      instances := [];
      lastHoveredInstance := null;
      stickyPart := None;
      mouseWheel, pressedMouseMove := true, true;
      created := {};
    }

    /** At most one annotation is selected. */
    lemma AtMostOneSelected(i: Priceranges, j: Priceranges)
      requires Valid() && i in created && j in created
      requires i.isSelected && j.isSelected
      ensures i == j
    {
    }

    /** Everything about an annotation except its hover/selection flags and
        its update count is as before. */
    twostate predicate OnlyFlagsChanged(i: Priceranges)
      reads i
    {
      && i.p1 == old(i.p1) && i.p2 == old(i.p2)
      && i.isDragging == old(i.isDragging) && i.draggedPart == old(i.draggedPart)
      && i.initialP1 == old(i.initialP1) && i.initialP2 == old(i.initialP2)
      && i.startDragLogicalPoint == old(i.startDragLogicalPoint)
      && i.activePricePoint == old(i.activePricePoint)
    }

    /** The effect of assigning `item` to the selection slot previously held by
        `prev`: nothing when they are the same; otherwise `prev` is unselected
        and unhovered and `item` selected and hovered, each flag change
        requesting one update. */
    twostate predicate SelectionHandedOver(prev: Priceranges?, item: Priceranges?)
      reads this, Slot(prev), Slot(item)
    {
      && selectedItem == item
      && (prev == item && item != null ==>
            && item.isSelected == old(item.isSelected) && item.isHovered == old(item.isHovered)
            && item.updateRequests == old(item.updateRequests))
      && (prev != item && prev != null ==>
            && !prev.isSelected && !prev.isHovered
            && prev.updateRequests ==
                 old(prev.updateRequests) + Changed(old(prev.isSelected), false) + Changed(old(prev.isHovered), false))
      && (prev != item && item != null ==>
            && item.isSelected && item.isHovered
            && item.updateRequests ==
                 old(item.updateRequests) + Changed(old(item.isSelected), true) + Changed(old(item.isHovered), true))
    }

    /** The effect of moving the hover slot from `prev` to `current`. */
    twostate predicate HoverHandedOver(prev: Priceranges?, current: Priceranges?)
      reads this, Slot(prev), Slot(current)
    {
      && lastHoveredInstance == current
      && (prev == current && current != null ==>
            current.isHovered == old(current.isHovered) && current.updateRequests == old(current.updateRequests))
      && (prev != current && prev != null ==>
            !prev.isHovered && prev.updateRequests == old(prev.updateRequests) + Changed(old(prev.isHovered), false))
      && (prev != current && current != null ==>
            current.isHovered && current.updateRequests == old(current.updateRequests) + Changed(old(current.isHovered), true))
    }

    /** The `SelectionManager.selectedItem` setter. */
    method SetSelectedItem(item: Priceranges?)
      requires Valid()
      requires item != null ==> item in created
      modifies this`selectedItem, Slot(selectedItem), Slot(item)
      ensures Valid()
      ensures SelectionHandedOver(old(selectedItem), item)
      ensures forall i :: i in Slot(old(selectedItem)) + Slot(item) ==> OnlyFlagsChanged(i)
      ensures forall i :: i in created ==> i.p1 == old(i.p1) && i.p2 == old(i.p2)
    {
      if selectedItem == item {
        return;
      }
      if selectedItem != null {
        selectedItem.SetSelected(false);
        selectedItem.SetHovered(false);
      }
      selectedItem := item;
      if selectedItem != null {
        selectedItem.SetSelected(true);
        selectedItem.SetHovered(true);
      }
    }

    /** The chart's click handler. A click while a sticky resize is armed
        only disarms it and turns both scroll options back on. Otherwise the
        first annotation hit, in registration order, decides: a handle arms
        a sticky resize on it (turning scrolling off and caching the price
        anchor), the body toggles its selection; a click that hits nothing
        clears the selection. A click without a point is ignored. */
    method HandleGlobalClick(point: Option<ScreenPoint>)
      requires Valid()
      modifies this, created
      ensures Valid()
      ensures instances == old(instances) && created == old(created)
      ensures lastHoveredInstance == old(lastHoveredInstance)
      ensures forall i :: i in created ==> i.p1 == old(i.p1) && i.p2 == old(i.p2)
      ensures point.None? ==> unchanged(this) && OthersUnchanged(created, {})
      ensures point.Some? && old(stickyPart).Some? ==>
                && stickyPart.None? && mouseWheel && pressedMouseMove
                && selectedItem == old(selectedItem)
                && OthersUnchanged(created, {})
      ensures point.Some? && old(stickyPart).None? ==>
                var k := old(FirstHit(instances, point.value.x, point.value.y));
                if k == |instances| then
                  && stickyPart.None?
                  && mouseWheel == old(mouseWheel) && pressedMouseMove == old(pressedMouseMove)
                  && SelectionHandedOver(old(selectedItem), null)
                  && (forall i :: i in Slot(old(selectedItem)) ==> OnlyFlagsChanged(i))
                  && OthersUnchanged(created, Slot(old(selectedItem)))
                else
                  var inst := instances[k];
                  var part := old(inst.HitAt(point.value.x, point.value.y)).value;
                  if part == Body then
                    var item := if old(selectedItem) == inst then null else inst;
                    && stickyPart.None?
                    && mouseWheel == old(mouseWheel) && pressedMouseMove == old(pressedMouseMove)
                    && SelectionHandedOver(old(selectedItem), item)
                    && (forall i :: i in Slot(old(selectedItem)) + Slot(item) ==> OnlyFlagsChanged(i))
                    && OthersUnchanged(created, Slot(old(selectedItem)) + Slot(item))
                  else
                    && stickyPart == Some(StickyPart(inst, part))
                    && !mouseWheel && !pressedMouseMove
                    && selectedItem == old(selectedItem)
                    && inst.activePricePoint == ArmedPricePoint(part, old(inst.p1), old(inst.p2))
                    && OnlyActivePriceChanged(inst)
                    && OthersUnchanged(created, {inst})
    {
      if point.None? {
        return;
      }
      if stickyPart.Some? {
        Disarm();
        return;
      }
      var k, clickedPart := 0, None;
      while k < |instances|
        invariant k <= |instances|
        invariant forall j :: 0 <= j < k ==> instances[j].HitAt(point.value.x, point.value.y).None?
        invariant clickedPart.None?
      {
        clickedPart := instances[k].HitAt(point.value.x, point.value.y);
        if clickedPart.Some? {
          break;
        }
        k := k + 1;
      }
      assert k == FirstHit(instances, point.value.x, point.value.y);
      if k < |instances| && clickedPart.Some? {
        var clickedInstance := instances[k];
        if clickedPart.value != Body {
          ArmSticky(clickedInstance, clickedPart.value);
        } else if selectedItem == clickedInstance {
          SetSelectedItem(null);
        } else {
          SetSelectedItem(clickedInstance);
        }
      } else {
        SetSelectedItem(null);
      }
    }

    /** A click while a sticky resize is armed: disarm, scrolling back on. */
    method Disarm()
      requires Valid()
      modifies this`stickyPart, this`mouseWheel, this`pressedMouseMove
      ensures Valid()
      ensures stickyPart.None? && mouseWheel && pressedMouseMove
    {
      stickyPart := None;
      mouseWheel, pressedMouseMove := true, true;
    }

    /** A click on a handle of `inst`: arm the sticky resize, turn scrolling
        off, and cache the price anchor the handle will edit. */
    method ArmSticky(inst: Priceranges, part: ResizeHandle)
      requires Valid() && inst in created
      modifies this`stickyPart, this`mouseWheel, this`pressedMouseMove, inst`activePricePoint
      ensures Valid()
      ensures stickyPart == Some(StickyPart(inst, part)) && !mouseWheel && !pressedMouseMove
      ensures inst.activePricePoint == ArmedPricePoint(part, inst.p1, inst.p2)
    {
      stickyPart := Some(StickyPart(inst, part));
      mouseWheel, pressedMouseMove := false, false;
      inst.activePricePoint := ArmedPricePoint(part, inst.p1, inst.p2);
    }

    /** The chart's crosshair-move handler. While a sticky resize is armed and
        the pointer is on the pane, it resizes the armed annotation and does
        no hover tracking; otherwise it tracks hover. */
    method HandleGlobalCrosshairMove(host: Host, point: Option<ScreenPoint>)
      requires Valid()
      modifies this, created
      ensures Valid()
      ensures instances == old(instances) && created == old(created)
      ensures selectedItem == old(selectedItem) && stickyPart == old(stickyPart)
      ensures mouseWheel == old(mouseWheel) && pressedMouseMove == old(pressedMouseMove)
      ensures forall i :: i in created ==> i.isSelected == old(i.isSelected)
      ensures old(stickyPart).Some? && point.Some? ==>
                && lastHoveredInstance == old(lastHoveredInstance)
                && StickyResized(created, old(stickyPart).value.instance, old(stickyPart).value.part,
                                 host, point.value)
      ensures point.None? ==>
                && HoverHandedOver(old(lastHoveredInstance), null)
                && (forall i :: i in Slot(old(lastHoveredInstance)) ==> OnlyFlagsChanged(i))
                && OthersUnchanged(created, Slot(old(lastHoveredInstance)))
      ensures old(stickyPart).None? && point.Some? ==>
                var k := old(FirstHit(instances, point.value.x, point.value.y));
                var current := if k < |instances| then instances[k] else null;
                && HoverHandedOver(old(lastHoveredInstance), current)
                && (forall i :: i in Slot(old(lastHoveredInstance)) + Slot(current) ==> OnlyFlagsChanged(i))
                && OthersUnchanged(created, Slot(old(lastHoveredInstance)) + Slot(current))
    {
      if stickyPart.Some? && point.Some? {
        ResizeArmed(host, point.value);
        return;
      }
      TrackHover(point);
    }

    /** The sticky-resize branch of the crosshair handler. */
    method ResizeArmed(host: Host, point: ScreenPoint)
      requires Valid() && stickyPart.Some?
      modifies created
      ensures Valid()
      ensures StickyResized(created, old(stickyPart).value.instance, old(stickyPart).value.part, host, point)
      ensures forall i :: i in created ==> i.isSelected == old(i.isSelected)
    {
      var instance, part := stickyPart.value.instance, stickyPart.value.part;
      var time := host.coordinateToTime(point.x);
      var price := host.coordinateToPrice(point.y);
      if TimeMissing(time) || PriceMissing(price) {
        return;
      }
      var moved := StickyMove(Anchors(instance.p1, instance.p2), part,
                              instance.activePricePoint, time.value, price.value);
      instance.p1, instance.p2 := moved.p1, moved.p2;
      instance.RequestUpdate();
    }

    /** The hover-tracking branch of the crosshair handler: with no point the
        hovered annotation is unhovered and the slot cleared; with a point the
        first annotation hit becomes the hovered one, and the previous one is
        unhovered if it differs. */
    method TrackHover(point: Option<ScreenPoint>)
      requires Valid()
      modifies this`lastHoveredInstance, created
      ensures Valid()
      ensures forall i :: i in created ==> i.isSelected == old(i.isSelected)
      ensures point.None? ==>
                && HoverHandedOver(old(lastHoveredInstance), null)
                && (forall i :: i in Slot(old(lastHoveredInstance)) ==> OnlyFlagsChanged(i))
                && OthersUnchanged(created, Slot(old(lastHoveredInstance)))
      ensures point.Some? ==>
                var k := old(FirstHit(instances, point.value.x, point.value.y));
                var current := if k < |instances| then instances[k] else null;
                && HoverHandedOver(old(lastHoveredInstance), current)
                && (forall i :: i in Slot(old(lastHoveredInstance)) + Slot(current) ==> OnlyFlagsChanged(i))
                && OthersUnchanged(created, Slot(old(lastHoveredInstance)) + Slot(current))
    {
      if point.None? {
        if lastHoveredInstance != null {
          lastHoveredInstance.SetHovered(false);
          lastHoveredInstance := null;
        }
        return;
      }
      var k := 0;
      while k < |instances|
        invariant k <= |instances|
        invariant forall j :: 0 <= j < k ==> instances[j].HitAt(point.value.x, point.value.y).None?
      {
        if instances[k].HitAt(point.value.x, point.value.y).Some? {
          break;
        }
        k := k + 1;
      }
      assert k == FirstHit(instances, point.value.x, point.value.y);
      var currentlyHovered: Priceranges? := if k < |instances| then instances[k] else null;
      if lastHoveredInstance != currentlyHovered {
        if lastHoveredInstance != null {
          lastHoveredInstance.SetHovered(false);
        }
        if currentlyHovered != null {
          currentlyHovered.SetHovered(true);
        }
        lastHoveredInstance := currentlyHovered;
      }
    }
  }
}
