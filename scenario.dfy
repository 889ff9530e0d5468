/** A client of the model: one annotation on a chart whose time axis maps
    one-to-one to pixels and whose price axis points down, driven through a
    select, a top-handle resize and a body drag. */
module Scenario {
  import opened Wrappers
  import opened ChartHost
  import opened PaneView
  import opened PriceRanges

  /** x = time, y = 1000 - price, and back. */
  function DemoHost(): Host
  {
    Host(
      (t: int) => Some(t as real),
      (x: real) => Some(x.Floor),
      (p: real) => Some(1000.0 - p),
      (y: real) => Some(1000.0 - y),
      (c: real) => Some(c))
  }

  /** A coordinator holding one freshly projected annotation with anchors
      p1=(100, 50) and `p2`. */
  method Setup(p2: Point) returns (c: Coordinator, a: Priceranges)
    ensures fresh(c) && fresh(a) && fresh(a.view) && a.coordinator == c
    ensures c.Valid() && c.instances == [a] && c.created == {a}
    ensures c.selectedItem == null && c.lastHoveredInstance == null && c.stickyPart.None?
    ensures c.mouseWheel && c.pressedMouseMove
    ensures a.p1 == Point(100, 50.0) && a.p2 == p2
    ensures !a.isHovered && !a.isSelected && !a.isDragging && a.draggedPart.None?
    ensures a.initialP1.None? && a.initialP2.None? && a.startDragLogicalPoint.None?
    ensures a.activePricePoint.None?
    ensures a.view.p1 == Project(DemoHost(), a.p1) && a.view.p2 == Project(DemoHost(), a.p2)
  {
    c := new Coordinator();
    a := new Priceranges(c, Point(100, 50.0), p2);
    a.UpdateAllViews(DemoHost());
  }

  /** A body click selects the idle annotation; a click on its top edge then
      arms the top handle with `p2`, the anchor of the larger price, cached. */
  method SelectThenArmTop()
  {
    var c, a := Setup(Point(200, 80.0));
    assert a.view.p1 == ViewPoint(Some(100.0), Some(950.0));
    assert a.view.p2 == ViewPoint(Some(200.0), Some(920.0));
    assert a.HitAt(150.0, 935.0) == Some(Body);
    assert FirstHit(c.instances, 150.0, 935.0) == 0;
    c.HandleGlobalClick(Some(ScreenPoint(150.0, 935.0)));
    assert c.selectedItem == a && a.isSelected && a.isHovered;

    assert a.HitAt(150.0, 920.0) == Some(Top);
    assert FirstHit(c.instances, 150.0, 920.0) == 0;
    c.HandleGlobalClick(Some(ScreenPoint(150.0, 920.0)));
    assert c.stickyPart == Some(StickyPart(a, Top)) && !c.mouseWheel && !c.pressedMouseMove;
    assert a.activePricePoint == Some(P2);
    assert a.GetSelectedHandle() == Some(Top);
    assert c.selectedItem == a;
  }

  /** With the top handle armed, moving to price 90 edits p2 only, and the
      next click only disarms. */
  method ResizeThenDisarm()
  {
    var c, a := Setup(Point(200, 80.0));
    c.SetSelectedItem(a);
    assert a.HitAt(150.0, 920.0) == Some(Top) by {
      assert a.view.p1 == ViewPoint(Some(100.0), Some(950.0));
      assert a.view.p2 == ViewPoint(Some(200.0), Some(920.0));
    }
    assert FirstHit(c.instances, 150.0, 920.0) == 0;
    c.HandleGlobalClick(Some(ScreenPoint(150.0, 920.0)));
    assert c.stickyPart == Some(StickyPart(a, Top)) && a.activePricePoint == Some(P2);

    c.HandleGlobalCrosshairMove(DemoHost(), Some(ScreenPoint(150.0, 910.0)));
    assert a.p1 == Point(100, 50.0) && a.p2 == Point(200, 90.0);

    c.HandleGlobalClick(Some(ScreenPoint(150.0, 910.0)));
    assert c.stickyPart.None? && c.mouseWheel && c.pressedMouseMove && c.selectedItem == a;
  }

  /** Dragging the body of p1=(100,50), p2=(200,90) by (+10, +5). */
  method DragBody()
  {
    var c, a := Setup(Point(200, 90.0));
    assert a.HitAt(150.0, 935.0) == Some(Body) by {
      assert a.view.p1 == ViewPoint(Some(100.0), Some(950.0));
      assert a.view.p2 == ViewPoint(Some(200.0), Some(910.0));
    }
    a.HandleMouseDown(DemoHost(), 150.0, 935.0);
    assert a.isDragging && a.startDragLogicalPoint == Some(Point(150, 65.0));
    assert a.initialP1 == Some(Point(100, 50.0)) && !c.pressedMouseMove;
    a.HandleMouseMove(DemoHost(), 160.0, 930.0);
    assert a.p1 == Point(110, 55.0) && a.p2 == Point(210, 95.0);
    a.HandleMouseUp();
    assert !a.isDragging && a.initialP1.None? && c.pressedMouseMove;
  }
}
