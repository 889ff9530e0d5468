# Price-range annotation: interaction and geometry engine, modelled in Dafny

This project models the core of a chart plugin that draws a "price range"
rectangle. The rectangle is defined by two anchors `p1` and `p2`, each a
(time, price) pair. The model covers two parts:

- The pane view (`src/pane-view.ts`). It caches the pixel projection of the
  two anchors. Its hit-tester sorts a pointer position into one of eight
  resize handles, the body, or nothing.
- The annotation (`src/price-ranges.ts`). It keeps hover, selection and drag
  flags. The process-wide slots are the selection manager's selected item,
  the instance list in registration order, the last hovered instance and the
  armed sticky resize. The click, crosshair-move and mouse handlers drive
  these slots and flags.

Modules, one file each:

- `Wrappers` (`wrappers.dfy`): `Option`, standing in for `T | null`.
- `JsMath` (`js_math.dfy`): `Math.min` and `Math.max`.
- `ChartHost` (`chart_host.dfy`): the anchor `Point`, the pointer
  `ScreenPoint`, and the host's coordinate conversions as a `Host` record of
  functions. The four conversions are `timeToCoordinate`, `coordinateToTime`,
  `priceToCoordinate` and `coordinateToPrice`. A fifth, `coordinateToLogical`,
  is used only by autoscaling. This module also holds the JavaScript
  falsiness tests `TimeMissing` and `PriceMissing`: null, or the number 0.
- `PaneView` (`pane_view.dfy`): the `HandleId` datatype and the string ids
  the hit-tester reports. `Classify` is the ordered if-chain.
  `HitTest` applies it to the cached projections. `InRegion` and `Priority`
  describe the regions independently of the test order. The module also holds
  the class `PricerangesPaneView`, whose `Update` refills the cache.
- `PriceRanges` (`price_ranges.dfy`): the class `Priceranges`, holding the
  per-annotation state and the mouse handlers, and the class `Coordinator`.
  `Coordinator` holds the static slots of `SelectionManager` and
  `Priceranges` together, plus the chart's two `handleScroll` options
  (`mouseWheel`, `pressedMouseMove`). Its `Valid()` invariant says that only
  the selected item has its selected flag set. The pure parts are separate
  functions with their own lemmas:
  - `ArmedPricePoint`: the price anchor cached when a handle is armed.
  - `StickyMove`: one sticky-resize move.
  - `Dragged`: one body-drag move.
  - `FirstHit`: the scan of the instance list.
  - `AutoscaleInfo`: the price range reported to the autoscaler.
- `Scenario` (`scenario.dfy`): a client. It uses a concrete host, where x is
  the time and y is 1000 − price. Through the real handlers it selects an
  annotation and arms its top handle. It then resizes p1=(100,50),
  p2=(200,80) to p2=(200,90), disarms, and drags the body by (+10, +5) to
  p1=(110,55), p2=(210,95).

Numbers: pixel coordinates, prices and logical indices are `real`. Times are
`int`, because the source casts them to `number`. `Math.hypot(dx, dy) < 10`
becomes `dx*dx + dy*dy < 100`. `requestUpdate()` is counted in
`updateRequests`.

Behaviour of the code worth knowing:

- Edge bands are tested before corner discs, so at the exact corner
  `(minX, minY)` the left edge wins (`ExactCornerIsLeftEdge`).
- The corner discs reach into the body, up to 10 px from a corner, so a
  point more than 5 px from every edge can still fall in a corner disc. A
  point 6 px from both the left and top edges is the top-left handle
  (`CornerDiscReachesInside`). `ActiveInteriorIsBody` gives the body for
  interior points that are also outside every corner disc.
- The time anchor of a left or right edit is chosen again from the current
  extremes on every move. The price anchor is chosen once, when the click
  arms the handle, and is then cached. A top or bottom resize that crosses
  the other anchor keeps editing the same anchor
  (`LeftHandleFollowsCurrentMinimum`, `TopHandleKeepsCachedAnchor`).
- Handles are resized only in the sticky mode: click, move, click. Mouse
  down starts only body drags, and only while nothing is armed.
- A body click toggles the selection of the first annotation hit, whether or
  not it is hovered.
- `detached()` only removes the instance from the list. The selection, hover
  and sticky slots may still refer to it.
- Mouse down sets the dragging flags before it resolves the pointer. When
  the resolved time or price is falsy, no new snapshot is taken. The
  following moves apply whatever snapshot an earlier drag left behind, since
  mouse leave keeps it. When there is none, they only request updates.
  Mouse up turns only `pressedMouseMove` back on.
- Missing values in the drag and resize handlers are tested for falsiness,
  so a resolved time or price of 0 is ignored. Autoscaling tests only for
  null, so a coordinate or logical index of 0 still counts.

## Model

| member | source | states |
|---|---|---|
| `PaneView.ExternalIdInjective` | src/pane-view.ts:62-121 | the nine reported `externalId` strings are pairwise distinct, so the handlers can recover the target from the id |
| `PaneView.Normalize` | src/pane-view.ts:42-54 | a box exists exactly when all four cached coordinates are non-null; its minimum and maximum on each axis are each one of the two points' coordinates and bound both, so it is the `Math.min`/`Math.max` box of the two points |
| `PaneView.Classify` | src/pane-view.ts:59-123 | only live targets are returned (handles only on a selected or hovered annotation); a body result lies in the closed box; on an idle annotation a hit happens exactly in the closed box |
| `PaneView.HitTest` | src/pane-view.ts:41-124 | null whenever a cached coordinate is null; a handle only on a selected or hovered annotation |
| `PaneView.ClassifyIsFirstLiveRegion` | src/pane-view.ts:59-123 | the hit-tester returns nothing exactly when no live region contains the point; otherwise it returns the live region of highest priority (left, right, top, bottom, then the four corners, then the body) that contains it; handles are live only when the annotation is selected or hovered |
| `PaneView.IdleHitsOnlyBody` | src/pane-view.ts:60-123 | on an annotation neither selected nor hovered the result is the body iff the point is in the closed box, and nothing otherwise; no handle is ever returned |
| `PaneView.ExactCornerIsLeftEdge` | src/pane-view.ts:62-94 | on an active annotation the exact corner (minX, minY) is the left handle, not the top-left handle |
| `PaneView.CornerOnlyOutsideEdgeBands` | src/pane-view.ts:62-112 | a corner handle is returned only for points outside all four edge bands |
| `PaneView.WithinCornerBounds` | src/pane-view.ts:88-112 | a squared distance under 100 puts both offsets strictly between −10 and 10 |
| `PaneView.HitWithinGrownBox` | src/pane-view.ts:56-121 | every hit on a normalised box lies strictly inside the box grown by 10 on each side |
| `PaneView.ActiveInteriorIsBody` | src/pane-view.ts:59-121 | on an active annotation, a point of the box more than 5 from every edge and outside every corner disc is the body |
| `PaneView.CornerDiscReachesInside` | src/pane-view.ts:87-94 | on the box 0..100 × 0..100 the point (6, 6), more than 5 from every edge, is the top-left handle |
| `PaneView.MissingCoordinateIsInert` | src/pane-view.ts:42-49 | with any cached coordinate null, hitTest returns null for every point |
| `PaneView.HitTestSymmetric` | src/pane-view.ts:51-54 | swapping the two cached points, or only their x, or only their y, leaves every hit result unchanged |
| `PaneView.HitTestBounds` | src/pane-view.ts:41-124 | every non-null hitTest result lies strictly inside the projected rectangle grown by 10 on each side |
| `PaneView.Project` | src/pane-view.ts:24-28 | the cached x is the host's coordinate for the anchor's time, and the cached y the coordinate for its price, each null when the host gives null |
| `PaneView.UnprojectableIsInert` | src/pane-view.ts:22-49 | if the host cannot project either anchor's time or price, the refreshed view is hit nowhere |
| `PaneView.PricerangesPaneView.constructor` | src/pane-view.ts:15-20 | a new view caches four null coordinates |
| `PaneView.PricerangesPaneView.Update` | src/pane-view.ts:22-31 | update sets `_p1` and `_p2` to `Project` of the two anchors and changes nothing else |
| `PriceRanges.ArmedPricePoint` | src/price-ranges.ts:245-269 | arming a top-side handle caches an anchor holding the maximum price; a bottom-side handle caches one holding the minimum; `p2` only when prices differ; left and right cache nothing |
| `PriceRanges.StickyMove` | src/price-ranges.ts:290-357 | one sticky move changes at most one anchor's time and at most one anchor's price, and every anchor coordinate afterwards is either its old value or the resolved time or price |
| `PriceRanges.StickyMoveEdits` | src/price-ranges.ts:290-357 | one sticky move gives the new time to the anchor with the smaller time (left side) or the larger time (right side), with `p1` winning ties, and leaves times alone for top and bottom; it gives the new price to the cached anchor, or to none, and leaves prices alone for left and right |
| `PriceRanges.LeftHandleFollowsCurrentMinimum` | src/price-ranges.ts:290-300 | from (100,50),(200,80), left moves to 300 and then to 250 edit `p1` first and then `p2`: the edited anchor is chosen again on every move |
| `PriceRanges.TopHandleKeepsCachedAnchor` | src/price-ranges.ts:246-312 | the top handle caches `p2`, and moves to 40 and then to 45 keep editing `p2` after it crosses below `p1` |
| `PriceRanges.TopHandleScenario` | src/price-ranges.ts:246-312 | from p1=(100,50), p2=(200,80), arming the top handle caches `p2`, and a move to price 90 gives p2=(200,90) with p1 unchanged |
| `PriceRanges.Dragged` | src/price-ranges.ts:450-455 | a dragged anchor is displaced from its snapshot by exactly the pointer's time and price delta since the drag started |
| `PriceRanges.DragIsTranslation` | src/price-ranges.ts:448-456 | a body drag moves both anchors by the same delta, keeping width and height; the result depends only on the current pointer, so repeating a move is idempotent; at the start point it restores the snapshot |
| `PriceRanges.BodyDragScenario` | src/price-ranges.ts:448-456 | dragging p1=(100,50), p2=(200,90) by (+10, +5) gives (110,55), (210,95) |
| `PriceRanges.FirstHit` | src/price-ranges.ts:229-236 | the index of the first instance in registration order whose hitTest is non-null, or the list length when none is hit; the click scan (229-236) and the hover scan (372-378) both compute it |
| `PriceRanges.TimeCurrentlyVisible` | src/price-ranges.ts:461-472 | a time is visible exactly when its coordinate and then its logical index are both non-null and the index lies in [start, end] |
| `PriceRanges.Without` | src/price-ranges.ts:106 | the filtered list holds every other instance with its multiplicity and no copy of the detached one, and is unchanged if that one was absent |
| `PriceRanges.WithoutConcat` | src/price-ranges.ts:106 | filtering distributes over concatenation, so the remaining instances keep their registration order |
| `PriceRanges.Priceranges.constructor` | src/price-ranges.ts:61-75 | a new annotation has the given anchors, all flags and scratch cleared, a fresh view with null coordinates, and is pushed at the end of the instance list; the other slots are unchanged |
| `PriceRanges.Priceranges.HitAt` | src/price-ranges.ts:230 | `paneViews()[0].hitTest(x, y)` of this annotation, as the click scan (230), the hover scan (373) and mouse down (397) call it: a handle only while selected or hovered, null while a cached coordinate is null |
| `PriceRanges.Priceranges.RequestUpdate` | src/price-ranges.ts:359 | each `requestUpdate()` call adds one to the update counter and changes nothing else |
| `PriceRanges.Priceranges.UpdateAllViews` | src/price-ranges.ts:154-156 | the view's cache becomes the projection of the current anchors |
| `PriceRanges.Priceranges.SetHovered` | src/price-ranges.ts:142-146 | the hovered flag becomes the value, and an update is requested only if it changed |
| `PriceRanges.Priceranges.SetSelected` | src/price-ranges.ts:148-152 | the selected flag becomes the value, and an update is requested only if it changed |
| `PriceRanges.Priceranges.AutoscaleInfo` | src/price-ranges.ts:181-197 | a range is returned iff either anchor time maps (through coordinate and logical index, both non-null) into [start, end]; its min and max are anchor prices bounding both, so min ≤ max |
| `PriceRanges.Priceranges.GetSelectedHandle` | src/price-ranges.ts:208-213 | returns the armed part iff this annotation holds the sticky slot; the part is never the body |
| `PriceRanges.Priceranges.Detached` | src/price-ranges.ts:105-106 | the instance is filtered out of the list; the selection, hover and sticky slots are left as they were |
| `PriceRanges.Priceranges.HandleMouseDown` | src/price-ranges.ts:391-415 | nothing happens while a sticky part is armed or off the body; on the body the drag flags are set, and with a truthy time and price the start point and anchor snapshots are taken and pressed-mouse panning is turned off; anchors and selection are unchanged |
| `PriceRanges.Priceranges.HandleMouseUp` | src/price-ranges.ts:417-430 | dragging, part, all scratch and the cached price anchor are cleared, and pressed-mouse panning is turned on; anchors and flags are unchanged |
| `PriceRanges.Priceranges.HandleMouseLeave` | src/price-ranges.ts:432-436 | dragging, part and the cached price anchor are cleared; nothing else changes, the snapshot included |
| `PriceRanges.Priceranges.HandleMouseMove` | src/price-ranges.ts:438-459 | with no drag, or a falsy time or price, nothing changes; otherwise one update is requested, and with a complete snapshot both anchors become snapshot plus pointer delta |
| `PriceRanges.Coordinator.constructor` | src/price-ranges.ts:17-45 | every slot starts empty and both scroll options are on |
| `PriceRanges.Coordinator.AtMostOneSelected` | src/price-ranges.ts:24-37 | under the invariant every method keeps, at most one annotation is selected |
| `PriceRanges.Coordinator.SetSelectedItem` | src/price-ranges.ts:24-37 | assigning the current holder changes nothing; otherwise the old holder ends unselected and unhovered and the new one selected and hovered, each flag change requesting one update; anchors and drag state are untouched; single selection is kept |
| `PriceRanges.Coordinator.HandleGlobalClick` | src/price-ranges.ts:215-281 | without a point nothing changes; with a sticky part armed the click only disarms and turns both scroll options on. Otherwise the first instance hit decides: a handle arms it, turns both options off and caches `ArmedPricePoint`; the body toggles its selection; no hit clears the selection. No anchor or hover slot changes |
| `PriceRanges.Coordinator.Disarm` | src/price-ranges.ts:218-224 | the sticky slot is cleared and both scroll options are turned on |
| `PriceRanges.Coordinator.ArmSticky` | src/price-ranges.ts:238-269 | the sticky slot holds the instance and part, both scroll options are off, and the instance caches `ArmedPricePoint`; nothing else changes |
| `PriceRanges.Coordinator.HandleGlobalCrosshairMove` | src/price-ranges.ts:283-389 | armed and with a point: a sticky resize of the armed instance only, with no hover tracking. Otherwise hover tracking. Selection, sticky slot, scroll options and every selected flag are unchanged |
| `PriceRanges.Coordinator.ResizeArmed` | src/price-ranges.ts:284-361 | with a falsy resolved time or price nothing changes; otherwise the armed instance's anchors become `StickyMove` of the old anchors and one update is requested; no other field or instance changes |
| `PriceRanges.Coordinator.TrackHover` | src/price-ranges.ts:363-388 | with no point the last hovered instance is unhovered and the slot cleared; with a point the first instance hit (or none) takes the slot, and the previous holder is unhovered only if it differs |
| `Scenario.Setup` | src/price-ranges.ts:61-75 | a fresh coordinator with one registered, projected annotation, for the client methods `SelectThenArmTop`, `ResizeThenDisarm` and `DragBody` |

## Left out

- `getInfoLabelData` (src/price-ranges.ts:162-179): floating-point percentages and `toFixed` string formatting.
- `applyOptions`, the `options` getter and `src/options.ts`: merging style records and formatting dates. None of it affects behaviour.
- `renderer()` and `src/pane-renderer.ts`: canvas drawing only.
- The `cursorStyle` field of the hit result (src/pane-view.ts:64-119): the host uses it only to choose the pointer shape. The model returns only the target.
- `attached` and the rest of `detached`: subscribing to chart callbacks, DOM listeners, unsubscribing when the list empties, `_eventHandlerAttached`. The `getBoundingClientRect` offset is also left out: mouse handlers take pane pixel coordinates directly.
- The `!Priceranges._chart` test in the click handler: `_chart` is assigned before the handler is first subscribed and never reset, so the test cannot fail while the handler runs.
- The host delivers one DOM mouse event to every instance's listener. The model gives each instance's handler separately and does not model that fan-out.
- All annotations share one chart and one series, and the handlers receive that single `Host`. Per-instance series are not modelled.
- Floating point: reals are exact, so rounding in `Math.hypot` and in drag deltas is not modelled, and neither is `NaN` falsiness.
- Anchors are values. The source stores the caller's `Point` object and edits its fields in place. Aliasing between that object and the caller is not modelled.
- The `ExternalId` constants module (`src/helpers/constants`) is not part of this model. Its constants are taken to be the pane view's id strings, and both are represented by `HandleId`.
- `isHovered()` and `isSelected()` are read as the fields themselves. `paneViews()[0]` is the `view` field.
- `requestUpdate()` (from the plugin base class, not part of this model) is represented only by the `updateRequests` counter.
- The scripts in `src/example/example.ts` and `vite.config.js`: demo and build configuration.
