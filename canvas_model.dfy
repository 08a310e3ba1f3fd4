/**
 * The editing surface of canvas/DrawOnImageView.kt as a state-transition system:
 * one record holds every field the view keeps, and each public entry point or
 * touch phase is a function from the old record to the new one. The view class
 * in canvas.dfy implements the same transitions imperatively.
 */
module CanvasModel {
  import opened Wrappers
  import opened Graphics
  import opened TextStyles
  import opened Items

  const BUTTON_SIZE: real := 55.0
  /** Half the side of a control button's touch square: BUTTON_SIZE * 0.75. */
  const BUTTON_REACH: real := 41.25
  /** Padding added round an item's box when hit-testing: BUTTON_SIZE / 2. */
  const HIT_PADDING: real := 27.5
  const DOUBLE_CLICK_TIME_DELTA: int := 300
  const INVALID_POINTER_ID: int := -1
  const PINCH_DEAD_ZONE: real := 10.0
  const MIN_SCALE: real := 0.2
  const MAX_SCALE: real := 5.0
  const FULL_TURN: real := 360.0
  const HIGHLIGHT_ALPHA: int := 180
  const FADE_STEP: int := 5
  const FADE_START_DELAY: int := 500
  const FADE_FRAME_DELAY: int := 16
  const BOUNDARY_MARGIN: real := 10.0
  const ERASER_WIDTH: real := 50.0
  const DEFAULT_TEXT_SIZE: real := 60.0
  const STICKER_MAX_SIDE: int := 1024
  const STICKER_TARGET_WIDTH: real := 150.0

  /** One segment command of the freehand Path. */
  datatype PathOp = MoveTo(x: real, y: real) | LineTo(x: real, y: real)

  /** The freehand paint: colour, stroke width, and whether the CLEAR transfer mode is set. */
  datatype DrawPaint = DrawPaint(color: int, strokeWidth: real, clearMode: bool)

  /** A path committed to the drawing layer with the paint it was drawn with. */
  datatype PathStroke = PathStroke(path: seq<PathOp>, paint: DrawPaint)

  /** One call of the image-dimension listener. */
  datatype DimensionNotice = DimensionNotice(rect: Rect, width: int, height: int)

  /** MotionEvent.getActionMasked() */
  datatype Action = Down | PointerDown | Move | Up | PointerUp | Cancel | OtherAction

  /**
   * The parts of a MotionEvent the view reads: the action, the first two pointers'
   * coordinates, the pointer count, the first pointer's id and the id of the
   * pointer the action is about.
   */
  datatype MotionEvent = MotionEvent(
    action: Action,
    x: real, y: real,
    x1: real, y1: real,
    pointerCount: nat,
    pointerId0: int,
    actionPointerId: int)

  /** Whether onTouchEvent returned true itself or passed the event on to View.onTouchEvent. */
  datatype TouchResult = Consumed | PassedToView

  /** The freehand-drawing fields: mode, brush, current path and the committed layer. */
  datatype Pen = Pen(
    isDrawingEnabled: bool,
    isErasing: bool,
    drawPath: seq<PathOp>,
    drawSize: real,
    drawColor: int,
    drawPaint: DrawPaint,
    hasDrawLayer: bool,               // drawCanvas != null
    strokes: seq<PathStroke>)         // what has been committed to canvasBitmap

  /** The background fields. */
  datatype Backdrop = Backdrop(
    background: Option<Bitmap>,
    original: Option<Bitmap>,
    imageRect: Rect,
    showBorder: bool)

  /** The fields that track the gesture in progress. */
  datatype Gesture = Gesture(
    currentDragged: Option<nat>,
    touchOffsetX: real,
    touchOffsetY: real,
    isMultiTouch: bool,
    midPoint: Point,
    oldDist: real,
    activePointerId: int,
    itemToZoom: Option<nat>,
    isRotating: bool,
    itemToRotate: Option<nat>,
    lastAngle: real,
    itemCenter: Point,
    lastClickTime: int)

  /** The out-of-bounds highlight and its fade. */
  datatype Highlight = Highlight(
    showClipBoundary: bool,
    clipHighlightAlpha: int,
    fadePending: Option<int>)         // delay of the posted fade runnable, if any

  datatype CanvasState = CanvasState(
    items: seq<Item>,                 // movableItems, bottom to top
    controls: seq<nat>,               // itemControls, by item id
    nextId: nat,
    pen: Pen,
    backdrop: Backdrop,
    gesture: Gesture,
    highlight: Highlight,
    editRequests: seq<nat>,           // ids passed to the text-edit listener
    dimensionNotices: seq<DimensionNotice>)

  /** The view as constructed. */
  function InitialState(): CanvasState
  {
    CanvasState([], [], 0,
                Pen(false, false, [], 10.0, BLACK, DrawPaint(BLACK, 10.0, false), false, []),
                Backdrop(None, None, Rect(0.0, 0.0, 0.0, 0.0), false),
                Gesture(None, 0.0, 0.0, false, Point(0.0, 0.0), 1.0, INVALID_POINTER_ID, None,
                        false, None, 0.0, Point(0.0, 0.0), 0),
                Highlight(false, 0, None), [], [])
  }

  // ---------------------------------------------------------------------------
  // The invariant the view keeps
  // ---------------------------------------------------------------------------

  predicate UniqueIds(items: seq<Item>)
  {
    forall i, j :: 0 <= i < j < |items| ==> items[i].id != items[j].id
  }

  /** Selection is exclusive, and the selected item is the only one with controls. */
  predicate SelectionValid(items: seq<Item>, controls: seq<nat>)
  {
    && (forall i, j :: 0 <= i < |items| && 0 <= j < |items| && items[i].isSelected && items[j].isSelected ==> i == j)
    && (forall i :: 0 <= i < |items| && items[i].isSelected ==> controls == [items[i].id])
    && |controls| <= 1
  }

  predicate ItemValid(it: Item)
  {
    && it.scale > 0.0
    && -FULL_TURN < it.rotation < FULL_TURN
    && (it.kind.ImageItem? ==> IsBitmap(it.kind.bitmap))
  }

  /** The item list, its controls and the id counter agree. */
  predicate ContentValid(items: seq<Item>, controls: seq<nat>, nextId: nat)
  {
    && UniqueIds(items)
    && (forall i :: 0 <= i < |items| ==> items[i].id < nextId)
    && (forall i :: 0 <= i < |items| ==> ItemValid(items[i]))
    && SelectionValid(items, controls)
  }

  /** The image rectangle is never inverted, and has area once a background is set. */
  predicate FrameValid(imageRect: Rect, hasBackground: bool)
  {
    && imageRect.Width() >= 0.0 && imageRect.Height() >= 0.0
    && (hasBackground ==> imageRect.Width() > 0.0 && imageRect.Height() > 0.0)
  }

  /** The highlight alpha is a multiple of the fade step between 0 and 180. */
  predicate AlphaValid(alpha: int)
  {
    0 <= alpha <= HIGHLIGHT_ALPHA && alpha % FADE_STEP == 0
  }

  predicate StateValid(s: CanvasState)
  {
    && ContentValid(s.items, s.controls, s.nextId)
    && FrameValid(s.backdrop.imageRect, s.backdrop.background.Some?)
    && AlphaValid(s.highlight.clipHighlightAlpha)
    && s.gesture.oldDist >= 0.0
  }

  /** A view with no items, no background and no highlight meets the invariant. */
  lemma EmptyStateValid(s: CanvasState)
    requires s.items == [] && s.controls == [] && s.backdrop.background.None?
    requires s.backdrop.imageRect.Width() == 0.0 && s.backdrop.imageRect.Height() == 0.0
    requires s.highlight.clipHighlightAlpha == 0 && s.gesture.oldDist >= 0.0
    ensures StateValid(s)
  {
  }

  /** What the constructor leaves in the item list, the background, the controls and the two counters. */
  lemma InitialItems()
    ensures InitialState().items == [] && InitialState().backdrop.background.None?
  { }

  lemma InitialBackdrop()
    ensures InitialState().backdrop.imageRect.Width() == 0.0 && InitialState().backdrop.imageRect.Height() == 0.0
  { }

  lemma InitialCounters()
    ensures InitialState().controls == []
    ensures InitialState().highlight.clipHighlightAlpha == 0 && InitialState().gesture.oldDist == 1.0
  { }

  lemma InitialStateValid()
    ensures StateValid(InitialState())
  {
    InitialItems();
    InitialBackdrop();
    InitialCounters();
    EmptyStateValid(InitialState());
  }

  // ---------------------------------------------------------------------------
  // Item lookups
  // ---------------------------------------------------------------------------

  /** `movableItems.find { it.isSelected }` */
  function FirstSelected(items: seq<Item>): (r: Option<nat>)
    ensures r.Some? ==> r.value < |items| && items[r.value].isSelected &&
                        forall j :: 0 <= j < r.value ==> !items[j].isSelected
    ensures r.None? ==> forall j :: 0 <= j < |items| ==> !items[j].isSelected
  {
    if |items| == 0 then None
    else if items[0].isSelected then Some(0)
    else match FirstSelected(items[1..])
      case Some(k) => Some(k + 1)
      case None => None
  }

  /** The position of the item with identity `id`. */
  function IndexOfId(items: seq<Item>, id: nat): (r: Option<nat>)
    ensures r.Some? ==> r.value < |items| && items[r.value].id == id &&
                        forall j :: 0 <= j < r.value ==> items[j].id != id
    ensures r.None? ==> forall j :: 0 <= j < |items| ==> items[j].id != id
  {
    if |items| == 0 then None
    else if items[0].id == id then Some(0)
    else match IndexOfId(items[1..], id)
      case Some(k) => Some(k + 1)
      case None => None
  }

  /** The box centre an item is rotated and scaled about. */
  function Center(pf: Platform, it: Item): Point
  {
    var b := LocalBounds(pf, it);
    Point(b.CenterX(), b.CenterY())
  }

  /** A screen point mapped into the item's unrotated, unscaled frame. */
  function ToLocal(pf: Platform, it: Item, x: real, y: real): Point
  {
    pf.invert(it.rotation, it.scale, Center(pf, it), Point(x, y))
  }

  /** ItemControls.getDeleteButtonRect: centred on the box's top-right corner. */
  function DeleteButtonRect(b: Rect): (r: Rect)
    ensures r.CenterX() == b.right && r.CenterY() == b.top
    ensures r.Width() == 2.0 * BUTTON_REACH && r.Height() == 2.0 * BUTTON_REACH
  {
    Rect(b.right - BUTTON_REACH, b.top - BUTTON_REACH, b.right + BUTTON_REACH, b.top + BUTTON_REACH)
  }

  /** ItemControls.getRotateButtonRect: centred on the box's bottom-left corner. */
  function RotateButtonRect(b: Rect): (r: Rect)
    ensures r.CenterX() == b.left && r.CenterY() == b.bottom
    ensures r.Width() == 2.0 * BUTTON_REACH && r.Height() == 2.0 * BUTTON_REACH
  {
    Rect(b.left - BUTTON_REACH, b.bottom - BUTTON_REACH, b.left + BUTTON_REACH, b.bottom + BUTTON_REACH)
  }

  /** The padded box findTouchedItem tests against. */
  function HitRect(pf: Platform, it: Item): Rect
  {
    LocalBounds(pf, it).Inset(-HIT_PADDING, -HIT_PADDING)
  }

  predicate Hits(pf: Platform, it: Item, x: real, y: real)
  {
    var p := ToLocal(pf, it, x, y);
    HitRect(pf, it).Contains(p.x, p.y)
  }

  /** findTouchedItem over the first `n` items: the topmost one whose padded box holds the point. */
  function TopmostHit(pf: Platform, items: seq<Item>, n: nat, x: real, y: real): (r: Option<nat>)
    requires n <= |items|
    ensures r.Some? ==> r.value < n && Hits(pf, items[r.value], x, y) &&
                        forall j :: r.value < j < n ==> !Hits(pf, items[j], x, y)
    ensures r.None? ==> forall j :: 0 <= j < n ==> !Hits(pf, items[j], x, y)
  {
    if n == 0 then None
    else if Hits(pf, items[n - 1], x, y) then Some(n - 1)
    else TopmostHit(pf, items, n - 1, x, y)
  }

  /** The padded box of an item, with no rotation and unit scale, is hit exactly inside itself. */
  lemma HitUntransformed(pf: Platform, it: Item, x: real, y: real)
    requires Lawful(pf) && it.rotation == 0.0 && it.scale == 1.0
    ensures Hits(pf, it, x, y) <==> HitRect(pf, it).Contains(x, y)
  {
    InvertIdentity(pf, Center(pf, it), Point(x, y));
  }

  // ---------------------------------------------------------------------------
  // Item list updates
  // ---------------------------------------------------------------------------

  /** `movableItems.forEach { it.isSelected = false }` */
  function Deselected(items: seq<Item>): (r: seq<Item>)
    ensures |r| == |items|
    ensures forall i :: 0 <= i < |items| ==> r[i] == items[i].(isSelected := false)
  {
    seq(|items|, i requires 0 <= i < |items| => items[i].(isSelected := false))
  }

  /** `movableItems.forEach { it.isSelected = (it == touched) }` */
  function SelectedOnly(items: seq<Item>, id: nat): (r: seq<Item>)
    ensures |r| == |items|
    ensures forall i :: 0 <= i < |items| ==> r[i] == items[i].(isSelected := items[i].id == id)
  {
    seq(|items|, i requires 0 <= i < |items| => items[i].(isSelected := items[i].id == id))
  }

  /** `movableItems.remove(item)` for the item at position k. */
  function RemoveAt(items: seq<Item>, k: nat): (r: seq<Item>)
    requires k < |items|
    ensures |r| == |items| - 1
    ensures forall i :: 0 <= i < k ==> r[i] == items[i]
    ensures forall i :: k <= i < |r| ==> r[i] == items[i + 1]
  {
    items[..k] + items[k + 1..]
  }

  /** `itemControls.removeAll { it.item == item }` */
  function WithoutId(ids: seq<nat>, id: nat): (r: seq<nat>)
    ensures id !in r
    ensures forall c :: c in r <==> c in ids && c != id
    ensures |r| <= |ids|
  {
    if |ids| == 0 then []
    else (if ids[0] == id then [] else [ids[0]]) + WithoutId(ids[1..], id)
  }

  // ---------------------------------------------------------------------------
  // Geometry helpers of the view
  // ---------------------------------------------------------------------------

  /** calculateAngle: the direction from the centre to the touch, in degrees. */
  function CalculateAngle(pf: Platform, cx: real, cy: real, tx: real, ty: real): (a: real)
    ensures Lawful(pf) ==> 0.0 <= a < FULL_TURN
  {
    var angle := pf.atan2Degrees(ty - cy, tx - cx);
    if angle < 0.0 then angle + FULL_TURN else angle
  }

  /** spacing(event): distance between the first two pointers. */
  function Spacing(pf: Platform, e: MotionEvent): (d: real)
    ensures Lawful(pf) ==> d >= 0.0
  {
    var dx := e.x - e.x1;
    var dy := e.y - e.y1;
    SquaresNonNegative(dx, dy);
    pf.sqrt(dx * dx + dy * dy)
  }

  lemma SquaresNonNegative(a: real, b: real)
    ensures a * a + b * b >= 0.0
  {
    if a < 0.0 { assert a * a == (-a) * (-a); }
    if b < 0.0 { assert b * b == (-b) * (-b); }
  }

  function MidPoint(e: MotionEvent): Point
  {
    Point((e.x + e.x1) / 2.0, (e.y + e.y1) / 2.0)
  }

  function Min(a: real, b: real): real { if a <= b then a else b }

  /** Float.coerceIn(lo, hi) */
  function CoerceIn(v: real, lo: real, hi: real): (r: real)
    requires lo <= hi
    ensures lo <= r <= hi
    ensures lo <= v <= hi ==> r == v
  {
    if v < lo then lo else if v > hi then hi else v
  }

  /** The touch lies outside the closed image rectangle. */
  predicate OutsideImage(r: Rect, x: real, y: real)
  {
    x < r.left || x > r.right || y < r.top || y > r.bottom
  }

  // ---------------------------------------------------------------------------
  // Boundary highlight and its fade
  // ---------------------------------------------------------------------------

  /** The box checkAndHighlightBoundaries compares: text unscaled, images scaled. */
  function HighlightBounds(pf: Platform, it: Item): Rect
  {
    match it.kind
    case TextItem(text, paint, _) => TextBounds(pf, text, it.x, it.y, paint)
    case ImageItem(b) =>
      Rect(it.x, it.y, it.x + b.width as real * it.scale, it.y + b.height as real * it.scale)
  }

  /** The image rectangle widened by the boundary margin on every side. */
  function Expanded(r: Rect): (e: Rect)
    ensures e.Width() == r.Width() + 2.0 * BOUNDARY_MARGIN && e.CenterX() == r.CenterX()
    ensures e.Height() == r.Height() + 2.0 * BOUNDARY_MARGIN && e.CenterY() == r.CenterY()
  {
    r.Inset(-BOUNDARY_MARGIN, -BOUNDARY_MARGIN)
  }

  /** checkAndHighlightBoundaries(item): an item leaving the widened image starts the highlight. */
  function CheckHighlight(pf: Platform, b: Backdrop, h: Highlight, it: Item): (r: Highlight)
    ensures b.background.None? || Expanded(b.imageRect).ContainsRect(HighlightBounds(pf, it)) ==> r == h
    ensures b.background.Some? && !Expanded(b.imageRect).ContainsRect(HighlightBounds(pf, it)) ==>
      r == Highlight(true, HIGHLIGHT_ALPHA, Some(FADE_START_DELAY))
  {
    if b.background.Some? && !Expanded(b.imageRect).ContainsRect(HighlightBounds(pf, it)) then
      Highlight(true, HIGHLIGHT_ALPHA, Some(FADE_START_DELAY))
    else h
  }

  /** clipHighlightRunnable.run(), dispatched by the handler once its delay is over. */
  function FadeRun(h: Highlight): Highlight
  {
    if h.clipHighlightAlpha > 0 then
      h.(clipHighlightAlpha := h.clipHighlightAlpha - FADE_STEP, fadePending := Some(FADE_FRAME_DELAY))
    else
      h.(showClipBoundary := false, fadePending := None)
  }

  /** The highlight after `n` runs of the runnable. */
  function FadeRuns(h: Highlight, n: nat): Highlight
  {
    if n == 0 then h else FadeRun(FadeRuns(h, n - 1))
  }

  /**
   * Once triggered, the highlight stays visible for 36 frames while its alpha
   * falls by 5 per frame from 180, and the 37th run hides it with nothing more posted.
   */
  lemma {:induction false} FadeTimeline(h: Highlight, n: nat)
    requires h.showClipBoundary && h.clipHighlightAlpha == HIGHLIGHT_ALPHA
    ensures var f := FadeRuns(h, n);
      && (n <= 36 ==> f.showClipBoundary && f.clipHighlightAlpha == HIGHLIGHT_ALPHA - FADE_STEP * n)
      && (1 <= n <= 36 ==> f.fadePending == Some(FADE_FRAME_DELAY))
      && (n >= 37 ==> !f.showClipBoundary && f.clipHighlightAlpha == 0 && f.fadePending == None)
  {
    if n > 0 {
      FadeTimeline(h, n - 1);
    }
  }

  // ---------------------------------------------------------------------------
  // The pinch
  // ---------------------------------------------------------------------------

  /** The scale after the 0.2..5 clamp; a zero starting distance divides to infinity. */
  function ClampedScale(it: Item, oldDist: real, newDist: real): (r: real)
    ensures MIN_SCALE <= r <= MAX_SCALE
  {
    if oldDist > 0.0 then CoerceIn(it.scale * (newDist / oldDist), MIN_SCALE, MAX_SCALE)
    else MAX_SCALE
  }

  /** The text caps: shrink so the unscaled box times the scale fits w × h. */
  function TextCapScale(cw: real, ch: real, ns: real, w: real, h: real): real
    requires w >= 0.0 && h >= 0.0
  {
    var s1 := if cw * ns > w then Min(ns, w / cw) else ns;
    if ch * ns > h then Min(s1, h / ch) else s1
  }

  /** The image caps: the width cap replaces the scale, the height cap takes the smaller. */
  function ImageCapScale(bw: real, bh: real, ns: real, w: real, h: real): real
    requires bw > 0.0 && bh > 0.0
  {
    var s1 := if bw * ns > w then w / bw else ns;
    if bh * ns > h then Min(s1, h / bh) else s1
  }

  /** The pinch step applied to the zoomed item, with the fit-to-image caps when a background is set. */
  function Zoomed(pf: Platform, b: Backdrop, oldDist: real, it: Item, newDist: real): Item
    requires b.imageRect.Width() >= 0.0 && b.imageRect.Height() >= 0.0
    requires it.kind.ImageItem? ==> IsBitmap(it.kind.bitmap)
  {
    var ns := ClampedScale(it, oldDist, newDist);
    if b.background.None? then it.(scale := ns)
    else match it.kind
      case TextItem(text, paint, _) =>
        var tb := TextBounds(pf, text, it.x, it.y, paint);
        it.(scale := TextCapScale(tb.Width(), tb.Height(), ns, b.imageRect.Width(), b.imageRect.Height()))
      case ImageItem(bmp) => ZoomedImage(it, bmp, ns, b.imageRect)
  }

  /** The image branch of the pinch inside the image rectangle `r` at clamped scale `ns`. */
  function ZoomedImage(it: Item, bmp: Bitmap, ns: real, r: Rect): Item
    requires IsBitmap(bmp)
  {
    var nw := bmp.width as real * ns;
    var nh := bmp.height as real * ns;
    var x := if it.x + nw > r.right then r.right - nw else it.x;
    var y := if it.y + nh > r.bottom then r.bottom - nh else it.y;
    it.(scale := ImageCapScale(bmp.width as real, bmp.height as real, ns, r.Width(), r.Height()), x := x, y := y)
  }

  // ---------------------------------------------------------------------------
  // Touch handling
  // ---------------------------------------------------------------------------

  datatype Outcome = Outcome(state: CanvasState, result: TouchResult)

  /** What ACTION_DOWN does, decided on the state before the event. */
  datatype DownCase =
    | DeleteButton(k: nat)   // the selected item at k is deleted
    | RotateButton(k: nat)   // rotation of the selected item at k starts
    | DoubleTap(j: nat)      // an edit of the selected text item at j is requested
    | Pick(j: nat)           // the item at j is selected and starts a drag
    | Miss                   // every item is deselected

  function ClassifyDown(pf: Platform, items: seq<Item>, lastClickTime: int, e: MotionEvent, now: int): (c: DownCase)
    ensures c.DeleteButton? || c.RotateButton? ==> c.k < |items| && items[c.k].isSelected
    ensures c.DoubleTap? || c.Pick? ==> c.j < |items| && Hits(pf, items[c.j], e.x, e.y)
    ensures c.DoubleTap? ==>
      items[c.j].isSelected && items[c.j].kind.TextItem? && now - lastClickTime < DOUBLE_CLICK_TIME_DELTA
  {
    var sel := FirstSelected(items);
    var onDelete := sel.Some? &&
      var it := items[sel.value];
      var p := ToLocal(pf, it, e.x, e.y);
      DeleteButtonRect(LocalBounds(pf, it)).Contains(p.x, p.y);
    var onRotate := sel.Some? &&
      var it := items[sel.value];
      var p := ToLocal(pf, it, e.x, e.y);
      RotateButtonRect(LocalBounds(pf, it)).Contains(p.x, p.y);
    if onDelete then DeleteButton(sel.value)
    else if onRotate then RotateButton(sel.value)
    else match TopmostHit(pf, items, |items|, e.x, e.y)
      case None => Miss
      case Some(j) =>
        if now - lastClickTime < DOUBLE_CLICK_TIME_DELTA && items[j].kind.TextItem? && items[j].isSelected
        then DoubleTap(j)
        else Pick(j)
  }

  /** ACTION_DOWN outside drawing mode. */
  function DownStep(pf: Platform, s: CanvasState, e: MotionEvent, now: int): Outcome
  {
    DownEffect(pf, s, e, now, ClassifyDown(pf, s.items, s.gesture.lastClickTime, e, now))
  }

  /** What ACTION_DOWN does once the touch has been classified as `c`. */
  function DownEffect(pf: Platform, s: CanvasState, e: MotionEvent, now: int, c: DownCase): Outcome
    requires c.DeleteButton? || c.RotateButton? ==> c.k < |s.items|
    requires c.DoubleTap? || c.Pick? ==> c.j < |s.items|
  {
    var g := ResetForDown(s.gesture, e);
    match c
    case DeleteButton(k) =>
      Outcome(s.(items := RemoveAt(s.items, k), controls := WithoutId(s.controls, s.items[k].id), gesture := g),
              Consumed)
    case RotateButton(k) =>
      var it := s.items[k];
      var c := Center(pf, it);
      Outcome(s.(gesture := g.(itemToRotate := Some(it.id), isRotating := true, itemCenter := c,
                                lastAngle := CalculateAngle(pf, c.x, c.y, e.x, e.y))), Consumed)
    case DoubleTap(j) =>
      var it := s.items[j];
      Outcome(s.(items := s.items[j := it.(doubleClickCount := it.doubleClickCount + 1)],
                 editRequests := s.editRequests + [it.id], gesture := g.(lastClickTime := 0)), Consumed)
    case Pick(j) =>
      var it := s.items[j];
      Outcome(s.(items := SelectedOnly(s.items, it.id), controls := [it.id],
                 gesture := g.(lastClickTime := now, currentDragged := Some(it.id),
                               touchOffsetX := e.x - it.x, touchOffsetY := e.y - it.y)), Consumed)
    case Miss =>
      Outcome(s.(items := Deselected(s.items), controls := [], gesture := g), PassedToView)
  }

  /** The gesture flags ACTION_DOWN resets. */
  function ResetForDown(g: Gesture, e: MotionEvent): Gesture
  {
    g.(isMultiTouch := false, isRotating := false, activePointerId := e.pointerId0)
  }

  /** Resetting the flags first changes nothing, since the effect resets them anyway. */
  lemma DownEffectAfterReset(pf: Platform, s: CanvasState, e: MotionEvent, now: int, c: DownCase)
    requires c.DeleteButton? || c.RotateButton? ==> c.k < |s.items|
    requires c.DoubleTap? || c.Pick? ==> c.j < |s.items|
    ensures DownEffect(pf, s.(gesture := ResetForDown(s.gesture, e)), e, now, c) == DownEffect(pf, s, e, now, c)
  {
  }

  /** ACTION_POINTER_DOWN outside drawing mode. */
  function PointerDownStep(pf: Platform, items: seq<Item>, g: Gesture, e: MotionEvent): Gesture
  {
    if e.pointerCount != 2 then g
    else match FirstSelected(items)
      case None => g.(itemToZoom := None)
      case Some(k) =>
        var d := Spacing(pf, e);
        var g1 := g.(itemToZoom := Some(items[k].id), oldDist := d);
        if d > PINCH_DEAD_ZONE then
          g1.(midPoint := MidPoint(e), isMultiTouch := true, currentDragged := None, isRotating := false)
        else g1
  }

  /** Kotlin's `rotation += delta; rotation %= 360f`. */
  function Rotated(it: Item, delta: real): (r: Item)
    ensures -FULL_TURN < r.rotation < FULL_TURN
    ensures r == it.(rotation := r.rotation)
  {
    it.(rotation := KotlinRem(it.rotation + delta, FULL_TURN))
  }

  /** The rotate branch of ACTION_MOVE. */
  function RotateStep(pf: Platform, s: CanvasState, e: MotionEvent): CanvasState
    requires s.gesture.itemToRotate.Some?
  {
    var g := s.gesture;
    var newAngle := CalculateAngle(pf, g.itemCenter.x, g.itemCenter.y, e.x, e.y);
    var items := match IndexOfId(s.items, g.itemToRotate.value)
      case Some(k) => s.items[k := Rotated(s.items[k], newAngle - g.lastAngle)]
      case None => s.items;
    s.(items := items, gesture := g.(lastAngle := newAngle))
  }

  /** The pinch branch of ACTION_MOVE. */
  function PinchStep(pf: Platform, s: CanvasState, e: MotionEvent): CanvasState
    requires s.gesture.itemToZoom.Some?
    requires s.backdrop.imageRect.Width() >= 0.0 && s.backdrop.imageRect.Height() >= 0.0
    requires forall i :: 0 <= i < |s.items| ==> ItemValid(s.items[i])
  {
    var newDist := Spacing(pf, e);
    if newDist > PINCH_DEAD_ZONE then
      var items := match IndexOfId(s.items, s.gesture.itemToZoom.value)
        case Some(k) =>
          assert ItemValid(s.items[k]);
          s.items[k := Zoomed(pf, s.backdrop, s.gesture.oldDist, s.items[k], newDist)]
        case None => s.items;
      s.(items := items, gesture := s.gesture.(oldDist := newDist))
    else s
  }

  /** moveItemWithConstraints: follow the finger by the recorded offset, then check the boundary. */
  function DragStep(pf: Platform, s: CanvasState, e: MotionEvent): CanvasState
    requires s.gesture.currentDragged.Some?
  {
    match IndexOfId(s.items, s.gesture.currentDragged.value)
    case None => s
    case Some(k) =>
      var moved := s.items[k].(x := e.x - s.gesture.touchOffsetX, y := e.y - s.gesture.touchOffsetY);
      s.(items := s.items[k := moved], highlight := CheckHighlight(pf, s.backdrop, s.highlight, moved))
  }

  /** ACTION_MOVE outside drawing mode. */
  function MoveStep(pf: Platform, s: CanvasState, e: MotionEvent): Outcome
    requires s.backdrop.imageRect.Width() >= 0.0 && s.backdrop.imageRect.Height() >= 0.0
    requires forall i :: 0 <= i < |s.items| ==> ItemValid(s.items[i])
  {
    var g := s.gesture;
    if g.isRotating && g.itemToRotate.Some? then Outcome(RotateStep(pf, s, e), Consumed)
    else if g.isMultiTouch && e.pointerCount == 2 && g.itemToZoom.Some? then Outcome(PinchStep(pf, s, e), Consumed)
    else if g.currentDragged.Some? then Outcome(DragStep(pf, s, e), Consumed)
    else Outcome(s, PassedToView)
  }

  /** The transient gesture state cleared by pointer-up and cancel. */
  function ResetGesture(g: Gesture): Gesture
  {
    g.(activePointerId := INVALID_POINTER_ID, currentDragged := None, isMultiTouch := false,
       itemToZoom := None, isRotating := false, itemToRotate := None)
  }

  /** ACTION_UP and ACTION_POINTER_UP outside drawing mode. */
  function UpStep(g: Gesture, e: MotionEvent): Gesture
  {
    if e.actionPointerId == g.activePointerId then ResetGesture(g) else g
  }

  /** Draw `path` onto the drawing layer, when there is one. */
  function Commit(p: Pen, path: seq<PathOp>): seq<PathStroke>
  {
    if p.hasDrawLayer then p.strokes + [PathStroke(path, p.drawPaint)] else p.strokes
  }

  /** Drawing mode: the path follows the finger; the pen commits on lift, the eraser on every move. */
  function FreehandStep(p: Pen, e: MotionEvent): Pen
  {
    var p0 := p.(drawPaint := p.drawPaint.(color := p.drawColor));
    match e.action
    case Down => p0.(drawPath := p0.drawPath + [MoveTo(e.x, e.y)])
    case Move =>
      var path := p0.drawPath + [LineTo(e.x, e.y)];
      if p0.isErasing then p0.(strokes := Commit(p0, path), drawPath := [MoveTo(e.x, e.y)])
      else p0.(drawPath := path)
    case Up => p0.(strokes := Commit(p0, p0.drawPath), drawPath := [])
    case _ => p0
  }

  /** onTouchEvent(event), with `now` standing for System.currentTimeMillis(). */
  function Touch(pf: Platform, s: CanvasState, e: MotionEvent, now: int): Outcome
    requires s.backdrop.imageRect.Width() >= 0.0 && s.backdrop.imageRect.Height() >= 0.0
    requires forall i :: 0 <= i < |s.items| ==> ItemValid(s.items[i])
  {
    if s.backdrop.background.Some? && OutsideImage(s.backdrop.imageRect, e.x, e.y) then Outcome(s, Consumed)
    else if s.pen.isDrawingEnabled then Outcome(s.(pen := FreehandStep(s.pen, e)), Consumed)
    else GestureStep(pf, s, e, now)
  }

  /** The item gestures, by action, when drawing mode is off. */
  function GestureStep(pf: Platform, s: CanvasState, e: MotionEvent, now: int): Outcome
    requires s.backdrop.imageRect.Width() >= 0.0 && s.backdrop.imageRect.Height() >= 0.0
    requires forall i :: 0 <= i < |s.items| ==> ItemValid(s.items[i])
  {
    match e.action
      case Down => DownStep(pf, s, e, now)
      case PointerDown => Outcome(s.(gesture := PointerDownStep(pf, s.items, s.gesture, e)), Consumed)
      case Move => MoveStep(pf, s, e)
      case Up => Outcome(s.(gesture := UpStep(s.gesture, e)), Consumed)
      case PointerUp => Outcome(s.(gesture := UpStep(s.gesture, e)), Consumed)
      case Cancel => Outcome(s.(gesture := ResetGesture(s.gesture)), Consumed)
      case OtherAction => Outcome(s, PassedToView)
  }

  // ---------------------------------------------------------------------------
  // Modes and paint
  // ---------------------------------------------------------------------------

  function SetEraseMode(p: Pen, erase: bool): Pen
  {
    if erase then
      p.(isErasing := true, drawPaint := p.drawPaint.(clearMode := true, strokeWidth := ERASER_WIDTH))
    else
      p.(isErasing := false,
         drawPaint := p.drawPaint.(clearMode := false, color := p.drawColor, strokeWidth := p.drawSize))
  }

  function EnableDrawing(p: Pen, enabled: bool): Pen
  {
    SetEraseMode(p, false).(isDrawingEnabled := enabled)
  }

  function SetDrawingSize(p: Pen, size: real): Pen
  {
    p.(drawSize := size, drawPaint := p.drawPaint.(strokeWidth := size))
  }

  function SetPaintColor(p: Pen, color: int): Pen
  {
    var p1 := SetEraseMode(p, false).(isDrawingEnabled := true, drawColor := color);
    p1.(drawPaint := p1.drawPaint.(color := color))
  }

  function ClearDrawings(p: Pen): Pen
  {
    if p.hasDrawLayer then p.(strokes := []) else p
  }

  // ---------------------------------------------------------------------------
  // Background and new items
  // ---------------------------------------------------------------------------

  function MinReal(a: real, b: real): real { if a <= b then a else b }

  /** Bitmap side after scaling by `factor`, truncated, exactly as written. */
  function ScaledSideAsWritten(side: int, factor: real): int
  {
    Trunc(side as real * factor)
  }

  /** Bitmap side after scaling by `factor`: truncated, but never below one pixel. */
  function ScaledSide(side: int, factor: real): (r: int)
    ensures r >= 1
    ensures r == ScaledSideAsWritten(side, factor) || ScaledSideAsWritten(side, factor) < 1
  {
    var t := Trunc(side as real * factor);
    if t < 1 then 1 else t
  }

  /** The fit-and-centre factor for a bitmap in a width × height view. */
  function FitFactor(width: int, height: int, b: Bitmap): real
    requires IsBitmap(b)
  {
    MinReal(width as real / b.width as real, height as real / b.height as real)
  }

  /** The background, its rectangle and the size notice for a bitmap (or none) in the view. */
  function FitBackdrop(width: int, height: int, bitmap: Option<Bitmap>): (Backdrop, DimensionNotice)
    requires width > 0 && height > 0
    requires bitmap.Some? ==> IsBitmap(bitmap.value)
  {
    match bitmap
    case Some(b) =>
      var factor := FitFactor(width, height, b);
      var sw := ScaledSide(b.width, factor);
      var sh := ScaledSide(b.height, factor);
      var left := (width - sw) as real / 2.0;
      var top := (height - sh) as real / 2.0;
      var r := Rect(left, top, left + sw as real, top + sh as real);
      (Backdrop(Some(Bitmap(sw, sh)), Some(b), r, false), DimensionNotice(r, sw, sh))
    case None =>
      var r := Rect(0.0, 0.0, width as real, height as real);
      (Backdrop(Some(Bitmap(width, height)), None, r, false), DimensionNotice(r, width, height))
  }

  /** setBackgroundBitmap(bitmap) in a view of the given size. */
  function SetBackground(s: CanvasState, width: int, height: int, bitmap: Option<Bitmap>): CanvasState
    requires width > 0 && height > 0
    requires bitmap.Some? ==> IsBitmap(bitmap.value)
  {
    var (b, notice) := FitBackdrop(width, height, bitmap);
    s.(backdrop := b, dimensionNotices := s.dimensionNotices + [notice],
       pen := s.pen.(hasDrawLayer := true, strokes := [], isDrawingEnabled := false, isErasing := false),
       items := [])
  }

  /** resetToOriginalBitmap() */
  function ResetToOriginal(s: CanvasState, width: int, height: int): CanvasState
    requires width > 0 && height > 0
    requires s.backdrop.original.Some? ==> IsBitmap(s.backdrop.original.value)
  {
    if s.backdrop.original.Some? then
      SetBackground(s.(pen := ClearDrawings(s.pen)), width, height, s.backdrop.original)
    else s
  }

  /**
   * The new text item addTextItem(text, style) builds, as the frame that
   * `invalidate()` schedules leaves it: onDraw runs applyStyle() on every styled
   * text item before drawing it, so from then on its paint carries the style's
   * face, stroke and shadow.
   */
  function NewText(s: CanvasState, text: string, style: Option<TextStyle>): Item
  {
    var color := match style case Some(st) => st.textColor case None => RED;
    var size := match style case Some(st) => st.textSize case None => DEFAULT_TEXT_SIZE;
    var paint := NewPaint(color, size);
    var r := s.backdrop.imageRect;
    var bg := s.backdrop.background.Some?;
    var x := if bg then r.left + (r.right - r.left) / 4.0 else 300.0;
    var y := if bg then r.top + (r.bottom - r.top) / 2.0 + size / 2.0 else 900.0;
    var created := NewTextItem(s.nextId, text, x, y, paint, style).(scale := 1.0, isSelected := true);
    created.(kind := ApplyStyle(created.kind))
  }

  /** addTextItem(text, style) */
  function AddText(s: CanvasState, text: string, style: Option<TextStyle>): CanvasState
  {
    var item := NewText(s, text, style);
    s.(pen := s.pen.(isDrawingEnabled := false, isErasing := false), items := Deselected(s.items) + [item],
       controls := [item.id], nextId := s.nextId + 1)
  }

  /** The down-scaling factor addStickerItem picks for an oversized sticker. */
  function StickerRatio(w: int, h: int): real
    requires w > 0 && h > 0
  {
    if w > h then STICKER_MAX_SIDE as real / w as real else STICKER_MAX_SIDE as real / h as real
  }

  /** The sanitised sticker size exactly as written. */
  function SanitizedSizeAsWritten(w: int, h: int): (int, int)
    requires w > 0 && h > 0
  {
    if w > STICKER_MAX_SIDE || h > STICKER_MAX_SIDE then
      (Trunc(w as real * StickerRatio(w, h)), Trunc(h as real * StickerRatio(w, h)))
    else (w, h)
  }

  /** The sanitised sticker size, with each side kept at one pixel or more. */
  function SanitizedSize(w: int, h: int): (int, int)
    requires w > 0 && h > 0
  {
    if w > STICKER_MAX_SIDE || h > STICKER_MAX_SIDE then
      (ScaledSide(w, StickerRatio(w, h)), ScaledSide(h, StickerRatio(w, h)))
    else (w, h)
  }

  /** The new sticker item addStickerItem builds for bitmap `b`. */
  function StickerItem(s: CanvasState, width: int, height: int, b: Bitmap): Item
    requires IsBitmap(b)
  {
    var (sw, sh) := SanitizedSize(b.width, b.height);
    var r := s.backdrop.imageRect;
    var bg := s.backdrop.background.Some?;
    var cx := if bg then r.left + (r.right - r.left) / 2.0 else width as real / 2.0;
    var cy := if bg then r.top + (r.bottom - r.top) / 2.0 else height as real / 2.0;
    NewImageItem(s.nextId, Bitmap(sw, sh), cx - (sw / 2) as real, cy - (sh / 2) as real)
      .(scale := STICKER_TARGET_WIDTH / sw as real, isSelected := true)
  }

  /** addStickerItem(bitmap) in a view of the given size. */
  function AddSticker(s: CanvasState, width: int, height: int, b: Bitmap): CanvasState
    requires IsBitmap(b)
  {
    var item := StickerItem(s, width, height, b);
    s.(pen := s.pen.(isDrawingEnabled := false, isErasing := false), items := Deselected(s.items) + [item],
       controls := [item.id], nextId := s.nextId + 1)
  }

  /** updateTextItem(item, style) for the item with identity `id`. */
  function UpdateText(items: seq<Item>, id: nat, style: TextStyle): seq<Item>
  {
    match IndexOfId(items, id)
    case None => items
    case Some(k) =>
      var it := items[k];
      if it.kind.TextItem? then
        items[k := it.(kind := ApplyStyle(TextItem(style.text, it.kind.paint, style)))]
      else items
  }
}
