/**
 * canvas/DrawOnImageView.kt as a class: the item list, the item controls, and the
 * pen, background, gesture and highlight fields of the view, updated in place by
 * the touch handler and the public editing calls. Every method is proved to move
 * the view from one state of the CanvasModel transition system to the next, and
 * the public entry points to keep the view's invariant.
 *
 * The view's many scalar fields are kept in four record-valued fields, one per
 * concern: `pen` (isDrawingEnabled, isErasing, drawPath, drawSize, drawColor,
 * drawPaint, drawCanvas and what it holds), `backdrop` (backgroundBitmap,
 * originalBackgroundBitmap, imageRect*, showBorder), `gesture` (currentDraggedItem,
 * touchOffsetX/Y, isMultiTouch, midPoint, oldDist, activePointerId, itemToZoom,
 * isRotating, itemToRotate, lastAngle, itemCenterX/Y, lastClickTime) and
 * `highlight` (showClipBoundary, clipHighlightAlpha, the posted fade runnable).
 * Items are referred to by their identity `id`.
 */
module Canvas {
  import opened Wrappers
  import opened Graphics
  import opened TextStyles
  import opened Items
  import opened CanvasModel
  import opened CanvasProperties
  import opened CanvasInvariant

  /** Dropping the identity `id` from a list that grows by one element at the end. */
  lemma {:induction false} WithoutIdAppend(ids: seq<nat>, c: nat, id: nat)
    ensures WithoutId(ids + [c], id) == WithoutId(ids, id) + (if c == id then [] else [c])
  {
    if |ids| == 0 {
      assert ids + [c] == [c];
    } else {
      assert (ids + [c])[1..] == ids[1..] + [c];
      WithoutIdAppend(ids[1..], c, id);
    }
  }

  class DrawOnImageView {
    /** The platform functions the view calls. */
    const platform: Platform
    /** The laid-out size of the view (`width`, `height`). */
    const viewWidth: int
    const viewHeight: int

    var movableItems: seq<Item>
    var itemControls: seq<nat>
    var nextItemId: nat
    var pen: Pen
    var backdrop: Backdrop
    var gesture: Gesture
    var highlight: Highlight
    /** The items handed to the text-edit listener, in order. */
    var editRequests: seq<nat>
    /** The calls made to the image-dimension listener, in order. */
    var dimensionNotices: seq<DimensionNotice>

    function Snapshot(): CanvasState
      reads this
    {
      CanvasState(movableItems, itemControls, nextItemId, pen, backdrop, gesture, highlight,
                  editRequests, dimensionNotices)
    }

    ghost predicate Valid()
      reads this
    {
      && Lawful(platform)
      && viewWidth > 0 && viewHeight > 0
      && StateValid(Snapshot())
      && (backdrop.original.Some? ==> IsBitmap(backdrop.original.value))
    }

    constructor (pf: Platform, width: int, height: int)
      requires Lawful(pf) && width > 0 && height > 0
      ensures platform == pf && viewWidth == width && viewHeight == height
      ensures Snapshot() == InitialState()
      ensures Valid()
    {
      platform := pf;
      viewWidth := width;
      viewHeight := height;
      movableItems := [];
      itemControls := [];
      nextItemId := 0;
      pen := Pen(false, false, [], 10.0, BLACK, DrawPaint(BLACK, 10.0, false), false, []);
      backdrop := Backdrop(None, None, Rect(0.0, 0.0, 0.0, 0.0), false);
      gesture := Gesture(None, 0.0, 0.0, false, Point(0.0, 0.0), 1.0, INVALID_POINTER_ID, None,
                         false, None, 0.0, Point(0.0, 0.0), 0);
      highlight := Highlight(false, 0, None);
      editRequests := [];
      dimensionNotices := [];
      new;
      assert Snapshot() == InitialState();
      InitialStateValid();
    }

    // -------------------------------------------------------------------------
    // Lookups
    // -------------------------------------------------------------------------

    /** `movableItems.find { it.isSelected }` */
    method FindSelected() returns (r: Option<nat>)
      ensures r == FirstSelected(movableItems)
    {
      var i := 0;
      while i < |movableItems|
        invariant 0 <= i <= |movableItems|
        invariant forall j :: 0 <= j < i ==> !movableItems[j].isSelected
      {
        if movableItems[i].isSelected {
          return Some(i);
        }
        i := i + 1;
      }
      return None;
    }

    /** The position of the item with identity `id`, standing for an object reference. */
    method IndexOf(id: nat) returns (r: Option<nat>)
      ensures r == IndexOfId(movableItems, id)
    {
      var i := 0;
      while i < |movableItems|
        invariant 0 <= i <= |movableItems|
        invariant forall j :: 0 <= j < i ==> movableItems[j].id != id
      {
        if movableItems[i].id == id {
          return Some(i);
        }
        i := i + 1;
      }
      return None;
    }

    /** findTouchedItem(x, y): scan from the topmost item down. */
    method FindTouchedItem(x: real, y: real) returns (r: Option<nat>)
      ensures r == TopmostHit(platform, movableItems, |movableItems|, x, y)
    {
      var i := |movableItems|;
      while i > 0
        invariant 0 <= i <= |movableItems|
        invariant TopmostHit(platform, movableItems, |movableItems|, x, y) ==
                  TopmostHit(platform, movableItems, i, x, y)
      {
        var item := movableItems[i - 1];
        var p := ToLocal(platform, item, x, y);
        if HitRect(platform, item).Contains(p.x, p.y) {
          return Some(i - 1);
        }
        i := i - 1;
      }
      return None;
    }

    method HasBackgroundBitmap() returns (r: bool)
      ensures r <==> backdrop.background.Some?
    {
      return backdrop.background.Some?;
    }

    // -------------------------------------------------------------------------
    // Selection and controls
    // -------------------------------------------------------------------------

    /** `movableItems.forEach { it.isSelected = false }` */
    method DeselectAll()
      modifies this
      ensures Snapshot() == old(Snapshot()).(items := Deselected(old(movableItems)))
    {
      var items := movableItems;
      var i := 0;
      while i < |items|
        invariant 0 <= i <= |items| && |items| == |movableItems|
        invariant forall k :: 0 <= k < i ==> items[k] == movableItems[k].(isSelected := false)
        invariant forall k :: i <= k < |items| ==> items[k] == movableItems[k]
      {
        items := items[i := items[i].(isSelected := false)];
        i := i + 1;
      }
      assert items == Deselected(movableItems);
      movableItems := items;
    }

    /** `movableItems.forEach { it.isSelected = (it == touchedItem) }` */
    method SelectOnly(id: nat)
      modifies this
      ensures Snapshot() == old(Snapshot()).(items := SelectedOnly(old(movableItems), id))
    {
      var items := movableItems;
      var i := 0;
      while i < |items|
        invariant 0 <= i <= |items| && |items| == |movableItems|
        invariant forall k :: 0 <= k < i ==> items[k] == movableItems[k].(isSelected := movableItems[k].id == id)
        invariant forall k :: i <= k < |items| ==> items[k] == movableItems[k]
      {
        items := items[i := items[i].(isSelected := items[i].id == id)];
        i := i + 1;
      }
      assert items == SelectedOnly(movableItems, id);
      movableItems := items;
    }

    /** `itemControls.removeAll { it.item == item }` */
    method RemoveControlsFor(id: nat)
      modifies this
      ensures Snapshot() == old(Snapshot()).(controls := WithoutId(old(itemControls), id))
    {
      var controls := itemControls;
      var kept: seq<nat> := [];
      var i := 0;
      while i < |controls|
        invariant 0 <= i <= |controls|
        invariant kept == WithoutId(controls[..i], id)
        modifies {}
      {
        assert controls[..i + 1] == controls[..i] + [controls[i]];
        WithoutIdAppend(controls[..i], controls[i], id);
        if controls[i] != id {
          kept := kept + [controls[i]];
        }
        i := i + 1;
      }
      assert controls[..i] == controls;
      itemControls := kept;
    }

    // -------------------------------------------------------------------------
    // onTouchEvent
    // -------------------------------------------------------------------------

    /** onTouchEvent(event), with `now` standing for System.currentTimeMillis(). */
    method OnTouchEvent(e: MotionEvent, now: int) returns (res: TouchResult)
      requires Valid()
      modifies this
      ensures Outcome(Snapshot(), res) == Touch(platform, old(Snapshot()), e, now)
      ensures Valid()
    {
      ghost var s0 := Snapshot();
      TouchValid(platform, s0, e, now);
      TouchKeepsBackdrop(platform, s0, e, now);
      if backdrop.background.Some? && OutsideImage(backdrop.imageRect, e.x, e.y) {
        return Consumed;
      }
      if !pen.isDrawingEnabled {
        res := HandleGesture(e, now);
      } else {
        DrawFreehand(e);
        res := Consumed;
      }
    }

    /** The `when (event.actionMasked)` of the item gestures. */
    method HandleGesture(e: MotionEvent, now: int) returns (res: TouchResult)
      requires Valid()
      modifies this
      ensures Outcome(Snapshot(), res) == GestureStep(platform, old(Snapshot()), e, now)
    {
      match e.action
      case Down =>
        res := HandleDown(e, now);
      case PointerDown =>
        HandlePointerDown(e);
        res := Consumed;
      case Move =>
        res := HandleMove(e);
      case Up =>
        HandleLift(e);
        res := Consumed;
      case PointerUp =>
        HandleLift(e);
        res := Consumed;
      case Cancel =>
        ResetTransientState();
        res := Consumed;
      case OtherAction =>
        res := PassedToView;
    }

    /**
     * The tests ACTION_DOWN makes, in the handler's order: the selected item's delete
     * button, then its rotate button, then the topmost item under the finger and
     * whether this is a quick second tap on an already selected text.
     */
    method ClassifyTouchDown(e: MotionEvent, now: int) returns (c: DownCase)
      ensures c == ClassifyDown(platform, movableItems, gesture.lastClickTime, e, now)
    {
      var selected := FindSelected();
      if selected.Some? {
        var item := movableItems[selected.value];
        var bounds := LocalBounds(platform, item);
        var p := ToLocal(platform, item, e.x, e.y);
        if DeleteButtonRect(bounds).Contains(p.x, p.y) {
          return DeleteButton(selected.value);
        }
        if RotateButtonRect(bounds).Contains(p.x, p.y) {
          return RotateButton(selected.value);
        }
      }
      var touched := FindTouchedItem(e.x, e.y);
      if touched.None? {
        return Miss;
      }
      var item := movableItems[touched.value];
      if now - gesture.lastClickTime < DOUBLE_CLICK_TIME_DELTA && item.kind.TextItem? && item.isSelected {
        return DoubleTap(touched.value);
      }
      return Pick(touched.value);
    }

    /** ACTION_DOWN outside drawing mode. */
    method HandleDown(e: MotionEvent, now: int) returns (res: TouchResult)
      modifies this
      ensures Outcome(Snapshot(), res) == DownStep(platform, old(Snapshot()), e, now)
    {
      ghost var s0 := Snapshot();
      gesture := gesture.(isMultiTouch := false, isRotating := false);
      gesture := gesture.(activePointerId := e.pointerId0);
      assert Snapshot() == s0.(gesture := ResetForDown(s0.gesture, e));
      var c := ClassifyTouchDown(e, now);
      DownEffectAfterReset(platform, s0, e, now, c);
      res := ApplyDown(c, e, now);
    }

    /** The effect of ACTION_DOWN once the gesture flags are reset and the touch is classified. */
    method ApplyDown(c: DownCase, e: MotionEvent, now: int) returns (res: TouchResult)
      requires c.DeleteButton? || c.RotateButton? ==> c.k < |movableItems|
      requires c.DoubleTap? || c.Pick? ==> c.j < |movableItems|
      requires !gesture.isMultiTouch && !gesture.isRotating && gesture.activePointerId == e.pointerId0
      modifies this
      ensures Outcome(Snapshot(), res) == DownEffect(platform, old(Snapshot()), e, now, c)
    {
      match c
      case DeleteButton(k) =>
        DeleteItem(k);
        res := Consumed;
      case RotateButton(k) =>
        StartRotation(k, e);
        res := Consumed;
      case DoubleTap(j) =>
        RequestTextEdit(j);
        res := Consumed;
      case Pick(j) =>
        StartDrag(j, e, now);
        res := Consumed;
      case Miss =>
        DeselectAll();
        itemControls := [];
        res := PassedToView;
    }

    /** A touch on the delete button: the selected item and its controls go. */
    method DeleteItem(k: nat)
      requires k < |movableItems|
      modifies this
      ensures Snapshot() == old(Snapshot()).(items := RemoveAt(old(movableItems), k),
                                             controls := WithoutId(old(itemControls), old(movableItems)[k].id))
    {
      var item := movableItems[k];
      movableItems := movableItems[..k] + movableItems[k + 1..];
      RemoveControlsFor(item.id);
    }

    /** A touch on the rotate button: rotation about the item's centre starts. */
    method StartRotation(k: nat, e: MotionEvent)
      requires k < |movableItems|
      modifies this
      ensures var it := old(movableItems)[k];
        var c := Center(platform, it);
        Snapshot() == old(Snapshot()).(gesture := old(gesture).(itemToRotate := Some(it.id), isRotating := true,
          itemCenter := c, lastAngle := CalculateAngle(platform, c.x, c.y, e.x, e.y)))
    {
      var item := movableItems[k];
      gesture := gesture.(itemToRotate := Some(item.id), isRotating := true);
      var center := Center(platform, item);
      gesture := gesture.(itemCenter := center);
      gesture := gesture.(lastAngle := CalculateAngle(platform, center.x, center.y, e.x, e.y));
    }

    /** A quick second tap on the selected text: the edit listener is called. */
    method RequestTextEdit(j: nat)
      requires j < |movableItems|
      modifies this
      ensures var it := old(movableItems)[j];
        Snapshot() == old(Snapshot()).(items := old(movableItems)[j := it.(doubleClickCount := it.doubleClickCount + 1)],
                                       editRequests := old(editRequests) + [it.id],
                                       gesture := old(gesture).(lastClickTime := 0))
    {
      var item := movableItems[j];
      movableItems := movableItems[j := item.(doubleClickCount := item.doubleClickCount + 1)];
      editRequests := editRequests + [item.id];
      gesture := gesture.(lastClickTime := 0);
    }

    /** A touch on an item: it alone is selected and starts to follow the finger. */
    method StartDrag(j: nat, e: MotionEvent, now: int)
      requires j < |movableItems|
      modifies this
      ensures var it := old(movableItems)[j];
        Snapshot() == old(Snapshot()).(items := SelectedOnly(old(movableItems), it.id), controls := [it.id],
                                       gesture := old(gesture).(lastClickTime := now, currentDragged := Some(it.id),
                                                                touchOffsetX := e.x - it.x, touchOffsetY := e.y - it.y))
    {
      var item := movableItems[j];
      gesture := gesture.(lastClickTime := now);
      gesture := gesture.(currentDragged := Some(item.id));
      gesture := gesture.(touchOffsetX := e.x - item.x, touchOffsetY := e.y - item.y);
      SelectOnly(item.id);
      itemControls := [];
      if movableItems[j].isSelected {
        itemControls := itemControls + [item.id];
      }
    }

    /** ACTION_POINTER_DOWN outside drawing mode. */
    method HandlePointerDown(e: MotionEvent)
      modifies this
      ensures Snapshot() == old(Snapshot()).(gesture := PointerDownStep(platform, old(movableItems), old(gesture), e))
    {
      if e.pointerCount == 2 {
        var k := FindSelected();
        if k.None? {
          gesture := gesture.(itemToZoom := None);
        } else {
          gesture := gesture.(itemToZoom := Some(movableItems[k.value].id));
          gesture := gesture.(oldDist := Spacing(platform, e));
          if gesture.oldDist > PINCH_DEAD_ZONE {
            gesture := gesture.(midPoint := MidPoint(e));
            gesture := gesture.(isMultiTouch := true);
            gesture := gesture.(currentDragged := None);
            gesture := gesture.(isRotating := false);
          }
        }
      }
    }

    /** ACTION_MOVE outside drawing mode: rotate, else pinch, else drag. */
    method HandleMove(e: MotionEvent) returns (res: TouchResult)
      requires Valid()
      modifies this
      ensures Outcome(Snapshot(), res) == MoveStep(platform, old(Snapshot()), e)
    {
      if gesture.isRotating && gesture.itemToRotate.Some? {
        RotateMove(e);
        return Consumed;
      } else if gesture.isMultiTouch && e.pointerCount == 2 && gesture.itemToZoom.Some? {
        PinchMove(e);
        return Consumed;
      } else if gesture.currentDragged.Some? {
        var k := IndexOf(gesture.currentDragged.value);
        if k.Some? {
          MoveItemWithConstraints(k.value, e.x, e.y);
        }
        return Consumed;
      }
      return PassedToView;
    }

    /** The rotate branch of ACTION_MOVE. */
    method RotateMove(e: MotionEvent)
      requires gesture.itemToRotate.Some?
      modifies this
      ensures Snapshot() == RotateStep(platform, old(Snapshot()), e)
    {
      var newAngle := CalculateAngle(platform, gesture.itemCenter.x, gesture.itemCenter.y, e.x, e.y);
      var angleDiff := newAngle - gesture.lastAngle;
      var k := IndexOf(gesture.itemToRotate.value);
      if k.Some? {
        var item := movableItems[k.value];
        item := item.(rotation := item.rotation + angleDiff);
        item := item.(rotation := KotlinRem(item.rotation, FULL_TURN));
        movableItems := movableItems[k.value := item];
      }
      gesture := gesture.(lastAngle := newAngle);
    }

    /** The pinch branch of ACTION_MOVE. */
    method PinchMove(e: MotionEvent)
      requires Valid() && gesture.itemToZoom.Some?
      modifies this
      ensures Snapshot() == PinchStep(platform, old(Snapshot()), e)
    {
      var newDist := Spacing(platform, e);
      if newDist > PINCH_DEAD_ZONE {
        var k := IndexOf(gesture.itemToZoom.value);
        if k.Some? {
          assert ItemValid(movableItems[k.value]);
          var item := ZoomItem(movableItems[k.value], newDist);
          movableItems := movableItems[k.value := item];
        }
        gesture := gesture.(oldDist := newDist);
      }
    }

    /** The new scale of the zoomed item, clamped, and capped to the image when there is one. */
    method ZoomItem(item: Item, newDist: real) returns (r: Item)
      requires backdrop.imageRect.Width() >= 0.0 && backdrop.imageRect.Height() >= 0.0
      requires ItemValid(item)
      ensures r == Zoomed(platform, backdrop, gesture.oldDist, item, newDist)
    {
      // scale = newDist / oldDist, newScale = (scale * item.scale).coerceIn(0.2f, 5.0f)
      var newScale := ClampedScale(item, gesture.oldDist, newDist);
      if backdrop.background.None? {
        return item.(scale := newScale);
      }
      match item.kind
      case TextItem(text, paint, _) =>
        var bounds := TextBounds(platform, text, item.x, item.y, paint);
        newScale := CapTextScale(bounds.Width(), bounds.Height(), newScale);
        r := item.(scale := newScale);
      case ImageItem(bmp) =>
        r := ZoomImage(item, bmp, newScale);
    }

    /** The text caps of the pinch. */
    method CapTextScale(currentWidth: real, currentHeight: real, scale: real) returns (newScale: real)
      requires backdrop.imageRect.Width() >= 0.0 && backdrop.imageRect.Height() >= 0.0
      ensures newScale == TextCapScale(currentWidth, currentHeight, scale,
                                       backdrop.imageRect.Width(), backdrop.imageRect.Height())
    {
      var w := backdrop.imageRect.right - backdrop.imageRect.left;
      var h := backdrop.imageRect.bottom - backdrop.imageRect.top;
      newScale := scale;
      var newWidth := currentWidth * newScale;
      var newHeight := currentHeight * newScale;
      if newWidth > w {
        newScale := Min(newScale, w / currentWidth);
      }
      if newHeight > h {
        newScale := Min(newScale, h / currentHeight);
      }
    }

    /** The image caps of the pinch, and the shift that keeps the right and bottom edges inside. */
    method ZoomImage(item: Item, bmp: Bitmap, scale: real) returns (r: Item)
      requires IsBitmap(bmp)
      ensures r == ZoomedImage(item, bmp, scale, backdrop.imageRect)
    {
      var rect := backdrop.imageRect;
      var newWidth := bmp.width as real * scale;
      var newHeight := bmp.height as real * scale;
      var newScale := CapImageScale(bmp, scale, rect.right - rect.left, rect.bottom - rect.top);
      var x := item.x;
      if x + newWidth > rect.right {
        x := rect.right - newWidth;
      }
      var y := item.y;
      if y + newHeight > rect.bottom {
        y := rect.bottom - newHeight;
      }
      r := item.(scale := newScale, x := x, y := y);
    }

    /** The two caps of zoomImage: the zoomed bitmap no wider than w and no taller than h. */
    static method CapImageScale(bmp: Bitmap, scale: real, w: real, h: real) returns (newScale: real)
      requires IsBitmap(bmp)
      ensures newScale == ImageCapScale(bmp.width as real, bmp.height as real, scale, w, h)
    {
      newScale := scale;
      if bmp.width as real * scale > w {
        newScale := w / bmp.width as real;
      }
      if bmp.height as real * scale > h {
        newScale := Min(newScale, h / bmp.height as real);
      }
    }

    /** moveItemWithConstraints(item, x, y) for the item at position k. */
    method MoveItemWithConstraints(k: nat, x: real, y: real)
      requires k < |movableItems|
      modifies this
      ensures var moved := old(movableItems[k]).(x := x - old(gesture.touchOffsetX), y := y - old(gesture.touchOffsetY));
        Snapshot() == old(Snapshot()).(items := old(movableItems)[k := moved],
                                       highlight := CheckHighlight(platform, old(backdrop), old(highlight), moved))
    {
      var item := movableItems[k];
      item := item.(x := x - gesture.touchOffsetX, y := y - gesture.touchOffsetY);
      movableItems := movableItems[k := item];
      CheckAndHighlightBoundaries(item);
    }

    /** checkAndHighlightBoundaries(item) */
    method CheckAndHighlightBoundaries(item: Item)
      modifies this
      ensures Snapshot() == old(Snapshot()).(highlight := CheckHighlight(platform, old(backdrop), old(highlight), item))
    {
      if backdrop.background.None? {
        return;
      }
      var itemBounds := HighlightBounds(platform, item);
      var r := backdrop.imageRect;
      var expanded := Rect(r.left - BOUNDARY_MARGIN, r.top - BOUNDARY_MARGIN,
                           r.right + BOUNDARY_MARGIN, r.bottom + BOUNDARY_MARGIN);
      if !expanded.ContainsRect(itemBounds) {
        highlight := highlight.(showClipBoundary := true, clipHighlightAlpha := HIGHLIGHT_ALPHA);
        // any pending fade is removed and the fade is posted again
        highlight := highlight.(fadePending := Some(FADE_START_DELAY));
      }
    }

    /** ACTION_UP and ACTION_POINTER_UP: only the active pointer ends the gesture. */
    method HandleLift(e: MotionEvent)
      modifies this
      ensures Snapshot() == old(Snapshot()).(gesture := UpStep(old(gesture), e))
    {
      if e.actionPointerId == gesture.activePointerId {
        ResetTransientState();
      }
    }

    /** The gesture fields cleared when the active pointer lifts and on ACTION_CANCEL. */
    method ResetTransientState()
      modifies this
      ensures Snapshot() == old(Snapshot()).(gesture := ResetGesture(old(gesture)))
    {
      gesture := gesture.(activePointerId := INVALID_POINTER_ID);
      gesture := gesture.(currentDragged := None);
      gesture := gesture.(isMultiTouch := false);
      gesture := gesture.(itemToZoom := None);
      gesture := gesture.(isRotating := false);
      gesture := gesture.(itemToRotate := None);
    }

    /** The drawing-mode branch of onTouchEvent. */
    method DrawFreehand(e: MotionEvent)
      modifies this
      ensures Snapshot() == old(Snapshot()).(pen := FreehandStep(old(pen), e))
    {
      pen := pen.(drawPaint := pen.drawPaint.(color := pen.drawColor));
      match e.action
      case Down =>
        pen := pen.(drawPath := pen.drawPath + [MoveTo(e.x, e.y)]);
      case Move =>
        pen := pen.(drawPath := pen.drawPath + [LineTo(e.x, e.y)]);
        if pen.isErasing {
          if pen.hasDrawLayer {
            pen := pen.(strokes := pen.strokes + [PathStroke(pen.drawPath, pen.drawPaint)]);
          }
          pen := pen.(drawPath := []);
          pen := pen.(drawPath := pen.drawPath + [MoveTo(e.x, e.y)]);
        }
      case Up =>
        if pen.hasDrawLayer {
          pen := pen.(strokes := pen.strokes + [PathStroke(pen.drawPath, pen.drawPaint)]);
        }
        pen := pen.(drawPath := []);
      case _ =>
    }

    /** One run of clipHighlightRunnable, dispatched by the handler once its delay is over. */
    method RunFade()
      requires Valid()
      modifies this
      ensures Snapshot() == old(Snapshot()).(highlight := FadeRun(old(highlight)))
      ensures Valid()
    {
      FadeValid(Snapshot());
      if highlight.clipHighlightAlpha > 0 {
        highlight := highlight.(clipHighlightAlpha := highlight.clipHighlightAlpha - FADE_STEP);
        highlight := highlight.(fadePending := Some(FADE_FRAME_DELAY));
      } else {
        highlight := highlight.(showClipBoundary := false, fadePending := None);
      }
    }

    // -------------------------------------------------------------------------
    // Drawing mode and paint
    // -------------------------------------------------------------------------

    method SetEraseMode(erase: bool)
      requires Valid()
      modifies this
      ensures Snapshot() == old(Snapshot()).(pen := CanvasModel.SetEraseMode(old(pen), erase))
      ensures Valid()
    {
      PenChangeValid(Snapshot(), CanvasModel.SetEraseMode(pen, erase));
      pen := pen.(isErasing := erase);
      if pen.isErasing {
        pen := pen.(drawPaint := pen.drawPaint.(clearMode := true));
        pen := pen.(drawPaint := pen.drawPaint.(strokeWidth := ERASER_WIDTH));
      } else {
        pen := pen.(drawPaint := pen.drawPaint.(clearMode := false));
        pen := pen.(drawPaint := pen.drawPaint.(color := pen.drawColor));
        pen := pen.(drawPaint := pen.drawPaint.(strokeWidth := pen.drawSize));
      }
    }

    method EnableDrawing(enabled: bool)
      requires Valid()
      modifies this
      ensures Snapshot() == old(Snapshot()).(pen := CanvasModel.EnableDrawing(old(pen), enabled))
      ensures Valid()
    {
      SetEraseMode(false);
      PenChangeValid(Snapshot(), pen.(isDrawingEnabled := enabled));
      pen := pen.(isDrawingEnabled := enabled);
    }

    method SetDrawingSize(size: real)
      requires Valid()
      modifies this
      ensures Snapshot() == old(Snapshot()).(pen := CanvasModel.SetDrawingSize(old(pen), size))
      ensures Valid()
    {
      PenChangeValid(Snapshot(), CanvasModel.SetDrawingSize(pen, size));
      pen := pen.(drawSize := size);
      pen := pen.(drawPaint := pen.drawPaint.(strokeWidth := size));
    }

    method SetPaintColor(color: int)
      requires Valid()
      modifies this
      ensures Snapshot() == old(Snapshot()).(pen := CanvasModel.SetPaintColor(old(pen), color))
      ensures Valid()
    {
      SetEraseMode(false);
      ghost var p := pen.(isDrawingEnabled := true, drawColor := color);
      PenChangeValid(Snapshot(), p.(drawPaint := p.drawPaint.(color := color)));
      pen := pen.(isDrawingEnabled := true);
      pen := pen.(drawColor := color);
      pen := pen.(drawPaint := pen.drawPaint.(color := pen.drawColor));
    }

    /** clearDrawings(): erase the drawing layer, when there is one. */
    method ClearDrawings()
      requires Valid()
      modifies this
      ensures Snapshot() == old(Snapshot()).(pen := CanvasModel.ClearDrawings(old(pen)))
      ensures Valid()
    {
      PenChangeValid(Snapshot(), CanvasModel.ClearDrawings(pen));
      if pen.hasDrawLayer {
        pen := pen.(strokes := []);
      }
    }

    // -------------------------------------------------------------------------
    // Background
    // -------------------------------------------------------------------------

    /** setBackgroundBitmap(bitmap) */
    method SetBackgroundBitmap(bitmap: Option<Bitmap>)
      requires Valid()
      requires bitmap.Some? ==> IsBitmap(bitmap.value)
      modifies this
      ensures Snapshot() == SetBackground(old(Snapshot()), viewWidth, viewHeight, bitmap)
      ensures Valid()
    {
      BackgroundValid(Snapshot(), viewWidth, viewHeight, bitmap);
      if bitmap.Some? {
        var b := bitmap.value;
        backdrop := backdrop.(original := Some(b));
        var scaleX := viewWidth as real / b.width as real;
        var scaleY := viewHeight as real / b.height as real;
        var scaleFactor := MinReal(scaleX, scaleY);
        var scaledWidth := ScaledSide(b.width, scaleFactor);
        var scaledHeight := ScaledSide(b.height, scaleFactor);
        var left := (viewWidth - scaledWidth) as real / 2.0;
        var top := (viewHeight - scaledHeight) as real / 2.0;
        var r := Rect(left, top, left + scaledWidth as real, top + scaledHeight as real);
        backdrop := backdrop.(imageRect := r);
        backdrop := backdrop.(background := Some(Bitmap(scaledWidth, scaledHeight)));
        dimensionNotices := dimensionNotices + [DimensionNotice(r, scaledWidth, scaledHeight)];
      } else {
        backdrop := backdrop.(original := None);
        backdrop := backdrop.(background := Some(Bitmap(viewWidth, viewHeight)));
        var r := Rect(0.0, 0.0, viewWidth as real, viewHeight as real);
        backdrop := backdrop.(imageRect := r);
        dimensionNotices := dimensionNotices + [DimensionNotice(r, viewWidth, viewHeight)];
      }
      // a fresh, transparent drawing layer
      pen := pen.(hasDrawLayer := true, strokes := []);
      pen := pen.(isDrawingEnabled := false);
      pen := pen.(isErasing := false);
      backdrop := backdrop.(showBorder := false);
      movableItems := [];
    }

    /** resetToOriginalBitmap() */
    method ResetToOriginalBitmap()
      requires Valid()
      modifies this
      ensures Snapshot() == ResetToOriginal(old(Snapshot()), viewWidth, viewHeight)
      ensures Valid()
    {
      if backdrop.original.Some? {
        ClearDrawings();
        SetBackgroundBitmap(backdrop.original);
      }
    }

    /**
     * clearBackground(): the background is replaced by a transparent bitmap of the
     * same dimensions, so with bitmaps known only by their size nothing changes.
     */
    method ClearBackground()
      requires Valid()
      modifies this
      ensures Snapshot() == old(Snapshot())
      ensures Valid()
    {
      if backdrop.background.Some? {
        var b := backdrop.background.value;
        backdrop := backdrop.(background := Some(Bitmap(b.width, b.height)));
      }
    }

    // -------------------------------------------------------------------------
    // Items
    // -------------------------------------------------------------------------

    /** addTextItem(text, textStyle) */
    method AddTextItem(text: string, style: Option<TextStyle>)
      requires Valid()
      modifies this
      ensures Snapshot() == AddText(old(Snapshot()), text, style)
      ensures Valid()
    {
      AddTextValid(Snapshot(), text, style);
      pen := pen.(isDrawingEnabled := false);
      pen := pen.(isErasing := false);
      DeselectAll();
      itemControls := [];

      var color := if style.Some? then style.value.textColor else RED;
      var size := if style.Some? then style.value.textSize else DEFAULT_TEXT_SIZE;
      var paint := NewPaint(color, size);
      var r := backdrop.imageRect;
      var x := if backdrop.background.Some? then r.left + (r.right - r.left) / 4.0 else 300.0;
      var y := if backdrop.background.Some? then r.top + (r.bottom - r.top) / 2.0 + paint.textSize / 2.0 else 900.0;
      var item := NewTextItem(nextItemId, text, x, y, paint, style);
      item := item.(scale := 1.0);
      item := item.(isSelected := true);
      // the next onDraw restyles the item with its style
      item := item.(kind := ApplyStyle(item.kind));
      assert item == NewText(old(Snapshot()), text, style);
      nextItemId := nextItemId + 1;

      movableItems := movableItems + [item];
      itemControls := itemControls + [item.id];
    }

    /** addStickerItem(bitmap) */
    method AddStickerItem(bitmap: Bitmap)
      requires Valid() && IsBitmap(bitmap)
      modifies this
      ensures Snapshot() == AddSticker(old(Snapshot()), viewWidth, viewHeight, bitmap)
      ensures Valid()
    {
      AddStickerValid(Snapshot(), viewWidth, viewHeight, bitmap);
      pen := pen.(isDrawingEnabled := false);
      pen := pen.(isErasing := false);
      DeselectAll();
      itemControls := [];

      var width: int, height: int;
      if bitmap.width > STICKER_MAX_SIDE || bitmap.height > STICKER_MAX_SIDE {
        var scaleRatio := StickerRatio(bitmap.width, bitmap.height);
        width := ScaledSide(bitmap.width, scaleRatio);
        height := ScaledSide(bitmap.height, scaleRatio);
      } else {
        width, height := bitmap.width, bitmap.height;
      }
      assert (width, height) == SanitizedSize(bitmap.width, bitmap.height);
      var sanitized := Bitmap(width, height);
      var initialScale := STICKER_TARGET_WIDTH / sanitized.width as real;

      var x: real, y: real;
      var r := backdrop.imageRect;
      if backdrop.background.Some? {
        var imageCenterX := r.left + (r.right - r.left) / 2.0;
        var imageCenterY := r.top + (r.bottom - r.top) / 2.0;
        x := imageCenterX - (sanitized.width / 2) as real;
        y := imageCenterY - (sanitized.height / 2) as real;
      } else {
        var viewCenterX := viewWidth as real / 2.0;
        var viewCenterY := viewHeight as real / 2.0;
        x := viewCenterX - (sanitized.width / 2) as real;
        y := viewCenterY - (sanitized.height / 2) as real;
      }

      var item := NewImageItem(nextItemId, sanitized, x, y);
      item := item.(scale := initialScale);
      item := item.(isSelected := true);
      assert item == StickerItem(old(Snapshot()), viewWidth, viewHeight, bitmap);
      nextItemId := nextItemId + 1;

      movableItems := movableItems + [item];
      itemControls := itemControls + [item.id];
    }

    /** updateTextItem(textItem, textStyle) for the item with identity `id`. */
    method UpdateTextItem(id: nat, style: TextStyle)
      requires Valid()
      modifies this
      ensures Snapshot() == old(Snapshot()).(items := UpdateText(old(movableItems), id, style))
      ensures Valid()
    {
      UpdateTextValid(Snapshot(), id, style);
      var k := IndexOf(id);
      if k.Some? && movableItems[k.value].kind.TextItem? {
        var item := movableItems[k.value];
        var kind := TextItem(style.text, item.kind.paint, style);
        item := item.(kind := ApplyStyle(kind));
        movableItems := movableItems[k.value := item];
      }
    }
  }
}
