/** What the canvas transitions promise: selection, deletion, double-tap, pinch, rotation, drawing. */
module CanvasProperties {
  import opened Wrappers
  import opened Graphics
  import opened TextStyles
  import opened Items
  import opened CanvasModel

  // ---------------------------------------------------------------------------
  // ACTION_DOWN
  // ---------------------------------------------------------------------------

  /** Touching an item selects it and nothing else, gives it the only controls and starts a drag. */
  lemma PickSelectsExactly(pf: Platform, s: CanvasState, e: MotionEvent, now: int, j: nat)
    requires UniqueIds(s.items)
    requires ClassifyDown(pf, s.items, s.gesture.lastClickTime, e, now) == Pick(j)
    ensures var o := DownStep(pf, s, e, now);
      && o.result == Consumed
      && |o.state.items| == |s.items|
      && (forall i :: 0 <= i < |s.items| ==> (o.state.items[i].isSelected <==> i == j))
      && (forall i :: 0 <= i < |s.items| ==> o.state.items[i].(isSelected := false) == s.items[i].(isSelected := false))
      && o.state.controls == [s.items[j].id]
      && o.state.gesture.currentDragged == Some(s.items[j].id)
      && o.state.gesture.touchOffsetX == e.x - s.items[j].x && o.state.gesture.touchOffsetY == e.y - s.items[j].y
      && o.state.gesture.lastClickTime == now
      && o.state.editRequests == s.editRequests
  {
  }

  /** Touching empty canvas deselects everything, hides the controls and passes the event on. */
  lemma MissDeselectsAll(pf: Platform, s: CanvasState, e: MotionEvent, now: int)
    requires ClassifyDown(pf, s.items, s.gesture.lastClickTime, e, now) == Miss
    ensures var o := DownStep(pf, s, e, now);
      && o.result == PassedToView
      && |o.state.items| == |s.items|
      && (forall i :: 0 <= i < |s.items| ==> !o.state.items[i].isSelected)
      && (forall i :: 0 <= i < |s.items| ==> o.state.items[i].(isSelected := false) == s.items[i].(isSelected := false))
      && o.state.controls == []
      && o.state.gesture.currentDragged == s.gesture.currentDragged
  {
  }

  /**
   * The delete button removes exactly the selected item, keeps the others in
   * order, drops its controls and changes nothing else but the gesture flags.
   */
  lemma DeleteRemovesExactly(pf: Platform, s: CanvasState, e: MotionEvent, now: int, k: nat)
    requires ContentValid(s.items, s.controls, s.nextId)
    requires ClassifyDown(pf, s.items, s.gesture.lastClickTime, e, now) == DeleteButton(k)
    ensures var o := DownStep(pf, s, e, now);
      && o.result == Consumed
      && o.state.items == s.items[..k] + s.items[k + 1..]
      && (forall i :: 0 <= i < |o.state.items| ==> o.state.items[i].id != s.items[k].id)
      && o.state.controls == []
      && (forall i :: 0 <= i < |o.state.items| ==> !o.state.items[i].isSelected)
      && o.state.(items := s.items, controls := s.controls)
         == s.(gesture := s.gesture.(isMultiTouch := false, isRotating := false, activePointerId := e.pointerId0))
  {
    var o := DownStep(pf, s, e, now);
    forall i | 0 <= i < |o.state.items|
      ensures o.state.items[i].id != s.items[k].id && !o.state.items[i].isSelected
    {
      if i < k { assert o.state.items[i] == s.items[i]; }
      else { assert o.state.items[i] == s.items[i + 1]; }
    }
    assert s.controls == [s.items[k].id];
  }

  /** The rotate button starts a rotation about the item's centre from the touch's angle. */
  lemma RotateButtonStartsRotation(pf: Platform, s: CanvasState, e: MotionEvent, now: int, k: nat)
    requires Lawful(pf)
    requires ClassifyDown(pf, s.items, s.gesture.lastClickTime, e, now) == RotateButton(k)
    ensures var o := DownStep(pf, s, e, now);
      && o.result == Consumed
      && o.state.gesture.isRotating && o.state.gesture.itemToRotate == Some(s.items[k].id)
      && o.state.gesture.itemCenter == Center(pf, s.items[k])
      && 0.0 <= o.state.gesture.lastAngle < FULL_TURN
      && o.state.items == s.items && o.state.controls == s.controls
  {
  }

  /** A second tap on a selected text item asks for exactly one edit of it and changes no item but its counter. */
  lemma DoubleTapRequestsEdit(pf: Platform, s: CanvasState, e: MotionEvent, now: int, j: nat)
    requires ClassifyDown(pf, s.items, s.gesture.lastClickTime, e, now) == DoubleTap(j)
    ensures var o := DownStep(pf, s, e, now);
      && o.result == Consumed
      && o.state.editRequests == s.editRequests + [s.items[j].id]
      && o.state.items == s.items[j := s.items[j].(doubleClickCount := s.items[j].doubleClickCount + 1)]
      && o.state.gesture.lastClickTime == 0
      && o.state.controls == s.controls && o.state.gesture.currentDragged == s.gesture.currentDragged
  {
  }

  /** A tap 300 ms or more after the previous one never requests an edit. */
  lemma SlowTapNoEdit(pf: Platform, s: CanvasState, e: MotionEvent, now: int)
    requires now - s.gesture.lastClickTime >= DOUBLE_CLICK_TIME_DELTA
    ensures !ClassifyDown(pf, s.items, s.gesture.lastClickTime, e, now).DoubleTap?
    ensures DownStep(pf, s, e, now).state.editRequests == s.editRequests
  {
  }

  /**
   * A double tap resets the click clock to zero, so the next tap at a time of
   * 300 or later is an ordinary tap, not a second double tap.
   */
  lemma NoDoubleTapAfterDoubleTap(pf: Platform, s: CanvasState, e: MotionEvent, now: int,
                                  e2: MotionEvent, later: int, j: nat)
    requires ClassifyDown(pf, s.items, s.gesture.lastClickTime, e, now) == DoubleTap(j)
    requires later >= DOUBLE_CLICK_TIME_DELTA
    ensures var s1 := DownStep(pf, s, e, now).state;
      !ClassifyDown(pf, s1.items, s1.gesture.lastClickTime, e2, later).DoubleTap?
  {
    DoubleTapRequestsEdit(pf, s, e, now, j);
  }

  /** With no selected item a buttons hit is impossible: the down is a pick or a miss. */
  lemma NoButtonsWithoutSelection(pf: Platform, items: seq<Item>, last: int, e: MotionEvent, now: int)
    requires forall i :: 0 <= i < |items| ==> !items[i].isSelected
    ensures var c := ClassifyDown(pf, items, last, e, now);
      && (c.Pick? || c.Miss?)
      && (c.Miss? <==> TopmostHit(pf, items, |items|, e.x, e.y).None?)
      && (c.Pick? ==> TopmostHit(pf, items, |items|, e.x, e.y) == Some(c.j))
  {
  }

  // ---------------------------------------------------------------------------
  // Drag
  // ---------------------------------------------------------------------------

  /** After picking an item, moving the finger moves the item by the same amount. */
  lemma {:induction false} DragFollowsFinger(pf: Platform, s: CanvasState, e: MotionEvent, now: int, j: nat,
                                             e2: MotionEvent)
    requires StateValid(s)
    requires ClassifyDown(pf, s.items, s.gesture.lastClickTime, e, now) == Pick(j)
    ensures var s1 := DownStep(pf, s, e, now).state;
      && s1.backdrop == s.backdrop
      && (forall i :: 0 <= i < |s1.items| ==> ItemValid(s1.items[i]))
      && var o := MoveStep(pf, s1, e2);
      && o.result == Consumed
      && |o.state.items| == |s.items|
      && o.state.items[j].x == s.items[j].x + (e2.x - e.x)
      && o.state.items[j].y == s.items[j].y + (e2.y - e.y)
      && (forall i :: 0 <= i < |s.items| && i != j ==> o.state.items[i] == s1.items[i])
  {
    var s1 := DownStep(pf, s, e, now).state;
    PickSelectsExactly(pf, s, e, now, j);
    forall i | 0 <= i < |s1.items| ensures ItemValid(s1.items[i]) && s1.items[i].id == s.items[i].id {
      assert s1.items[i] == s.items[i].(isSelected := s.items[i].id == s.items[j].id);
    }
    assert UniqueIds(s1.items);
    var k := IndexOfId(s1.items, s.items[j].id);
    assert k == Some(j);
  }

  // ---------------------------------------------------------------------------
  // Gesture end
  // ---------------------------------------------------------------------------

  /** Lifting the tracked pointer ends every gesture, so a following move is passed on untouched. */
  lemma LiftEndsGesture(pf: Platform, s: CanvasState, e: MotionEvent, e2: MotionEvent)
    requires e.actionPointerId == s.gesture.activePointerId
    requires s.backdrop.imageRect.Width() >= 0.0 && s.backdrop.imageRect.Height() >= 0.0
    requires forall i :: 0 <= i < |s.items| ==> ItemValid(s.items[i])
    ensures var g := UpStep(s.gesture, e);
      && g.activePointerId == INVALID_POINTER_ID
      && g.currentDragged.None? && g.itemToZoom.None? && g.itemToRotate.None?
      && !g.isMultiTouch && !g.isRotating
      && MoveStep(pf, s.(gesture := g), e2) == Outcome(s.(gesture := g), PassedToView)
  {
  }

  /** A lift of some other pointer changes nothing. */
  lemma OtherLiftIgnored(g: Gesture, e: MotionEvent)
    requires e.actionPointerId != g.activePointerId
    ensures UpStep(g, e) == g
  {
  }

  /** With a background, a touch outside the image is swallowed and changes nothing. */
  lemma OutsideTouchIgnored(pf: Platform, s: CanvasState, e: MotionEvent, now: int)
    requires s.backdrop.imageRect.Width() >= 0.0 && s.backdrop.imageRect.Height() >= 0.0
    requires forall i :: 0 <= i < |s.items| ==> ItemValid(s.items[i])
    requires s.backdrop.background.Some? && OutsideImage(s.backdrop.imageRect, e.x, e.y)
    ensures Touch(pf, s, e, now) == Outcome(s, Consumed)
  {
  }

  /** No touch event changes the background, the original bitmap or the image rectangle. */
  lemma TouchKeepsBackdrop(pf: Platform, s: CanvasState, e: MotionEvent, now: int)
    requires s.backdrop.imageRect.Width() >= 0.0 && s.backdrop.imageRect.Height() >= 0.0
    requires forall i :: 0 <= i < |s.items| ==> ItemValid(s.items[i])
    ensures Touch(pf, s, e, now).state.backdrop == s.backdrop
  {
  }

  // ---------------------------------------------------------------------------
  // Pinch and rotation
  // ---------------------------------------------------------------------------

  /** A pinch starts only with two pointers on a selected item spread more than the dead zone apart. */
  lemma PinchStart(pf: Platform, items: seq<Item>, g: Gesture, e: MotionEvent)
    requires Lawful(pf)
    ensures var g1 := PointerDownStep(pf, items, g, e);
      && (g.oldDist >= 0.0 ==> g1.oldDist >= 0.0)
      && (g1.isMultiTouch && !g.isMultiTouch ==>
            e.pointerCount == 2 && FirstSelected(items).Some? && g1.oldDist > PINCH_DEAD_ZONE &&
            g1.currentDragged.None? && !g1.isRotating && g1.midPoint == MidPoint(e))
      && (g1.itemToZoom != g.itemToZoom ==> e.pointerCount == 2)
  {
    if e.pointerCount == 2 && FirstSelected(items).Some? {
      assert Spacing(pf, e) >= 0.0;
    }
  }

  lemma MulDivCancel(a: real, b: real)
    requires b > 0.0
    ensures b * (a / b) == a
  {
  }

  /** One text cap: `if (c * ns > limit) min(cur, limit / c) else cur`. */
  lemma {:induction false} TextCapStep(c: real, ns: real, cur: real, limit: real)
    requires c >= 0.0 && limit > 0.0 && 0.0 < cur <= ns
    ensures var r := if c * ns > limit then Min(cur, limit / c) else cur;
      0.0 < r <= cur && (c * ns > limit ==> c * r <= limit)
  {
    if c * ns > limit {
      assert c > 0.0;
      MulDivCancel(limit, c);
      var r := Min(cur, limit / c);
      MulMono(c, r, limit / c);
    }
  }

  /** The text caps keep the scale positive and at most the clamped one, and make the box fit. */
  lemma {:induction false} TextCapFits(cw: real, ch: real, ns: real, w: real, h: real)
    requires cw >= 0.0 && ch >= 0.0 && w > 0.0 && h > 0.0 && 0.0 < ns
    ensures var sc := TextCapScale(cw, ch, ns, w, h);
      0.0 < sc <= ns && cw * sc <= w && ch * sc <= h
  {
    var s1 := if cw * ns > w then Min(ns, w / cw) else ns;
    TextCapStep(cw, ns, ns, w);
    var s2 := if ch * ns > h then Min(s1, h / ch) else s1;
    TextCapStep(ch, ns, s1, h);
    assert s2 == TextCapScale(cw, ch, ns, w, h);
    assert cw * s2 <= w by {
      MulMono(cw, s2, s1);
      if cw * ns <= w { MulMono(cw, s1, ns); }
    }
    assert ch * s2 <= h by {
      if ch * ns <= h { MulMono(ch, s2, ns); }
    }
  }

  /** The image caps keep the scale positive and at most the clamped one, and make the bitmap fit. */
  lemma {:induction false} ImageCapFits(bw: real, bh: real, ns: real, w: real, h: real)
    requires bw > 0.0 && bh > 0.0 && w > 0.0 && h > 0.0 && 0.0 < ns
    ensures var sc := ImageCapScale(bw, bh, ns, w, h);
      0.0 < sc <= ns && bw * sc <= w && bh * sc <= h
  {
    var s1 := if bw * ns > w then w / bw else ns;
    var s2 := ImageCapScale(bw, bh, ns, w, h);
    MulDivCancel(w, bw);
    MulDivCancel(h, bh);
    if bw * ns > w { MulMono(bw, w / bw, ns); } else { MulMono(bw, s1, ns); }
    assert 0.0 < s1 <= ns && bw * s1 <= w;
    if bh * ns > h {
      assert s2 == Min(s1, h / bh);
      MulMono(bh, s2, h / bh);
    } else {
      assert s2 == s1;
      MulMono(bh, s2, ns);
    }
    MulMono(bw, s2, s1);
  }

  /** Without a background the pinch only sets the clamped scale. */
  lemma ZoomFree(pf: Platform, b: Backdrop, oldDist: real, it: Item, newDist: real)
    requires ItemValid(it)
    requires b.imageRect.Width() >= 0.0 && b.imageRect.Height() >= 0.0
    requires b.background.None?
    ensures var z := Zoomed(pf, b, oldDist, it, newDist);
      z == it.(scale := ClampedScale(it, oldDist, newDist)) && MIN_SCALE <= z.scale <= MAX_SCALE
  {
  }

  /** With a background a pinched text item's unscaled box, times the scale, fits the image. */
  lemma {:induction false} ZoomTextFits(pf: Platform, b: Backdrop, oldDist: real, it: Item, newDist: real)
    requires Lawful(pf)
    requires it.kind.TextItem?
    requires b.background.Some? && b.imageRect.Width() > 0.0 && b.imageRect.Height() > 0.0
    ensures var z := Zoomed(pf, b, oldDist, it, newDist);
      var tb := TextBounds(pf, it.kind.text, it.x, it.y, it.kind.paint);
      && z == it.(scale := z.scale)
      && 0.0 < z.scale <= ClampedScale(it, oldDist, newDist)
      && tb.Width() * z.scale <= b.imageRect.Width() && tb.Height() * z.scale <= b.imageRect.Height()
  {
    var ns := ClampedScale(it, oldDist, newDist);
    var tb := TextBounds(pf, it.kind.text, it.x, it.y, it.kind.paint);
    TextBoundsNonEmpty(pf, it.kind.text, it.x, it.y, it.kind.paint);
    TextCapFits(tb.Width(), tb.Height(), ns, b.imageRect.Width(), b.imageRect.Height());
    assert Zoomed(pf, b, oldDist, it, newDist) ==
      it.(scale := TextCapScale(tb.Width(), tb.Height(), ns, b.imageRect.Width(), b.imageRect.Height()));
  }

  /**
   * A pinched image's scaled bitmap fits the image rectangle, and an image that
   * would run past its right or bottom edge at the clamped scale is pulled back
   * to that edge.
   */
  lemma {:induction false} ImagePinchFits(it: Item, bmp: Bitmap, ns: real, r: Rect)
    requires IsBitmap(bmp) && r.Width() > 0.0 && r.Height() > 0.0 && 0.0 < ns
    ensures var z := ZoomedImage(it, bmp, ns, r);
      var bw := bmp.width as real;
      var bh := bmp.height as real;
      && z == it.(scale := z.scale, x := z.x, y := z.y)
      && 0.0 < z.scale <= ns
      && bw * z.scale <= r.Width() && bh * z.scale <= r.Height()
      && z.x + bw * ns <= r.right && z.y + bh * ns <= r.bottom
      && (it.x + bw * ns <= r.right ==> z.x == it.x)
      && (it.y + bh * ns <= r.bottom ==> z.y == it.y)
  {
    ImageCapFits(bmp.width as real, bmp.height as real, ns, r.Width(), r.Height());
  }

  /** With a background the pinch of an image item is the image branch at the clamped scale. */
  lemma ZoomImageFits(pf: Platform, b: Backdrop, oldDist: real, it: Item, newDist: real)
    requires it.kind.ImageItem? && IsBitmap(it.kind.bitmap)
    requires b.background.Some? && b.imageRect.Width() > 0.0 && b.imageRect.Height() > 0.0
    ensures Zoomed(pf, b, oldDist, it, newDist) ==
            ZoomedImage(it, it.kind.bitmap, ClampedScale(it, oldDist, newDist), b.imageRect)
    ensures var z := Zoomed(pf, b, oldDist, it, newDist);
      0.0 < z.scale <= MAX_SCALE && z == it.(scale := z.scale, x := z.x, y := z.y)
  {
    ImagePinchFits(it, it.kind.bitmap, ClampedScale(it, oldDist, newDist), b.imageRect);
  }

  /** A pinch never makes an item invalid and never scales past 5. */
  lemma {:induction false} ZoomKeepsValid(pf: Platform, b: Backdrop, oldDist: real, it: Item, newDist: real)
    requires Lawful(pf)
    requires ItemValid(it)
    requires FrameValid(b.imageRect, b.background.Some?)
    ensures var z := Zoomed(pf, b, oldDist, it, newDist);
      ItemValid(z) && z.scale <= MAX_SCALE && z.id == it.id && z.isSelected == it.isSelected && z.kind == it.kind
  {
    if b.background.None? {
      ZoomFree(pf, b, oldDist, it, newDist);
    } else if it.kind.TextItem? {
      ZoomTextFits(pf, b, oldDist, it, newDist);
    } else {
      ZoomImageFits(pf, b, oldDist, it, newDist);
    }
  }

  /** Pinching keeps every item valid and moves, rescales or replaces no item but the zoomed one. */
  lemma {:induction false} PinchKeepsOthers(pf: Platform, s: CanvasState, e: MotionEvent)
    requires Lawful(pf)
    requires StateValid(s) && s.gesture.itemToZoom.Some?
    ensures var s1 := PinchStep(pf, s, e);
      && |s1.items| == |s.items|
      && (forall i :: 0 <= i < |s.items| ==>
            ItemValid(s1.items[i]) && s1.items[i].id == s.items[i].id && s1.items[i].isSelected == s.items[i].isSelected)
      && (forall i :: 0 <= i < |s.items| && s.items[i].id != s.gesture.itemToZoom.value ==> s1.items[i] == s.items[i])
      && s1.gesture.oldDist >= 0.0
      && s1.(items := s.items, gesture := s.gesture) == s
  {
    var nd := Spacing(pf, e);
    if nd > PINCH_DEAD_ZONE {
      match IndexOfId(s.items, s.gesture.itemToZoom.value)
      case Some(k) =>
        ZoomKeepsValid(pf, s.backdrop, s.gesture.oldDist, s.items[k], nd);
      case None =>
    }
  }

  /**
   * A rotation step turns the rotated item by the change in the touch's angle,
   * kept within one turn either way, and leaves every other item alone.
   */
  lemma RotateTurnsByAngle(pf: Platform, s: CanvasState, e: MotionEvent, k: nat)
    requires Lawful(pf)
    requires s.gesture.itemToRotate.Some? && IndexOfId(s.items, s.gesture.itemToRotate.value) == Some(k)
    ensures var s1 := RotateStep(pf, s, e);
      var delta := s1.gesture.lastAngle - s.gesture.lastAngle;
      && 0.0 <= s1.gesture.lastAngle < FULL_TURN
      && |s1.items| == |s.items|
      && -FULL_TURN < s1.items[k].rotation < FULL_TURN
      && (-FULL_TURN < s.items[k].rotation + delta < FULL_TURN ==> s1.items[k].rotation == s.items[k].rotation + delta)
      && s1.items[k] == s.items[k].(rotation := s1.items[k].rotation)
      && (forall i :: 0 <= i < |s.items| && i != k ==> s1.items[i] == s.items[i])
      && s1.(items := s.items, gesture := s.gesture) == s
  {
  }

  // ---------------------------------------------------------------------------
  // Freehand drawing
  // ---------------------------------------------------------------------------

  /** With the pen, a move only extends the path; the lift commits the whole path once and starts afresh. */
  lemma PenCommitsOnLift(p: Pen, e: MotionEvent)
    requires !p.isErasing
    ensures e.action == Move ==>
      FreehandStep(p, e).drawPath == p.drawPath + [LineTo(e.x, e.y)] && FreehandStep(p, e).strokes == p.strokes
    ensures e.action == Down ==>
      FreehandStep(p, e).drawPath == p.drawPath + [MoveTo(e.x, e.y)] && FreehandStep(p, e).strokes == p.strokes
    ensures e.action == Up ==>
      && FreehandStep(p, e).drawPath == []
      && FreehandStep(p, e).strokes ==
         (if p.hasDrawLayer then p.strokes + [PathStroke(p.drawPath, p.drawPaint.(color := p.drawColor))] else p.strokes)
  {
  }

  /** With the eraser, every move commits the segment so far and restarts the path at the finger. */
  lemma EraserCommitsEachMove(p: Pen, e: MotionEvent)
    requires p.isErasing && e.action == Move && p.hasDrawLayer
    ensures var p1 := FreehandStep(p, e);
      && p1.strokes == p.strokes + [PathStroke(p.drawPath + [LineTo(e.x, e.y)], p.drawPaint.(color := p.drawColor))]
      && p1.drawPath == [MoveTo(e.x, e.y)]
  {
  }

  /** Freehand drawing never changes the mode, the brush or the layer's existence. */
  lemma FreehandKeepsMode(p: Pen, e: MotionEvent)
    ensures var p1 := FreehandStep(p, e);
      && p1.isDrawingEnabled == p.isDrawingEnabled && p1.isErasing == p.isErasing
      && p1.drawSize == p.drawSize && p1.drawColor == p.drawColor && p1.hasDrawLayer == p.hasDrawLayer
      && (!p.hasDrawLayer ==> p1.strokes == p.strokes)
  {
  }

  /** In drawing mode no touch reaches the items or the gesture. */
  lemma DrawingLeavesItems(pf: Platform, s: CanvasState, e: MotionEvent, now: int)
    requires s.backdrop.imageRect.Width() >= 0.0 && s.backdrop.imageRect.Height() >= 0.0
    requires forall i :: 0 <= i < |s.items| ==> ItemValid(s.items[i])
    requires s.pen.isDrawingEnabled
    ensures var o := Touch(pf, s, e, now);
      o.result == Consumed && o.state.(pen := s.pen) == s
  {
  }

  // ---------------------------------------------------------------------------
  // Modes
  // ---------------------------------------------------------------------------

  /** Turning the eraser on and off again restores the pen paint from the chosen colour and size. */
  lemma EraseRoundTrip(p: Pen)
    ensures var on := SetEraseMode(p, true);
      && on.isErasing && on.drawPaint.clearMode && on.drawPaint.strokeWidth == ERASER_WIDTH
      && var off := SetEraseMode(on, false);
      && !off.isErasing && off.drawPaint == DrawPaint(p.drawColor, p.drawSize, false)
      && off.(drawPaint := p.drawPaint, isErasing := p.isErasing) == p
  {
  }

  /** Enabling or disabling drawing always leaves the pen, not the eraser, selected. */
  lemma EnableDrawingUsesPen(p: Pen, enabled: bool)
    ensures var p1 := EnableDrawing(p, enabled);
      p1.isDrawingEnabled == enabled && !p1.isErasing && p1.drawPaint == DrawPaint(p.drawColor, p.drawSize, false)
  {
  }

  /** Picking a colour switches to drawing with the pen in that colour. */
  lemma PaintColorSelectsPen(p: Pen, color: int)
    ensures var p1 := SetPaintColor(p, color);
      && p1.isDrawingEnabled && !p1.isErasing && p1.drawColor == color
      && p1.drawPaint == DrawPaint(color, p.drawSize, false)
  {
  }

  /** The brush size is the pen width until the eraser replaces it, and comes back after. */
  lemma DrawingSizeSurvivesEraser(p: Pen, size: real)
    ensures SetDrawingSize(p, size).drawPaint.strokeWidth == size
    ensures SetEraseMode(SetEraseMode(SetDrawingSize(p, size), true), false).drawPaint.strokeWidth == size
  {
  }
}
