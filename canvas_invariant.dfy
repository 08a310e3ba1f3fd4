/** Every transition of the canvas keeps the view's invariant. */
module CanvasInvariant {
  import opened Wrappers
  import opened Graphics
  import opened TextStyles
  import opened Items
  import opened CanvasModel
  import opened CanvasProperties
  import opened CanvasContent

  /** Items changed in place, keeping identities and selection, keep the content invariant. */
  lemma {:induction false} SameShapeValid(items: seq<Item>, items1: seq<Item>, controls: seq<nat>, nextId: nat)
    requires ContentValid(items, controls, nextId)
    requires |items1| == |items|
    requires forall i :: 0 <= i < |items| ==>
      items1[i].id == items[i].id && items1[i].isSelected == items[i].isSelected && ItemValid(items1[i])
    ensures ContentValid(items1, controls, nextId)
  {
    assert UniqueIds(items1) by {
      forall i, j | 0 <= i < j < |items1| ensures items1[i].id != items1[j].id {
        assert items[i].id != items[j].id;
      }
    }
  }

  /** The highlight check keeps the alpha a multiple of five between 0 and 180. */
  lemma CheckHighlightValid(pf: Platform, b: Backdrop, h: Highlight, it: Item)
    requires AlphaValid(h.clipHighlightAlpha)
    ensures AlphaValid(CheckHighlight(pf, b, h, it).clipHighlightAlpha)
  {
  }

  /** The fade keeps the alpha a multiple of five between 0 and 180. */
  lemma FadeRunValid(h: Highlight)
    requires AlphaValid(h.clipHighlightAlpha)
    ensures AlphaValid(FadeRun(h).clipHighlightAlpha)
  {
  }

  lemma {:induction false} DownValid(pf: Platform, s: CanvasState, e: MotionEvent, now: int)
    requires StateValid(s)
    ensures StateValid(DownStep(pf, s, e, now).state)
  {
    var s1 := DownStep(pf, s, e, now).state;
    match ClassifyDown(pf, s.items, s.gesture.lastClickTime, e, now)
    case DeleteButton(k) =>
      DeleteValid(pf, s, e, now, k);
    case RotateButton(k) =>
      assert s1.(gesture := s.gesture) == s;
    case DoubleTap(j) =>
      SameShapeValid(s.items, s1.items, s.controls, s.nextId);
      assert s1.(items := s.items, gesture := s.gesture, editRequests := s.editRequests) == s;
    case Pick(j) =>
      PickValid(pf, s, e, now, j);
    case Miss =>
      MissValid(pf, s, e, now);
  }

  lemma {:induction false} DeleteValid(pf: Platform, s: CanvasState, e: MotionEvent, now: int, k: nat)
    requires StateValid(s)
    requires ClassifyDown(pf, s.items, s.gesture.lastClickTime, e, now) == DeleteButton(k)
    ensures StateValid(DownStep(pf, s, e, now).state)
  {
    var s1 := DownStep(pf, s, e, now).state;
    DeleteRemovesExactly(pf, s, e, now, k);
    forall i | 0 <= i < |s1.items| ensures ItemValid(s1.items[i]) && s1.items[i].id < s1.nextId {
      if i < k { assert s1.items[i] == s.items[i]; } else { assert s1.items[i] == s.items[i + 1]; }
    }
    assert UniqueIds(s1.items) by {
      forall i, j | 0 <= i < j < |s1.items| ensures s1.items[i].id != s1.items[j].id {
        var ii := if i < k then i else i + 1;
        var jj := if j < k then j else j + 1;
        assert s1.items[i] == s.items[ii] && s1.items[j] == s.items[jj];
      }
    }
    assert ContentValid(s1.items, s1.controls, s1.nextId);
  }

  lemma {:induction false} PickValid(pf: Platform, s: CanvasState, e: MotionEvent, now: int, j: nat)
    requires StateValid(s)
    requires ClassifyDown(pf, s.items, s.gesture.lastClickTime, e, now) == Pick(j)
    ensures StateValid(DownStep(pf, s, e, now).state)
  {
    var s1 := DownStep(pf, s, e, now).state;
    PickSelectsExactly(pf, s, e, now, j);
    forall i | 0 <= i < |s1.items|
      ensures s1.items[i].id == s.items[i].id && ItemValid(s1.items[i])
    {
      assert s1.items[i] == s.items[i].(isSelected := s.items[i].id == s.items[j].id);
    }
    assert UniqueIds(s1.items) by {
      forall i, i' | 0 <= i < i' < |s1.items| ensures s1.items[i].id != s1.items[i'].id {
        assert s.items[i].id != s.items[i'].id;
      }
    }
    assert ContentValid(s1.items, s1.controls, s1.nextId);
  }

  lemma {:induction false} MissValid(pf: Platform, s: CanvasState, e: MotionEvent, now: int)
    requires StateValid(s)
    requires ClassifyDown(pf, s.items, s.gesture.lastClickTime, e, now) == Miss
    ensures StateValid(DownStep(pf, s, e, now).state)
  {
    var s1 := DownStep(pf, s, e, now).state;
    MissDeselectsAll(pf, s, e, now);
    forall i | 0 <= i < |s1.items|
      ensures s1.items[i].id == s.items[i].id && ItemValid(s1.items[i])
    {
      assert s1.items[i] == s.items[i].(isSelected := false);
    }
    assert UniqueIds(s1.items) by {
      forall i, i' | 0 <= i < i' < |s1.items| ensures s1.items[i].id != s1.items[i'].id {
        assert s.items[i].id != s.items[i'].id;
      }
    }
    assert ContentValid(s1.items, s1.controls, s1.nextId);
  }

  lemma {:induction false} MoveValid(pf: Platform, s: CanvasState, e: MotionEvent)
    requires Lawful(pf) && StateValid(s)
    ensures StateValid(MoveStep(pf, s, e).state)
  {
    var g := s.gesture;
    if g.isRotating && g.itemToRotate.Some? {
      var s1 := RotateStep(pf, s, e);
      match IndexOfId(s.items, g.itemToRotate.value)
      case Some(k) =>
        RotateTurnsByAngle(pf, s, e, k);
        SameShapeValid(s.items, s1.items, s.controls, s.nextId);
      case None =>
    } else if g.isMultiTouch && e.pointerCount == 2 && g.itemToZoom.Some? {
      var s1 := PinchStep(pf, s, e);
      PinchKeepsOthers(pf, s, e);
      SameShapeValid(s.items, s1.items, s.controls, s.nextId);
    } else if g.currentDragged.Some? {
      match IndexOfId(s.items, g.currentDragged.value)
      case Some(k) =>
        var s1 := DragStep(pf, s, e);
        SameShapeValid(s.items, s1.items, s.controls, s.nextId);
        CheckHighlightValid(pf, s.backdrop, s.highlight, s1.items[k]);
      case None =>
    }
  }

  /** Every touch event keeps the view's invariant. */
  lemma {:induction false} TouchValid(pf: Platform, s: CanvasState, e: MotionEvent, now: int)
    requires Lawful(pf) && StateValid(s)
    ensures StateValid(Touch(pf, s, e, now).state)
  {
    if s.backdrop.background.Some? && OutsideImage(s.backdrop.imageRect, e.x, e.y) {
    } else if s.pen.isDrawingEnabled {
      assert Touch(pf, s, e, now).state == s.(pen := FreehandStep(s.pen, e));
    } else {
      match e.action
      case Down => DownValid(pf, s, e, now);
      case PointerDown => PinchStart(pf, s.items, s.gesture, e);
      case Move => MoveValid(pf, s, e);
      case Up =>
      case PointerUp =>
      case Cancel =>
      case OtherAction =>
    }
  }

  /** The mode setters touch only the pen, so they keep the invariant. */
  lemma PenChangeValid(s: CanvasState, p: Pen)
    requires StateValid(s)
    ensures StateValid(s.(pen := p))
  {
  }

  /** The fade touches only the highlight and keeps the invariant. */
  lemma FadeValid(s: CanvasState)
    requires StateValid(s)
    ensures StateValid(s.(highlight := FadeRun(s.highlight)))
  {
    FadeRunValid(s.highlight);
  }

  lemma BackgroundValid(s: CanvasState, width: int, height: int, bitmap: Option<Bitmap>)
    requires StateValid(s) && width > 0 && height > 0
    requires bitmap.Some? ==> IsBitmap(bitmap.value)
    ensures StateValid(SetBackground(s, width, height, bitmap))
  {
    if bitmap.Some? {
      BackgroundFitsAndCentres(width, height, bitmap.value);
    }
    assert ContentValid([], s.controls, s.nextId);
  }

  lemma ResetValid(s: CanvasState, width: int, height: int)
    requires StateValid(s) && width > 0 && height > 0
    requires s.backdrop.original.Some? ==> IsBitmap(s.backdrop.original.value)
    ensures StateValid(ResetToOriginal(s, width, height))
  {
    if s.backdrop.original.Some? {
      BackgroundValid(s.(pen := ClearDrawings(s.pen)), width, height, s.backdrop.original);
    }
  }

  /** Appending a fresh, solely selected item with the only controls keeps the content invariant. */
  lemma {:induction false} AppendSelectedValid(items: seq<Item>, controls: seq<nat>, nextId: nat, it: Item)
    requires ContentValid(items, controls, nextId)
    requires ItemValid(it) && it.isSelected && it.id == nextId
    ensures ContentValid(Deselected(items) + [it], [it.id], nextId + 1)
  {
    var n := |items|;
    var r := Deselected(items) + [it];
    forall i | 0 <= i < |r|
      ensures r[i].id < nextId + 1 && ItemValid(r[i]) && (r[i].isSelected <==> i == n)
      ensures i < n ==> r[i].id == items[i].id
    {
      if i < n { assert r[i] == items[i].(isSelected := false); }
    }
    assert UniqueIds(r) by {
      forall i, j | 0 <= i < j < |r| ensures r[i].id != r[j].id {
        if j < n { assert items[i].id != items[j].id; }
      }
    }
  }

  lemma AddTextValid(s: CanvasState, text: string, style: Option<TextStyle>)
    requires StateValid(s)
    ensures StateValid(AddText(s, text, style))
  {
    var s1 := AddText(s, text, style);
    AppendSelectedValid(s.items, s.controls, s.nextId, s1.items[|s1.items| - 1]);
  }

  lemma AddStickerValid(s: CanvasState, width: int, height: int, b: Bitmap)
    requires StateValid(s) && IsBitmap(b)
    ensures StateValid(AddSticker(s, width, height, b))
  {
    StickerAdded(s, width, height, b);
    AppendSelectedValid(s.items, s.controls, s.nextId, StickerItem(s, width, height, b));
  }

  lemma UpdateTextValid(s: CanvasState, id: nat, style: TextStyle)
    requires StateValid(s)
    ensures StateValid(s.(items := UpdateText(s.items, id, style)))
  {
    var r := UpdateText(s.items, id, style);
    TextRestyleFrame(s.items, id, style);
    match IndexOfId(s.items, id)
    case None =>
    case Some(k) =>
      if s.items[k].kind.TextItem? {
        TextRestyled(s.items, id, style, k);
        forall i | 0 <= i < |s.items| ensures ItemValid(r[i]) {
          if i != k { assert r[i] == s.items[i]; }
        }
        SameShapeValid(s.items, r, s.controls, s.nextId);
      }
  }
}
