/** What loading a background and adding or restyling items promise, and the two size findings. */
module CanvasContent {
  import opened Wrappers
  import opened Graphics
  import opened TextStyles
  import opened Items
  import opened CanvasModel

  // ---------------------------------------------------------------------------
  // Background
  // ---------------------------------------------------------------------------

  lemma TruncOfInt(n: int)
    ensures Trunc(n as real) == n
  {
  }

  lemma DivMul(a: real, b: real)
    requires b > 0.0
    ensures (a / b) * b == a
  {
  }

  /** Dividing by the larger of two positive numbers gives the smaller quotient. */
  lemma {:induction false} DivAntitone(m: real, w: real, h: real)
    requires m >= 0.0 && 0.0 < w <= h
    ensures m / h <= m / w
  {
    var q := m / h;
    var t := m / w;
    DivMul(m, h);
    DivMul(m, w);
    assert q >= 0.0;
    MulMono(q, w, h);
    assert q * w <= t * w;
  }

  lemma NonNegativeQuotient(a: real, b: real)
    requires a >= 0.0 && b > 0.0
    ensures a / b >= 0.0
  {
  }

  /** A side scaled by `limit / side` is exactly `limit` pixels. */
  lemma ScaledExactly(side: int, limit: int)
    requires side > 0 && limit >= 1
    ensures ScaledSide(side, limit as real / side as real) == limit
  {
    DivMul(limit as real, side as real);
    TruncOfInt(limit);
  }

  /** A side scaled by a factor no larger than `limit / side` ends at most at `limit`. */
  lemma {:induction false} ScaledSideAtMost(side: int, factor: real, limit: int)
    requires side > 0 && limit >= 1 && 0.0 <= factor <= limit as real / side as real
    ensures 1 <= ScaledSide(side, factor) <= limit
  {
    DivMul(limit as real, side as real);
    assert side as real * factor <= side as real * (limit as real / side as real);
  }

  /** The two scaled sides of a fitted bitmap: at least one, at most the view's, and one of them fills it. */
  lemma {:induction false} FitSides(width: int, height: int, b: Bitmap)
    requires width > 0 && height > 0 && IsBitmap(b)
    ensures var f := FitFactor(width, height, b);
      var sw, sh := ScaledSide(b.width, f), ScaledSide(b.height, f);
      1 <= sw <= width && 1 <= sh <= height && (sw == width || sh == height)
  {
    var fw := width as real / b.width as real;
    var fh := height as real / b.height as real;
    NonNegativeQuotient(width as real, b.width as real);
    NonNegativeQuotient(height as real, b.height as real);
    var f := MinReal(fw, fh);
    assert f == FitFactor(width, height, b);
    ScaledSideAtMost(b.width, f, width);
    ScaledSideAtMost(b.height, f, height);
    if f == fw {
      ScaledExactly(b.width, width);
    } else {
      ScaledExactly(b.height, height);
    }
  }

  /**
   * The loaded background is scaled to fit the view and centred in it: each side
   * is at least one and at most the view's, one side fills the view exactly, the
   * image rectangle is centred, and its size is that of the scaled bitmap.
   */
  lemma {:induction false} BackgroundFitsAndCentres(width: int, height: int, b: Bitmap)
    requires width > 0 && height > 0 && IsBitmap(b)
    ensures var (d, notice) := FitBackdrop(width, height, Some(b));
      var r := d.imageRect;
      && d.background.Some? && d.original == Some(b) && !d.showBorder
      && var bg := d.background.value;
      && 1 <= bg.width <= width && 1 <= bg.height <= height
      && (bg.width == width || bg.height == height)
      && r.left + r.right == width as real && r.top + r.bottom == height as real
      && r.Width() == bg.width as real && r.Height() == bg.height as real
      && 0.0 <= r.left && r.right <= width as real && 0.0 <= r.top && r.bottom <= height as real
      && notice == DimensionNotice(r, bg.width, bg.height)
  {
    FitSides(width, height, b);
  }

  /** Without a bitmap the background is a blank bitmap of the view's size covering the view. */
  lemma BlankBackground(width: int, height: int)
    requires width > 0 && height > 0
    ensures var (d, notice) := FitBackdrop(width, height, None);
      && d.background == Some(Bitmap(width, height)) && d.original.None?
      && d.imageRect == Rect(0.0, 0.0, width as real, height as real)
      && notice == DimensionNotice(d.imageRect, width, height)
  {
  }

  /**
   * Loading a background clears the items, the drawing layer and the modes, but
   * keeps the controls list and the current freehand path as they were; the
   * listener hears the new size once.
   */
  lemma BackgroundResets(s: CanvasState, width: int, height: int, bitmap: Option<Bitmap>)
    requires width > 0 && height > 0
    requires bitmap.Some? ==> IsBitmap(bitmap.value)
    ensures var s1 := SetBackground(s, width, height, bitmap);
      && s1.items == [] && s1.pen.strokes == [] && s1.pen.hasDrawLayer
      && !s1.pen.isDrawingEnabled && !s1.pen.isErasing && !s1.backdrop.showBorder
      && s1.controls == s.controls && s1.pen.drawPath == s.pen.drawPath && s1.nextId == s.nextId
      && s1.backdrop == FitBackdrop(width, height, bitmap).0
      && s1.dimensionNotices == s.dimensionNotices + [FitBackdrop(width, height, bitmap).1]
      && s1.gesture == s.gesture && s1.highlight == s.highlight
  {
  }

  /**
   * Finding: as written, a very wide bitmap scales to a zero-pixel height (a
   * 10000 × 1 bitmap in a 1080 × 1920 view), which Bitmap.createScaledBitmap rejects.
   */
  lemma BackgroundAsWrittenCollapses()
    ensures ScaledSideAsWritten(1, FitFactor(1080, 1920, Bitmap(10000, 1))) == 0
  {
    assert FitFactor(1080, 1920, Bitmap(10000, 1)) == 0.108;
  }

  /** Resetting restores the original as a fresh background with no drawings or items. */
  lemma ResetRestoresOriginal(s: CanvasState, width: int, height: int)
    requires width > 0 && height > 0
    requires s.backdrop.original.Some? && IsBitmap(s.backdrop.original.value)
    ensures var s1 := ResetToOriginal(s, width, height);
      && s1.items == [] && s1.pen.strokes == [] && s1.backdrop.original == s.backdrop.original
      && s1.backdrop == FitBackdrop(width, height, s.backdrop.original).0
  {
  }

  /** Resetting twice leaves the view as resetting once did, apart from one more size notice. */
  lemma ResetIdempotent(s: CanvasState, width: int, height: int)
    requires width > 0 && height > 0
    requires s.backdrop.original.Some? ==> IsBitmap(s.backdrop.original.value)
    ensures var once := ResetToOriginal(s, width, height);
      var twice := ResetToOriginal(once, width, height);
      twice.(dimensionNotices := once.dimensionNotices) == once
  {
  }

  /** Without an original bitmap reset does nothing. */
  lemma ResetWithoutOriginal(s: CanvasState, width: int, height: int)
    requires width > 0 && height > 0 && s.backdrop.original.None?
    ensures ResetToOriginal(s, width, height) == s
  {
  }

  /** Clearing drawings empties the drawing layer and touches nothing else. */
  lemma ClearDrawingsEmpties(p: Pen)
    requires p.hasDrawLayer || p.strokes == []
    ensures ClearDrawings(p) == p.(strokes := [])
  {
  }

  // ---------------------------------------------------------------------------
  // Stickers
  // ---------------------------------------------------------------------------

  /** A sticker wider than tall and over the limit ends exactly 1024 wide. */
  lemma {:induction false} StickerWide(w: int, h: int)
    requires w > h > 0 && w > STICKER_MAX_SIDE
    ensures SanitizedSize(w, h) == (STICKER_MAX_SIDE, SanitizedSize(w, h).1)
    ensures 1 <= SanitizedSize(w, h).1 <= STICKER_MAX_SIDE
  {
    var ratio := StickerRatio(w, h);
    var m := STICKER_MAX_SIDE as real;
    DivMul(m, w as real);
    assert w as real * ratio == m;
    TruncOfInt(STICKER_MAX_SIDE);
    assert Trunc(w as real * ratio) == STICKER_MAX_SIDE;
    assert ScaledSide(w, ratio) == STICKER_MAX_SIDE;
    assert SanitizedSize(w, h) == (ScaledSide(w, ratio), ScaledSide(h, ratio));
    DivAntitone(m, h as real, w as real);
    ScaledSideAtMost(h, ratio, STICKER_MAX_SIDE);
  }

  /** A sticker at least as tall as wide and over the limit ends exactly 1024 tall. */
  lemma {:induction false} StickerTall(w: int, h: int)
    requires 0 < w <= h && h > STICKER_MAX_SIDE
    ensures SanitizedSize(w, h) == (SanitizedSize(w, h).0, STICKER_MAX_SIDE)
    ensures 1 <= SanitizedSize(w, h).0 <= STICKER_MAX_SIDE
  {
    var ratio := StickerRatio(w, h);
    var m := STICKER_MAX_SIDE as real;
    DivMul(m, h as real);
    assert h as real * ratio == m;
    TruncOfInt(STICKER_MAX_SIDE);
    assert Trunc(h as real * ratio) == STICKER_MAX_SIDE;
    assert ScaledSide(h, ratio) == STICKER_MAX_SIDE;
    assert SanitizedSize(w, h) == (ScaledSide(w, ratio), ScaledSide(h, ratio));
    DivAntitone(m, w as real, h as real);
    ScaledSideAtMost(w, ratio, STICKER_MAX_SIDE);
  }

  /**
   * An oversized sticker is scaled so that its longer side is exactly 1024 and
   * the other is between 1 and 1024; a sticker that fits is left at its size.
   */
  lemma {:induction false} StickerSanitized(w: int, h: int)
    requires w > 0 && h > 0
    ensures var (sw, sh) := SanitizedSize(w, h);
      && (w <= STICKER_MAX_SIDE && h <= STICKER_MAX_SIDE ==> sw == w && sh == h)
      && 1 <= sw <= STICKER_MAX_SIDE && 1 <= sh <= STICKER_MAX_SIDE
      && (w > STICKER_MAX_SIDE || h > STICKER_MAX_SIDE ==> (if w > h then sw else sh) == STICKER_MAX_SIDE)
  {
    if w > STICKER_MAX_SIDE || h > STICKER_MAX_SIDE {
      if w > h { StickerWide(w, h); } else { StickerTall(w, h); }
    }
  }

  /** Finding: as written, a 2000 × 1 sticker is sanitised to a zero-pixel height. */
  lemma StickerAsWrittenCollapses()
    ensures SanitizedSizeAsWritten(2000, 1) == (1024, 0)
  {
    assert StickerRatio(2000, 1) == 0.512;
  }

  /**
   * A new sticker goes on top, selected alone with the only controls, shown
   * 150 pixels wide and centred on the image (or the view) to within the
   * integer halving of its size; drawing and erasing are switched off.
   */
  lemma {:induction false} StickerAdded(s: CanvasState, width: int, height: int, b: Bitmap)
    requires IsBitmap(b)
    ensures var s1 := AddSticker(s, width, height, b);
      var it := s1.items[|s1.items| - 1];
      var r := s.backdrop.imageRect;
      && |s1.items| == |s.items| + 1
      && (forall i :: 0 <= i < |s.items| ==> s1.items[i] == s.items[i].(isSelected := false))
      && it.id == s.nextId && s1.nextId == s.nextId + 1
      && it.isSelected && s1.controls == [it.id]
      && it.kind.ImageItem?
      && it.kind.bitmap == Bitmap(SanitizedSize(b.width, b.height).0, SanitizedSize(b.width, b.height).1)
      && it.scale * it.kind.bitmap.width as real == STICKER_TARGET_WIDTH
      && ItemValid(it) && it.rotation == 0.0 && it.doubleClickCount == 0
      && (s.backdrop.background.Some? ==>
            it.x + (it.kind.bitmap.width / 2) as real == r.CenterX() &&
            it.y + (it.kind.bitmap.height / 2) as real == r.CenterY())
      && (s.backdrop.background.None? ==>
            it.x + (it.kind.bitmap.width / 2) as real == width as real / 2.0 &&
            it.y + (it.kind.bitmap.height / 2) as real == height as real / 2.0)
      && !s1.pen.isDrawingEnabled && !s1.pen.isErasing
  {
    StickerSanitized(b.width, b.height);
    var (sw, sh) := SanitizedSize(b.width, b.height);
    DivMul(STICKER_TARGET_WIDTH, sw as real);
  }

  // ---------------------------------------------------------------------------
  // Text
  // ---------------------------------------------------------------------------

  /**
   * A new text item goes on top, selected alone, with the style it was given
   * (or one made from red 60-pixel text), and sits a quarter of the way across
   * the image and half a text size below its middle, or at (300, 900) without a
   * background. Once drawn it shows that style: the style's text, size, face and
   * colour, and a further restyle changes nothing.
   */
  lemma TextAdded(s: CanvasState, text: string, style: Option<TextStyle>)
    ensures var s1 := AddText(s, text, style);
      var it := s1.items[|s1.items| - 1];
      var size := if style.Some? then style.value.textSize else DEFAULT_TEXT_SIZE;
      var r := s.backdrop.imageRect;
      && |s1.items| == |s.items| + 1
      && (forall i :: 0 <= i < |s.items| ==> s1.items[i] == s.items[i].(isSelected := false))
      && it.id == s.nextId && s1.nextId == s.nextId + 1
      && it.isSelected && s1.controls == [it.id] && it.scale == 1.0 && it.rotation == 0.0
      && it.kind.TextItem?
      && it.kind.style == (if style.Some? then style.value else StyleWith(text, RED, DEFAULT_TEXT_SIZE))
      && it.kind.text == it.kind.style.text && it.kind.paint.textSize == size
      && it.kind.paint.typeface == Create(it.kind.style.fontFamily, it.kind.style.typeface)
      && it.kind.paint.color == (if it.kind.style.isStrokeEnabled then it.kind.style.strokeColor else it.kind.style.textColor)
      && ApplyStyle(it.kind) == it.kind
      && (s.backdrop.background.Some? ==> it.x == r.left + r.Width() / 4.0 && it.y == r.CenterY() + size / 2.0)
      && (s.backdrop.background.None? ==> it.x == 300.0 && it.y == 900.0)
      && !s1.pen.isDrawingEnabled && !s1.pen.isErasing
  {
    var color := if style.Some? then style.value.textColor else RED;
    var size := if style.Some? then style.value.textSize else DEFAULT_TEXT_SIZE;
    var st := if style.Some? then style.value else StyleWith(text, color, size);
    ApplyStyleIdempotent(TextItem(text, NewPaint(color, size), st));
  }

  /** Restyling by an unknown id changes nothing; restyling keeps the item count and every other item. */
  lemma TextRestyleFrame(items: seq<Item>, id: nat, style: TextStyle)
    ensures var r := UpdateText(items, id, style);
      && |r| == |items|
      && (IndexOfId(items, id).None? ==> r == items)
      && (forall i :: 0 <= i < |items| && items[i].id != id ==> r[i] == items[i])
      && (forall i :: 0 <= i < |items| ==> r[i].id == items[i].id && r[i].isSelected == items[i].isSelected)
  {
  }

  /**
   * Restyling a text item gives it the style's text, size, colours, stroke and
   * shadow and leaves its identity, position and transform alone.
   */
  lemma TextRestyled(items: seq<Item>, id: nat, style: TextStyle, k: nat)
    requires IndexOfId(items, id) == Some(k) && items[k].kind.TextItem?
    ensures var it := UpdateText(items, id, style)[k];
      && it == items[k].(kind := it.kind)
      && it.kind.TextItem? && it.kind.text == style.text && it.kind.style == style
      && it.kind.paint.textSize == style.textSize
      && it.kind.paint.color == (if style.isStrokeEnabled then style.strokeColor else style.textColor)
      && it.kind.paint.style == (if style.isStrokeEnabled then Stroke else Fill)
      && it.kind.paint.shadow == (if style.isShadowEnabled then Some(StyleShadow(style)) else None)
  {
    var before := items[k];
    var nk := ApplyStyle(TextItem(style.text, before.kind.paint, style));
    assert UpdateText(items, id, style)[k] == before.(kind := nk);
  }
}
