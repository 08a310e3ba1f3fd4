/**
 * The overlay items on the canvas (model/MovableItem.kt): their shared transform
 * fields, text layout (line splitting and bounds), style application and the
 * sequence of draw calls a styled text item issues.
 */
module Items {
  import opened Wrappers
  import opened Graphics
  import opened TextStyles

  datatype ItemKind =
    | TextItem(text: string, paint: Paint, style: TextStyle)
    | ImageItem(bitmap: Bitmap)

  /**
   * One overlay item. `id` stands for the object identity the view compares
   * items by; the view hands out a fresh id for every item it creates.
   */
  datatype Item = Item(
    id: nat,
    x: real,
    y: real,
    scale: real,
    rotation: real,       // degrees
    isSelected: bool,
    doubleClickCount: int,
    kind: ItemKind)

  /** The shared transform fields as every item starts out. */
  predicate Initial(it: Item)
  {
    it.scale == 1.0 && it.rotation == 0.0 && !it.isSelected && it.doubleClickCount == 0
  }

  /**
   * `TextItem(text, x, y, paint, textStyle)`: with no style given, the init block
   * builds one from the text, the paint colour and the paint size.
   */
  function NewTextItem(id: nat, text: string, x: real, y: real, paint: Paint, style: Option<TextStyle>): (it: Item)
    ensures Initial(it) && it.id == id && it.x == x && it.y == y
    ensures it.kind.TextItem? && it.kind.text == text && it.kind.paint == paint
    ensures style.Some? ==> it.kind.style == style.value
    ensures style.None? ==>
      it.kind.style.text == text && it.kind.style.textColor == paint.color &&
      it.kind.style.textSize == paint.textSize
  {
    var s := match style
      case Some(st) => st
      case None => StyleWith(text, paint.color, paint.textSize);
    Item(id, x, y, 1.0, 0.0, false, 0, TextItem(text, paint, s))
  }

  /** `ImageItem(bitmap, x, y)` */
  function NewImageItem(id: nat, bitmap: Bitmap, x: real, y: real): (it: Item)
    ensures Initial(it) && it.id == id && it.x == x && it.y == y && it.kind == ImageItem(bitmap)
  {
    Item(id, x, y, 1.0, 0.0, false, 0, ImageItem(bitmap))
  }

  // ---------------------------------------------------------------------------
  // Lines of a text item: String.split('\n') and its inverse
  // ---------------------------------------------------------------------------

  /** `s.split('\n')`: the pieces between newlines, always at least one. */
  function SplitLines(s: string): (lines: seq<string>)
    ensures |lines| >= 1
    ensures forall i :: 0 <= i < |lines| ==> '\n' !in lines[i]
    decreases |s|
  {
    if |s| == 0 then [""]
    else if s[0] == '\n' then [""] + SplitLines(s[1..])
    else
      var rest := SplitLines(s[1..]);
      [[s[0]] + rest[0]] + rest[1..]
  }

  /** `lines.joinToString("\n")` */
  function JoinLines(lines: seq<string>): string
    requires |lines| >= 1
  {
    if |lines| == 1 then lines[0] else lines[0] + "\n" + JoinLines(lines[1..])
  }

  /** Number of newline characters in `s`. */
  function Newlines(s: string): nat
  {
    if |s| == 0 then 0 else (if s[0] == '\n' then 1 else 0) + Newlines(s[1..])
  }

  /** Splitting loses nothing: joining the pieces with newlines gives the text back. */
  lemma {:induction false} JoinSplit(s: string)
    ensures JoinLines(SplitLines(s)) == s
    decreases |s|
  {
    if |s| == 0 {
    } else if s[0] == '\n' {
      JoinSplit(s[1..]);
      assert s == "\n" + s[1..];
    } else {
      JoinSplit(s[1..]);
      var rest := SplitLines(s[1..]);
      if |rest| == 1 {
        assert s == [s[0]] + rest[0];
      } else {
        assert JoinLines(rest) == rest[0] + "\n" + JoinLines(rest[1..]);
        assert s == [s[0]] + rest[0] + "\n" + JoinLines(rest[1..]);
      }
    }
  }

  /** Newline-free pieces survive a join followed by a split. */
  lemma {:induction false} SplitJoin(lines: seq<string>)
    requires |lines| >= 1
    requires forall i :: 0 <= i < |lines| ==> '\n' !in lines[i]
    ensures SplitLines(JoinLines(lines)) == lines
    decreases |lines|
  {
    if |lines| == 1 {
      SplitNoNewline(lines[0]);
    } else {
      SplitSplice(lines[0], JoinLines(lines[1..]));
      SplitJoin(lines[1..]);
      SplitNoNewline(lines[0]);
      assert lines == [lines[0]] + lines[1..];
    }
  }

  /** A text without newlines is a single line. */
  lemma {:induction false} SplitNoNewline(s: string)
    requires '\n' !in s
    ensures SplitLines(s) == [s]
    decreases |s|
  {
    if |s| > 0 {
      assert s[0] in s;
      assert forall c :: c in s[1..] ==> c in s;
      SplitNoNewline(s[1..]);
      assert s == [s[0]] + s[1..];
    }
  }

  /** A newline between two texts splits them into the pieces of each. */
  lemma {:induction false} SplitSplice(a: string, b: string)
    ensures SplitLines(a + "\n" + b) == SplitLines(a) + SplitLines(b)
    decreases |a|
  {
    if |a| == 0 {
      assert a + "\n" + b == "\n" + b;
      assert ("\n" + b)[1..] == b;
    } else {
      var t := a + "\n" + b;
      assert t[0] == a[0];
      assert t[1..] == a[1..] + "\n" + b;
      SplitSplice(a[1..], b);
    }
  }

  /** Every newline adds exactly one line. */
  lemma {:induction false} LineCount(s: string)
    ensures |SplitLines(s)| == Newlines(s) + 1
    decreases |s|
  {
    if |s| > 0 {
      LineCount(s[1..]);
    }
  }

  // ---------------------------------------------------------------------------
  // getBounds
  // ---------------------------------------------------------------------------

  /** The running maximum of `measureText` over `lines`, starting from 0. */
  function MaxWidth(pf: Platform, paint: Paint, lines: seq<string>): real
    decreases |lines|
  {
    if |lines| == 0 then 0.0
    else
      var m := MaxWidth(pf, paint, lines[..|lines| - 1]);
      var w := pf.measureText(paint, lines[|lines| - 1]);
      if w > m then w else m
  }

  /** The running maximum is the largest width, or 0 when every line is narrower than that. */
  lemma {:induction false} MaxWidthIsMax(pf: Platform, paint: Paint, lines: seq<string>)
    ensures var w := MaxWidth(pf, paint, lines);
      && w >= 0.0
      && (forall i :: 0 <= i < |lines| ==> pf.measureText(paint, lines[i]) <= w)
      && (w == 0.0 || exists i :: 0 <= i < |lines| && w == pf.measureText(paint, lines[i]))
    decreases |lines|
  {
    if |lines| > 0 {
      var front := lines[..|lines| - 1];
      MaxWidthIsMax(pf, paint, front);
      assert forall i :: 0 <= i < |lines| - 1 ==> front[i] == lines[i];
      var m := MaxWidth(pf, paint, front);
      if m != 0.0 {
        var j :| 0 <= j < |front| && m == pf.measureText(paint, front[j]);
        assert front[j] == lines[j];
      }
    }
  }

  /**
   * TextItem.getBounds(): from the first baseline's ascent to the last line's
   * descent, and as wide as the widest line. The bounds ignore scale and rotation.
   */
  function TextBounds(pf: Platform, text: string, x: real, y: real, paint: Paint): Rect
  {
    var lines := SplitLines(text);
    TextBox(x, y, pf.fontMetrics(paint), MaxWidth(pf, paint, lines), |lines|)
  }

  /** The box of `count` lines at most `width` wide whose first baseline is at y. */
  function TextBox(x: real, y: real, fm: FontMetrics, width: real, count: int): Rect
  {
    Rect(x, y + fm.ascent, x + width, y + (count - 1) as real * fm.fontSpacing + fm.descent)
  }

  /** getBounds() as the source computes it: one pass with a running maximum. */
  method GetBounds(pf: Platform, text: string, x: real, y: real, paint: Paint) returns (r: Rect)
    ensures r == TextBounds(pf, text, x, y, paint)
  {
    var lines := SplitLines(text);
    var maxWidth := 0.0;
    var i := 0;
    while i < |lines|
      invariant 0 <= i <= |lines|
      invariant maxWidth == MaxWidth(pf, paint, lines[..i])
    {
      var width := pf.measureText(paint, lines[i]);
      MaxWidthNext(pf, paint, lines, i);
      if width > maxWidth {
        maxWidth := width;
      }
      i := i + 1;
    }
    assert lines[..|lines|] == lines;
    r := TextBox(x, y, pf.fontMetrics(paint), maxWidth, |lines|);
  }

  /** The running maximum over one more line. */
  lemma MaxWidthNext(pf: Platform, paint: Paint, lines: seq<string>, i: nat)
    requires i < |lines|
    ensures var m, w := MaxWidth(pf, paint, lines[..i]), pf.measureText(paint, lines[i]);
      MaxWidth(pf, paint, lines[..i + 1]) == if w > m then w else m
  {
    assert lines[..i + 1][..i] == lines[..i];
  }

  /**
   * The box of a text item: left at x, right at x plus the widest line (or x for
   * lines of no width), top one ascent above the first baseline, bottom one
   * descent below the last baseline, which is (lines - 1) font spacings down.
   */
  lemma TextBoundsSpec(pf: Platform, text: string, x: real, y: real, paint: Paint)
    ensures var r := TextBounds(pf, text, x, y, paint);
      var fm := pf.fontMetrics(paint);
      var lines := SplitLines(text);
      && r.left == x
      && (forall i :: 0 <= i < |lines| ==> x + pf.measureText(paint, lines[i]) <= r.right)
      && (r.right == x || exists i :: 0 <= i < |lines| && r.right == x + pf.measureText(paint, lines[i]))
      && r.top == y + fm.ascent
      && r.bottom == y + (|lines| - 1) as real * fm.fontSpacing + fm.descent
  {
    MaxWidthIsMax(pf, paint, SplitLines(text));
  }

  /**
   * Appending a newline and one more line keeps the left, top and the lines
   * already there, never narrows the box, and grows it by exactly one font spacing.
   */
  lemma AppendLineBounds(pf: Platform, text: string, line: string, x: real, y: real, paint: Paint)
    requires '\n' !in line
    ensures var before := TextBounds(pf, text, x, y, paint);
      var after := TextBounds(pf, text + "\n" + line, x, y, paint);
      && after.left == before.left && after.top == before.top
      && after.right >= before.right
      && after.bottom == before.bottom + pf.fontMetrics(paint).fontSpacing
  {
    var a := SplitLines(text);
    SplitAppendLine(text, line);
    MaxWidthAppend(pf, paint, a, line);
    OneMoreSpacing(|a|, pf.fontMetrics(paint).fontSpacing);
  }

  /** A newline and a line without newlines add exactly that line. */
  lemma SplitAppendLine(text: string, line: string)
    requires '\n' !in line
    ensures SplitLines(text + "\n" + line) == SplitLines(text) + [line]
  {
    SplitSplice(text, line);
    SplitNoNewline(line);
  }

  /** One more line puts the last baseline one spacing lower. */
  lemma OneMoreSpacing(n: int, sp: real)
    ensures ((n + 1) - 1) as real * sp == (n - 1) as real * sp + sp
  {
  }

  lemma MaxWidthAppend(pf: Platform, paint: Paint, a: seq<string>, line: string)
    ensures MaxWidth(pf, paint, a + [line]) >= MaxWidth(pf, paint, a)
  {
    assert (a + [line])[..|a|] == a;
  }

  /** Under lawful font metrics the box is never inverted. */
  lemma TextBoundsNonEmpty(pf: Platform, text: string, x: real, y: real, paint: Paint)
    requires Lawful(pf)
    ensures var r := TextBounds(pf, text, x, y, paint); r.Width() >= 0.0 && r.Height() >= 0.0
  {
    var r := TextBounds(pf, text, x, y, paint);
    var fm := pf.fontMetrics(paint);
    var n := |SplitLines(text)|;
    assert fm.ascent <= 0.0 <= fm.descent && fm.fontSpacing >= 0.0;
    assert (n - 1) as real * fm.fontSpacing >= 0.0;
  }

  /** The unscaled local box every touch and control test starts from. */
  function LocalBounds(pf: Platform, it: Item): (r: Rect)
    ensures it.kind.TextItem? ==> r == TextBounds(pf, it.kind.text, it.x, it.y, it.kind.paint)
    ensures it.kind.ImageItem? ==>
      r.left == it.x && r.top == it.y &&
      r.Width() == it.kind.bitmap.width as real && r.Height() == it.kind.bitmap.height as real
  {
    match it.kind
    case TextItem(text, paint, _) => TextBounds(pf, text, it.x, it.y, paint)
    case ImageItem(b) => Rect(it.x, it.y, it.x + b.width as real, it.y + b.height as real)
  }

  // ---------------------------------------------------------------------------
  // applyStyle
  // ---------------------------------------------------------------------------

  /** TextItem.applyStyle(): push the style into the text and the paint. */
  function ApplyStyle(k: ItemKind): (r: ItemKind)
    requires k.TextItem?
    ensures r.TextItem? && r.style == k.style && r.text == k.style.text
    ensures r.paint.textSize == k.style.textSize
    ensures r.paint.typeface == Create(k.style.fontFamily, k.style.typeface)
    ensures k.style.isStrokeEnabled ==>
      r.paint.style == Stroke && r.paint.color == k.style.strokeColor &&
      r.paint.strokeWidth == k.style.strokeWidth
    ensures !k.style.isStrokeEnabled ==>
      r.paint.style == Fill && r.paint.color == k.style.textColor &&
      r.paint.strokeWidth == k.paint.strokeWidth
    ensures r.paint.shadow == (if k.style.isShadowEnabled then Some(StyleShadow(k.style)) else None)
  {
    var st := k.style;
    var p0 := k.paint.(color := st.textColor, textSize := st.textSize,
                       typeface := Create(st.fontFamily, st.typeface));
    var p1 := if st.isStrokeEnabled
              then p0.(style := Stroke, strokeWidth := st.strokeWidth, color := st.strokeColor)
              else p0.(style := Fill, color := st.textColor);
    var p2 := p1.(shadow := if st.isShadowEnabled then Some(StyleShadow(st)) else None);
    TextItem(st.text, p2, st)
  }

  /** Applying a style a second time changes nothing. */
  lemma ApplyStyleIdempotent(k: ItemKind)
    requires k.TextItem?
    ensures ApplyStyle(ApplyStyle(k)) == ApplyStyle(k)
  {
    var once := ApplyStyle(k);
    var twice := ApplyStyle(once);
    assert twice.paint == once.paint;
  }

  // ---------------------------------------------------------------------------
  // drawWithStyle, as the list of canvas calls it makes
  // ---------------------------------------------------------------------------

  datatype DrawCmd =
    | Save
    | RotateAbout(degrees: real, cx: real, cy: real)
    | ScaleAbout(sx: real, sy: real, cx: real, cy: real)
    | DrawText(line: string, x: real, y: real, paint: Paint)
    | Restore

  /** `Paint(paint)` set up for the stroke pass. */
  function StrokePass(paint: Paint, st: TextStyle): Paint
  {
    paint.(style := Stroke, strokeWidth := st.strokeWidth, color := st.strokeColor,
           shadow := if st.isShadowEnabled then Some(StyleShadow(st)) else paint.shadow)
  }

  /** `Paint(paint)` set up for the fill pass. */
  function FillPass(paint: Paint, st: TextStyle): Paint
  {
    paint.(style := Fill, color := st.textColor,
           shadow := if st.isShadowEnabled then Some(StyleShadow(st)) else paint.shadow)
  }

  /** The draws for one line at baseline `y`. */
  function LineDraws(line: string, x: real, y: real, paint: Paint, st: TextStyle): seq<DrawCmd>
  {
    if st.isStrokeEnabled then
      [DrawText(line, x, y, StrokePass(paint, st)), DrawText(line, x, y, FillPass(paint, st))]
    else
      [DrawText(line, x, y, paint)]
  }

  /** The draws for the first `n` of `lines`, line i at baseline `y + i·spacing`. */
  function LinesDraws(lines: seq<string>, n: nat, x: real, y: real, spacing: real, paint: Paint, st: TextStyle): seq<DrawCmd>
    requires n <= |lines|
  {
    if n == 0 then []
    else
      LinesDraws(lines, n - 1, x, y, spacing, paint, st) +
      LineDraws(lines[n - 1], x, y + (n - 1) as real * spacing, paint, st)
  }

  /** Everything drawWithStyle issues for a text item. */
  function StyledDraws(pf: Platform, it: Item): seq<DrawCmd>
    requires it.kind.TextItem?
  {
    var b := TextBounds(pf, it.kind.text, it.x, it.y, it.kind.paint);
    [Save, RotateAbout(it.rotation, b.CenterX(), b.CenterY()),
     ScaleAbout(it.scale, it.scale, b.CenterX(), b.CenterY())] +
    var lines := SplitLines(it.kind.text);
    LinesDraws(lines, |lines|, it.x, it.y, pf.fontMetrics(it.kind.paint).fontSpacing,
               it.kind.paint, it.kind.style) +
    [Restore]
  }

  /** drawWithStyle(canvas): transform about the box centre, then draw line by line. */
  method DrawWithStyle(pf: Platform, it: Item) returns (cmds: seq<DrawCmd>)
    requires it.kind.TextItem?
    ensures cmds == StyledDraws(pf, it)
  {
    var bounds := GetBounds(pf, it.kind.text, it.x, it.y, it.kind.paint);
    var lines := SplitLines(it.kind.text);
    var body := DrawLines(lines, it.x, it.y, pf.fontMetrics(it.kind.paint).fontSpacing,
                          it.kind.paint, it.kind.style);
    cmds := [Save, RotateAbout(it.rotation, bounds.CenterX(), bounds.CenterY()),
             ScaleAbout(it.scale, it.scale, bounds.CenterX(), bounds.CenterY())] + body + [Restore];
  }

  /** The per-line loop of drawWithStyle, advancing the baseline by the line height. */
  method DrawLines(lines: seq<string>, x: real, y: real, lineHeight: real, paint: Paint, style: TextStyle)
    returns (cmds: seq<DrawCmd>)
    ensures cmds == LinesDraws(lines, |lines|, x, y, lineHeight, paint, style)
  {
    cmds := [];
    var currentY := y;
    var i := 0;
    while i < |lines|
      invariant 0 <= i <= |lines|
      invariant currentY == y + i as real * lineHeight
      invariant cmds == LinesDraws(lines, i, x, y, lineHeight, paint, style)
    {
      var drawn := DrawLine(lines[i], x, currentY, paint, style);
      LinesDrawsNext(lines, i, x, y, lineHeight, paint, style, cmds, currentY, drawn);
      cmds := cmds + drawn;
      currentY := currentY + lineHeight;
      i := i + 1;
    }
  }

  /** Drawing one more line issues that line's draws at the next baseline. */
  lemma LinesDrawsNext(lines: seq<string>, i: nat, x: real, y: real, spacing: real, paint: Paint, st: TextStyle,
                       cmds: seq<DrawCmd>, currentY: real, drawn: seq<DrawCmd>)
    requires i < |lines| && cmds == LinesDraws(lines, i, x, y, spacing, paint, st)
    requires currentY == y + i as real * spacing && drawn == LineDraws(lines[i], x, currentY, paint, st)
    ensures cmds + drawn == LinesDraws(lines, i + 1, x, y, spacing, paint, st)
    ensures currentY + spacing == y + (i + 1) as real * spacing
  {
  }

  /** One line: a stroke pass and a fill pass, or a single draw with the item's paint. */
  method DrawLine(line: string, x: real, currentY: real, paint: Paint, style: TextStyle)
    returns (cmds: seq<DrawCmd>)
    ensures cmds == LineDraws(line, x, currentY, paint, style)
  {
    if style.isStrokeEnabled {
      var strokePaint := paint.(style := Stroke, strokeWidth := style.strokeWidth, color := style.strokeColor);
      if style.isShadowEnabled {
        strokePaint := strokePaint.(shadow := Some(StyleShadow(style)));
      }
      var fillPaint := paint.(style := Fill, color := style.textColor);
      if style.isShadowEnabled {
        fillPaint := fillPaint.(shadow := Some(StyleShadow(style)));
      }
      cmds := [DrawText(line, x, currentY, strokePaint), DrawText(line, x, currentY, fillPaint)];
    } else {
      cmds := [DrawText(line, x, currentY, paint)];
    }
  }

  /** Two draws per line with a stroke, one without. */
  lemma {:induction false} DrawCount(lines: seq<string>, n: nat, x: real, y: real, sp: real, paint: Paint, st: TextStyle)
    requires n <= |lines|
    ensures |LinesDraws(lines, n, x, y, sp, paint, st)| == n * (if st.isStrokeEnabled then 2 else 1)
  {
    if n > 0 {
      DrawCount(lines, n - 1, x, y, sp, paint, st);
    }
  }

  /** With a stroke, line i is drawn stroke first and then fill, both at (x, y + i·spacing). */
  lemma {:induction false} StrokedLineDraws(lines: seq<string>, n: nat, x: real, y: real, sp: real, paint: Paint, st: TextStyle, i: nat)
    requires st.isStrokeEnabled && i < n <= |lines|
    ensures var d := LinesDraws(lines, n, x, y, sp, paint, st);
      |d| == 2 * n &&
      d[2 * i] == DrawText(lines[i], x, y + i as real * sp, StrokePass(paint, st)) &&
      d[2 * i + 1] == DrawText(lines[i], x, y + i as real * sp, FillPass(paint, st))
  {
    DrawCount(lines, n, x, y, sp, paint, st);
    DrawCount(lines, n - 1, x, y, sp, paint, st);
    if i < n - 1 {
      StrokedLineDraws(lines, n - 1, x, y, sp, paint, st, i);
    }
  }

  /** Without a stroke, line i is drawn once with the item's own paint at (x, y + i·spacing). */
  lemma {:induction false} PlainLineDraws(lines: seq<string>, n: nat, x: real, y: real, sp: real, paint: Paint, st: TextStyle, i: nat)
    requires !st.isStrokeEnabled && i < n <= |lines|
    ensures var d := LinesDraws(lines, n, x, y, sp, paint, st);
      |d| == n && d[i] == DrawText(lines[i], x, y + i as real * sp, paint)
  {
    DrawCount(lines, n, x, y, sp, paint, st);
    DrawCount(lines, n - 1, x, y, sp, paint, st);
    if i < n - 1 {
      PlainLineDraws(lines, n - 1, x, y, sp, paint, st, i);
    }
  }

  /**
   * Once the style has been applied, every text draw of the item carries the
   * style's shadow when shadow is enabled and no shadow otherwise, in both passes.
   */
  lemma {:induction false} DrawShadows(lines: seq<string>, n: nat, x: real, y: real, sp: real, k: ItemKind)
    requires k.TextItem? && n <= |lines|
    ensures var a := ApplyStyle(k);
      forall c :: c in LinesDraws(lines, n, x, y, sp, a.paint, a.style) ==>
        c.DrawText? &&
        c.paint.shadow == (if k.style.isShadowEnabled then Some(StyleShadow(k.style)) else None)
  {
    if n > 0 {
      DrawShadows(lines, n - 1, x, y, sp, k);
    }
  }
}
