/**
 * The arithmetic both camera fragments (ui/camera/CameraFragment.kt and the older
 * ui/CameraFragment.kt) share: the centred crop of a captured photo to the chosen
 * aspect ratio, the preview container's height, CameraX's aspect-ratio constant,
 * the number of padding tabs on each side of the filter strip, and the timer
 * tab's text read as a number of seconds.
 */
module CameraMath {
  import opened Wrappers
  import opened Graphics

  /** The ratio tabs and the timer tabs, in tab order. */
  const ASPECT_RATIOS: seq<string> := ["3:4", "9:16", "1:1", "Full"]
  const TIMER_OPTIONS: seq<string> := ["0", "3", "5", "10"]

  /** A target width : height pair. */
  datatype Ratio = Ratio(w: int, h: int)

  /** The width : height pair cropToAspectRatio aims for; "Full" aims for 9:19 and an unknown ratio for 4:3. */
  function TargetRatio(ratio: string): (r: Ratio)
    ensures r.w > 0 && r.h > 0
    ensures ratio !in {"1:1", "3:4", "9:16", "Full"} ==> r == Ratio(4, 3)
  {
    match ratio
    case "1:1" => Ratio(1, 1)
    case "3:4" => Ratio(3, 4)
    case "9:16" => Ratio(9, 16)
    case "Full" => Ratio(9, 19)
    case _ => Ratio(4, 3)
  }

  /** The target ratio as the Float quotient `targetW.toFloat() / targetH`. */
  function TargetValue(ratio: string): (target: real)
    ensures target > 0.0
  {
    var t := TargetRatio(ratio);
    PositiveQuotient(t.w as real, t.h as real);
    t.w as real / t.h as real
  }

  lemma PositiveQuotient(a: real, b: real)
    requires a > 0.0 && b > 0.0
    ensures a / b > 0.0
  {
  }

  /** The rectangle passed to Bitmap.createBitmap(bitmap, x, y, width, height). */
  datatype CropRect = CropRect(x: int, y: int, width: int, height: int)

  /** A rectangle of whole pixels lying inside a `w` x `h` bitmap. */
  predicate Inside(c: CropRect, w: int, h: int)
  {
    0 <= c.x && 0 <= c.y && 0 <= c.width && 0 <= c.height && c.x + c.width <= w && c.y + c.height <= h
  }

  lemma ScaleBelow(h: real, a: real, b: real)
    requires h > 0.0 && a < b
    ensures h * a < h * b
  {
  }

  lemma RatioTimes(w: real, h: real)
    requires h > 0.0
    ensures h * (w / h) == w
  {
  }

  lemma DivideAtMost(w: real, h: real, t: real)
    requires h > 0.0 && t > 0.0 && w / h <= t
    ensures w / t <= h
  {
    RatioTimes(w, h);
    assert w <= h * t by {
      if w > h * t {
        ScaleBelow(h, t, w / h);
      }
    }
    assert w / t <= (h * t) / t;
  }

  /** A photo wider than `t` has room for a positive width of height times `t`. */
  lemma WideFits(w: real, h: real, t: real)
    requires h > 0.0 && t > 0.0 && w / h > t
    ensures 0.0 < h * t < w
  {
    ScaleBelow(h, t, w / h);
    RatioTimes(w, h);
    ScaleBelow(h, 0.0, t);
  }

  /** A photo no wider than `t` has room for a height of width over `t`. */
  lemma TallFits(w: real, h: real, t: real)
    requires w > 0.0 && h > 0.0 && t > 0.0 && w / h <= t
    ensures 0.0 < w / t <= h
  {
    DivideAtMost(w, h, t);
    PositiveQuotient(w, t);
  }

  /**
   * cropToAspectRatio exactly as written, for a `w` x `h` photo and the target
   * ratio `target`: the wide cut `(srcHeight * target).toInt()` wide and the tall
   * cut `(srcWidth / target).toInt()` high, either of which truncates to 0 for a
   * thin enough photo.
   */
  function CutAsWritten(w: int, h: int, target: real): CropRect
    requires h > 0 && target > 0.0
  {
    if w as real / h as real > target then
      var newWidth := Trunc(h as real * target);
      CropRect(KDiv(w - newWidth, 2), 0, newWidth, h)
    else
      var newHeight := Trunc(w as real / target);
      CropRect(0, KDiv(h - newHeight, 2), w, newHeight)
  }

  function CropAsWritten(bitmap: Bitmap, ratio: string): CropRect
    requires IsBitmap(bitmap)
  {
    CutAsWritten(bitmap.width, bitmap.height, TargetValue(ratio))
  }

  /** As written, a 1000 x 1 photo cropped to 3:4 is cut to width 0, and createBitmap throws. */
  lemma CropAsWrittenCollapses()
    ensures CropAsWritten(Bitmap(1000, 1), "3:4").width == 0
  {
    assert TargetValue("3:4") == 0.75;
  }

  /** A truncated side, but never below one pixel. */
  function AtLeastOnePixel(r: real): (n: int)
    requires r >= 0.0
    ensures n >= 1
    ensures n as real <= r || n == 1
    ensures r < n as real + 1.0
    ensures Trunc(r) >= 1 ==> n == Trunc(r)
  {
    var t := Trunc(r);
    if t < 1 then 1 else t
  }

  /**
   * The wide cut of a `w` x `h` photo for ratio `target`: the full height, the
   * widest whole width of at most height times `target` (but at least one
   * pixel), centred to within a pixel.
   */
  predicate WideCut(c: CropRect, w: int, h: int, target: real)
  {
    && Inside(c, w, h) && c.width >= 1
    && c.y == 0 && c.height == h
    && (c.width as real <= h as real * target || c.width == 1)
    && h as real * target < c.width as real + 1.0
    && 2 * c.x <= w - c.width <= 2 * c.x + 1
  }

  /**
   * The tall cut: the full width, the tallest whole height of at most width
   * over `target` (but at least one pixel), centred to within a pixel.
   */
  predicate TallCut(c: CropRect, w: int, h: int, target: real)
    requires target > 0.0
  {
    && Inside(c, w, h) && c.height >= 1
    && c.x == 0 && c.width == w
    && (c.height as real <= w as real / target || c.height == 1)
    && w as real / target < c.height as real + 1.0
    && 2 * c.y <= h - c.height <= 2 * c.y + 1
  }

  /** The wide case of cropToAspectRatio, with the cut side kept at one pixel or more. */
  function WideCrop(w: int, h: int, target: real): (c: CropRect)
    requires w > 0 && h > 0 && target > 0.0 && w as real / h as real > target
    ensures WideCut(c, w, h, target)
  {
    WideFits(w as real, h as real, target);
    var newWidth := AtLeastOnePixel(h as real * target);
    CropRect(KDiv(w - newWidth, 2), 0, newWidth, h)
  }

  /** The tall case of cropToAspectRatio, with the cut side kept at one pixel or more. */
  function TallCrop(w: int, h: int, target: real): (c: CropRect)
    requires w > 0 && h > 0 && target > 0.0 && w as real / h as real <= target
    ensures TallCut(c, w, h, target)
  {
    TallFits(w as real, h as real, target);
    var newHeight := AtLeastOnePixel(w as real / target);
    CropRect(0, KDiv(h - newHeight, 2), w, newHeight)
  }

  /**
   * cropToAspectRatio, with each cut side kept at one pixel or more: a photo
   * wider than the target gets the wide cut, any other photo the tall cut. The
   * rectangle always lies inside the photo and is never empty.
   */
  function CropToAspectRatio(bitmap: Bitmap, ratio: string): (c: CropRect)
    requires IsBitmap(bitmap)
    ensures Inside(c, bitmap.width, bitmap.height) && c.width >= 1 && c.height >= 1
    ensures if bitmap.width as real / bitmap.height as real > TargetValue(ratio)
      then WideCut(c, bitmap.width, bitmap.height, TargetValue(ratio))
      else TallCut(c, bitmap.width, bitmap.height, TargetValue(ratio))
  {
    var srcRatio := bitmap.width as real / bitmap.height as real;
    var targetRatio := TargetValue(ratio);
    if srcRatio > targetRatio then WideCrop(bitmap.width, bitmap.height, targetRatio)
    else TallCrop(bitmap.width, bitmap.height, targetRatio)
  }

  /** Wherever the code as written cuts a non-empty rectangle, the corrected crop cuts the same one. */
  lemma CropAgreesWhenNonEmpty(bitmap: Bitmap, ratio: string)
    requires IsBitmap(bitmap)
    ensures var a := CropAsWritten(bitmap, ratio);
      a.width >= 1 && a.height >= 1 ==> CropToAspectRatio(bitmap, ratio) == a
  {
    var w, h, t := bitmap.width, bitmap.height, TargetValue(ratio);
    CutAgreesWhenNonEmpty(w, h, t);
  }

  lemma CutAgreesWhenNonEmpty(w: int, h: int, t: real)
    requires w > 0 && h > 0 && t > 0.0
    ensures var a := CutAsWritten(w, h, t);
      a.width >= 1 && a.height >= 1 ==>
      a == if w as real / h as real > t then WideCrop(w, h, t) else TallCrop(w, h, t)
  {
  }

  /**
   * With the four ratio tabs the target is at most 1, so only the wide cut can
   * collapse: as written, the tall cut is always at least one pixel high.
   */
  lemma TallCutNeverEmpty(bitmap: Bitmap, ratio: string)
    requires IsBitmap(bitmap) && ratio in ASPECT_RATIOS
    requires bitmap.width as real / bitmap.height as real <= TargetValue(ratio)
    ensures CropAsWritten(bitmap, ratio).height >= 1
  {
    var t := TargetValue(ratio);
    assert 0.0 < t <= 1.0;
    AtMostOneDivides(bitmap.width as real, t);
  }

  lemma AtMostOneDivides(w: real, t: real)
    requires w >= 1.0 && 0.0 < t <= 1.0
    ensures w / t >= 1.0
  {
    assert w / t * t == w;
  }

  /**
   * updatePreviewSize: the preview container's layout height for a screen
   * `screenWidth` pixels wide, the width scaled by the ratio and rounded down;
   * "Full" sets 0 so that the layout's constraints decide, and an unknown ratio
   * is treated as 3:4.
   */
  function PreviewLayoutHeight(ratio: string, screenWidth: int): (h: int)
    ensures ratio == "Full" ==> h == 0
    ensures ratio == "1:1" ==> h == screenWidth
    ensures screenWidth >= 0 && ratio == "9:16" ==> 9 * h <= 16 * screenWidth < 9 * h + 9
    ensures screenWidth >= 0 && ratio !in {"9:16", "1:1", "Full"} ==> 3 * h <= 4 * screenWidth < 3 * h + 3
  {
    var height := match ratio
      case "3:4" => KDiv(screenWidth * 4, 3)
      case "9:16" => KDiv(screenWidth * 16, 9)
      case "1:1" => screenWidth
      case "Full" => 0
      case _ => KDiv(screenWidth * 4, 3);
    if ratio == "Full" then 0 else height
  }

  /** AspectRatio.RATIO_4_3 and AspectRatio.RATIO_16_9 of CameraX. */
  const RATIO_4_3: int := 0
  const RATIO_16_9: int := 1

  /** getCameraXAspectRatio (ui/CameraFragment.kt): the tall ratios ask for 16:9, every other ratio for 4:3. */
  function CameraXAspectRatio(ratio: string): (r: int)
    ensures r == RATIO_4_3 || r == RATIO_16_9
    ensures r == RATIO_16_9 <==> ratio == "9:16" || ratio == "Full"
  {
    match ratio
    case "3:4" => RATIO_4_3
    case "9:16" => RATIO_16_9
    case "1:1" => RATIO_4_3
    case "Full" => RATIO_16_9
    case _ => RATIO_4_3
  }

  /** Math.ceil on a real. */
  function Ceil(x: real): (c: int)
    ensures c as real - 1.0 < x <= c as real
  {
    -((-x).Floor)
  }

  /**
   * `ceil(widthPixels / (2 * density * 80))`: how many 80dp padding tabs fill half
   * the screen, so that the first and the last filter can scroll to its centre.
   */
  function PaddingTabs(widthPixels: int, density: real): (p: int)
    requires density > 0.0
    ensures (p - 1) as real * (2.0 * density * 80.0) < widthPixels as real <= p as real * (2.0 * density * 80.0)
    ensures widthPixels >= 0 ==> p >= 0
  {
    var tabSpan := 2.0 * density * 80.0;
    var c := Ceil(widthPixels as real / tabSpan);
    assert (c - 1) as real * tabSpan < widthPixels as real <= c as real * tabSpan by {
      CeilScaled(widthPixels as real, tabSpan, c);
    }
    c
  }

  lemma CeilScaled(x: real, s: real, c: int)
    requires s > 0.0 && c as real - 1.0 < x / s <= c as real
    ensures (c - 1) as real * s < x <= c as real * s
  {
    RatioTimes(x, s);
    ScaleBelow(s, c as real - 1.0, x / s);
    ScaleAtMost(s, x / s, c as real);
    assert (c - 1) as real * s == s * (c as real - 1.0);
    assert c as real * s == s * c as real;
  }

  lemma ScaleAtMost(h: real, a: real, b: real)
    requires h > 0.0 && a <= b
    ensures h * a <= h * b
  {
  }

  predicate IsDigit(ch: char)
  {
    '0' <= ch <= '9'
  }

  predicate AllDigits(s: string)
  {
    forall i :: 0 <= i < |s| ==> IsDigit(s[i])
  }

  /** The number a string of decimal digits denotes. */
  function DigitsValue(s: string): nat
    requires AllDigits(s)
  {
    if |s| == 0 then 0 else DigitsValue(s[..|s| - 1]) * 10 + (s[|s| - 1] as int - '0' as int)
  }

  /**
   * Kotlin's String.toIntOrNull() for ASCII text: an optional sign followed by at
   * least one decimal digit, giving null for anything else and for a value that
   * does not fit an Int.
   */
  function ParseInt(s: string): (r: Option<int>)
    ensures r.Some? ==> INT_MIN <= r.value <= INT_MAX
    ensures r.Some? ==> |s| > 0
    ensures AllDigits(s) && |s| > 0 ==>
      (r.Some? <==> DigitsValue(s) <= INT_MAX) && (r.Some? ==> r.value == DigitsValue(s))
  {
    if |s| == 0 then None
    else if s[0] == '-' || s[0] == '+' then
      var body := s[1..];
      if |body| == 0 || !AllDigits(body) then None
      else
        var v: int := if s[0] == '-' then -(DigitsValue(body) as int) else DigitsValue(body) as int;
        if INT_MIN <= v <= INT_MAX then Some(v) else None
    else if AllDigits(s) && DigitsValue(s) <= INT_MAX then Some(DigitsValue(s))
    else None
  }

  /** The decimal text of a natural number, as Int.toString() writes it. */
  function Decimal(n: nat): (s: string)
    ensures |s| > 0 && AllDigits(s)
  {
    if n < 10 then [('0' as int + n) as char]
    else Decimal(n / 10) + [('0' as int + n % 10) as char]
  }

  lemma {:induction false} DecimalValue(n: nat)
    ensures DigitsValue(Decimal(n)) == n
  {
    if n >= 10 {
      var s := Decimal(n);
      assert s[..|s| - 1] == Decimal(n / 10);
      DecimalValue(n / 10);
    }
  }

  /** toIntOrNull reads back every Int that toString writes. */
  lemma ParseDecimal(n: nat)
    requires n <= INT_MAX
    ensures ParseInt(Decimal(n)) == Some(n)
  {
    DecimalValue(n);
  }

  /** `text.toIntOrNull() ?: 0`: the seconds a timer tab stands for, 0 when its text is not a number. */
  function TimerSeconds(text: string): (seconds: int)
    ensures ParseInt(text).None? ==> seconds == 0
    ensures forall n: nat :: n <= INT_MAX && text == Decimal(n) ==> seconds == n
  {
    assert forall n: nat :: n <= INT_MAX && text == Decimal(n) ==> ParseInt(text) == Some(n) by {
      forall n: nat | n <= INT_MAX && text == Decimal(n)
        ensures ParseInt(text) == Some(n)
      {
        ParseDecimal(n);
      }
    }
    ParseInt(text).GetOr(0)
  }

  /** Every timer tab reads as the number of seconds its text names. */
  lemma TimerOptionSeconds()
    ensures TimerSeconds(TIMER_OPTIONS[0]) == 0 && TimerSeconds(TIMER_OPTIONS[1]) == 3
    ensures TimerSeconds(TIMER_OPTIONS[2]) == 5 && TimerSeconds(TIMER_OPTIONS[3]) == 10
  {
    assert TIMER_OPTIONS[0] == Decimal(0);
    assert TIMER_OPTIONS[1] == Decimal(3);
    assert TIMER_OPTIONS[2] == Decimal(5);
    assert TIMER_OPTIONS[3] == Decimal(10);
  }
}
