/**
 * The slice of android.graphics that the editing surface relies on: RectF, Paint,
 * packed colours, bitmap dimensions, Kotlin's Float/Int conversions, and the
 * platform functions (text measuring, font metrics, atan2, sqrt, the inverse of an
 * item's rotate-then-scale matrix) that are given here only through their contracts.
 * Float values are modelled as reals; IEEE rounding is not modelled.
 */
module Graphics {
  import opened Wrappers

  // Packed ARGB colours as the signed 32-bit Ints Android uses.
  const BLACK: int := -16777216          // 0xFF000000
  const RED: int := -65536               // 0xFFFF0000
  const WHITE: int := -1                 // 0xFFFFFFFF
  const HALF_TRANSPARENT_BLACK: int := -2147483648   // Color.parseColor("#80000000")

  const INT_MAX: int := 2147483647
  const INT_MIN: int := -2147483648

  datatype Point = Point(x: real, y: real)

  /** android.graphics.RectF, with the framework's own containment rules. */
  datatype Rect = Rect(left: real, top: real, right: real, bottom: real) {
    function Width(): real { right - left }
    function Height(): real { bottom - top }
    function CenterX(): real { (left + right) / 2.0 }
    function CenterY(): real { (top + bottom) / 2.0 }

    /** RectF.contains(x, y): false for an empty rect, right and bottom edges excluded. */
    predicate Contains(px: real, py: real)
    {
      left < right && top < bottom && left <= px < right && top <= py < bottom
    }

    /** RectF.contains(r): false when this rect is empty, edges included. */
    predicate ContainsRect(r: Rect)
    {
      left < right && top < bottom &&
      left <= r.left && top <= r.top && right >= r.right && bottom >= r.bottom
    }

    /** RectF.inset(dx, dy); negative insets grow the rect. */
    function Inset(dx: real, dy: real): (r: Rect)
      ensures r.Width() == Width() - 2.0 * dx && r.Height() == Height() - 2.0 * dy
      ensures r.CenterX() == CenterX() && r.CenterY() == CenterY()
    {
      Rect(left + dx, top + dy, right - dx, bottom - dy)
    }
  }

  /** A decoded bitmap, of which only the pixel dimensions matter here. */
  datatype Bitmap = Bitmap(width: int, height: int)

  /** Every bitmap the platform hands out has positive dimensions. */
  predicate IsBitmap(b: Bitmap)
  {
    b.width > 0 && b.height > 0
  }

  datatype PaintStyle = Fill | Stroke

  datatype Shadow = Shadow(radius: real, dx: real, dy: real, color: int)

  datatype Typeface = DefaultTypeface | Create(family: string, style: int)

  /** The Paint attributes that text layout and the draw passes read. */
  datatype Paint = Paint(
    color: int,
    textSize: real,
    style: PaintStyle,
    strokeWidth: real,
    shadow: Option<Shadow>,
    typeface: Typeface)

  /** `Paint()` as constructed by the view: black, filled, no shadow, default face. */
  function NewPaint(color: int, textSize: real): Paint
  {
    Paint(color, textSize, Fill, 0.0, None, DefaultTypeface)
  }

  /** Paint.getFontMetrics() and Paint.getFontSpacing(). */
  datatype FontMetrics = FontMetrics(ascent: real, descent: real, fontSpacing: real)

  /**
   * The platform functions the view calls but whose code is not part of this model.
   * `invert(rotation, scale, center, p)` maps a screen point through the inverse of
   * "rotate by `rotation` degrees about `center`, then scale by `scale` about `center`".
   * `atan2Degrees(dy, dx)` is Math.toDegrees(atan2(dy, dx)).
   */
  datatype Platform = Platform(
    measureText: (Paint, string) -> real,
    fontMetrics: Paint -> FontMetrics,
    atan2Degrees: (real, real) -> real,
    sqrt: real -> real,
    invert: (real, real, Point, Point) -> Point)

  /** The contracts the platform functions are known to satisfy. */
  ghost predicate Lawful(pf: Platform)
  {
    && (forall paint, s :: pf.measureText(paint, s) >= 0.0)
    && (forall paint :: pf.fontMetrics(paint).ascent <= 0.0 <= pf.fontMetrics(paint).descent)
    && (forall paint :: pf.fontMetrics(paint).fontSpacing >= 0.0)
    && (forall dy, dx :: -180.0 <= pf.atan2Degrees(dy, dx) <= 180.0)
    && (forall v :: v >= 0.0 ==> pf.sqrt(v) >= 0.0 && pf.sqrt(v) * pf.sqrt(v) == v)
    // with no rotation the inverse only undoes the scaling about the centre
    && (forall s, c, p :: s != 0.0 ==>
          pf.invert(0.0, s, c, p) == Point(c.x + (p.x - c.x) / s, c.y + (p.y - c.y) / s))
  }

  lemma InvertIdentity(pf: Platform, c: Point, p: Point)
    requires Lawful(pf)
    ensures pf.invert(0.0, 1.0, c, p) == p
  {
    assert pf.invert(0.0, 1.0, c, p) == Point(c.x + (p.x - c.x) / 1.0, c.y + (p.y - c.y) / 1.0);
  }

  /** Float.toInt(): rounds toward zero. */
  function Trunc(r: real): (t: int)
    ensures r >= 0.0 ==> 0 <= t && t as real <= r < t as real + 1.0
    ensures r < 0.0 ==> t <= 0 && t as real - 1.0 < r <= t as real
  {
    if r >= 0.0 then r.Floor else -((-r).Floor)
  }

  /** Multiplying by a non-negative factor keeps the order. */
  lemma MulMono(a: real, x: real, y: real)
    requires a >= 0.0 && x <= y
    ensures a * x <= a * y
  {
  }

  /** Kotlin's Int division, which truncates toward zero (Dafny's is Euclidean). */
  function KDiv(a: int, b: int): (q: int)
    requires b != 0
    ensures a >= 0 && b > 0 ==> q == a / b
    ensures a < 0 && b > 0 ==> q == -((-a) / b)
    ensures a <= 0 && b > 0 ==> q <= 0
  {
    if (a >= 0) == (b > 0) then
      (if a >= 0 then a / b else (-a) / (-b))
    else
      -((if a >= 0 then a else -a) / (if b > 0 then b else -b))
  }

  /**
   * Kotlin's Float remainder `a % m` for a period of at least one unit: the
   * dividend minus a whole number of periods, taken toward zero, so the sign
   * follows `a`.
   */
  function KotlinRem(a: real, m: real): (r: real)
    requires m >= 1.0
    ensures -m < r < m
    ensures a >= 0.0 ==> r >= 0.0
    ensures a <= 0.0 ==> r <= 0.0
    ensures -m < a < m ==> r == a
    decreases if a >= 0.0 then a.Floor else (-a).Floor
  {
    if a >= m then KotlinRem(a - m, m)
    else if a <= -m then KotlinRem(a + m, m)
    else a
  }
}
