/** The styling record attached to every text item (model/TextStyle.kt). */
module TextStyles {
  import opened Graphics

  /** Typeface.NORMAL */
  const NORMAL: int := 0

  datatype TextStyle = TextStyle(
    text: string,
    textColor: int,
    textSize: real,
    fontFamily: string,
    typeface: int,
    // stroke properties
    isStrokeEnabled: bool,
    strokeColor: int,
    strokeWidth: real,
    // shadow properties
    isShadowEnabled: bool,
    shadowColor: int,
    shadowRadius: real,
    shadowDx: real,
    shadowDy: real)

  /** The style built with every parameter left at its declared default. */
  function DefaultStyle(): TextStyle
  {
    TextStyle("Sample Text", BLACK, 60.0, "sans-serif", NORMAL,
              false, BLACK, 2.0,
              false, HALF_TRANSPARENT_BLACK, 5.0, 5.0, 5.0)
  }

  /** `TextStyle(text = .., textColor = .., textSize = ..)`: three named arguments, the rest defaulted. */
  function StyleWith(text: string, textColor: int, textSize: real): (s: TextStyle)
    ensures s.text == text && s.textColor == textColor && s.textSize == textSize
    ensures s.(text := "Sample Text", textColor := BLACK, textSize := 60.0) == DefaultStyle()
  {
    DefaultStyle().(text := text, textColor := textColor, textSize := textSize)
  }

  /** The shadow layer a style asks for. */
  function StyleShadow(s: TextStyle): Shadow
  {
    Shadow(s.shadowRadius, s.shadowDx, s.shadowDy, s.shadowColor)
  }

  /** TextStyle.copy(): a new record carrying all thirteen fields over. */
  function Copy(s: TextStyle): (c: TextStyle)
    ensures c == s
  {
    TextStyle(s.text, s.textColor, s.textSize, s.fontFamily, s.typeface,
              s.isStrokeEnabled, s.strokeColor, s.strokeWidth,
              s.isShadowEnabled, s.shadowColor, s.shadowRadius, s.shadowDx, s.shadowDy)
  }

  /**
   * Editing a copy never reaches the original: whatever field edit is applied to
   * the copy, the original still compares equal to what it was and the copy
   * differs from it exactly where it was edited.
   */
  lemma CopyIsIndependent(s: TextStyle, newText: string, newSize: real)
    ensures var c := Copy(s).(text := newText, textSize := newSize);
      c.text == newText && c.textSize == newSize &&
      c.(text := s.text, textSize := s.textSize) == s
  {
  }

  /** The defaults: text, size, family and face, then stroke and shadow disabled. */
  lemma DefaultValues()
    ensures var d := DefaultStyle();
      && d.text == "Sample Text" && d.textColor == BLACK && d.textSize == 60.0
      && d.fontFamily == "sans-serif" && d.typeface == NORMAL
      && !d.isStrokeEnabled && d.strokeColor == BLACK && d.strokeWidth == 2.0
      && !d.isShadowEnabled && d.shadowColor == HALF_TRANSPARENT_BLACK
      && d.shadowRadius == 5.0 && d.shadowDx == 5.0 && d.shadowDy == 5.0
  {
  }
}
