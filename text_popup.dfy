/**
 * The text-format record and the handlers of the text-format popup
 * (src/components/TextPopup.jsx). Each handler builds a new record from the old
 * one with a single field replaced and hands it to the owner of the format.
 */
module TextPopup {
  import opened Wrappers

  /** `fontSize` is `None` when the record carries no size (JavaScript `undefined`). */
  datatype TextFormat = TextFormat(bold: bool, underline: bool, italic: bool, fontSize: Option<int>)

  /** The whiteboard's format before any change. */
  const DEFAULT_FORMAT: TextFormat := TextFormat(false, false, false, Some(16))

  /** The sizes the popup's selector offers, in the order it lists them. */
  const FONT_SIZES: seq<int> := [12, 14, 16, 18, 20, 24, 28, 32, 36, 48, 64, 72]

  /** The size the selector shows for a record without a (non-zero) size. */
  const DEFAULT_SHOWN_SIZE: int := 16

  /** Flips `bold`; every other field is kept. */
  function ToggleBold(f: TextFormat): (r: TextFormat)
    ensures r.bold != f.bold
    ensures r.underline == f.underline && r.italic == f.italic && r.fontSize == f.fontSize
  {
    f.(bold := !f.bold)
  }

  /** Flips `underline`; every other field is kept. */
  function ToggleUnderline(f: TextFormat): (r: TextFormat)
    ensures r.underline != f.underline
    ensures r.bold == f.bold && r.italic == f.italic && r.fontSize == f.fontSize
  {
    f.(underline := !f.underline)
  }

  /** Flips `italic`; every other field is kept. */
  function ToggleItalic(f: TextFormat): (r: TextFormat)
    ensures r.italic != f.italic
    ensures r.bold == f.bold && r.underline == f.underline && r.fontSize == f.fontSize
  {
    f.(italic := !f.italic)
  }

  /** The selector's change handler: replaces the size and nothing else. */
  function WithFontSize(f: TextFormat, size: int): (r: TextFormat)
    ensures r.fontSize == Some(size)
    ensures r.bold == f.bold && r.underline == f.underline && r.italic == f.italic
  {
    f.(fontSize := Some(size))
  }

  /** `textFormat.fontSize || 16`: an absent or zero size shows as 16. */
  function ShownFontSize(f: TextFormat): (r: int)
    ensures r != 0
    ensures f.fontSize.Some? && f.fontSize.value != 0 ==> r == f.fontSize.value
    ensures f.fontSize.None? || f.fontSize.value == 0 ==> r == DEFAULT_SHOWN_SIZE
  {
    match f.fontSize
    case Some(n) => if n != 0 then n else DEFAULT_SHOWN_SIZE
    case None => DEFAULT_SHOWN_SIZE
  }

  /** Each toggle undoes itself: pressing a format button twice restores the format. */
  lemma TogglesAreInvolutions(f: TextFormat)
    ensures ToggleBold(ToggleBold(f)) == f
    ensures ToggleUnderline(ToggleUnderline(f)) == f
    ensures ToggleItalic(ToggleItalic(f)) == f
  {
  }

  /**
   * The selector always shows one of its own options: the default is in the palette,
   * and every palette choice is shown as chosen.
   */
  lemma ShownSizeIsAnOption(f: TextFormat, size: int)
    requires f.fontSize.None? || f.fontSize.value == 0 || f.fontSize.value in FONT_SIZES
    requires size in FONT_SIZES
    ensures ShownFontSize(f) in FONT_SIZES
    ensures ShownFontSize(WithFontSize(f, size)) == size
  {
    assert FONT_SIZES[2] == DEFAULT_SHOWN_SIZE;
    assert 0 !in FONT_SIZES;
  }
}
