/** The colour-code test shared by the add-note dialog and the main window's
    preview swatch, and the preview choice built on it. */
module ColorCode {

  /** Python's `str.startswith`. */
  predicate StartsWith(s: string, prefix: string) {
    |prefix| <= |s| && s[..|prefix|] == prefix
  }

  /** The acceptance test for an entered colour code: it starts with '#'
      and is exactly seven characters long. The six characters after the
      '#' are not inspected, so this is looser than a #RRGGBB pattern. */
  predicate ValidCode(code: string): (ok: bool)
    ensures ok <==> |code| == 7 && code[0] == '#'
  {
    StartsWith(code, "#") && |code| == 7
  }

  /** The background the preview swatch falls back to. */
  const White: string := "white"

  /** The background the main window's preview swatch takes for the
      entered text: the text itself when it passes the test, white
      otherwise. The swatch therefore never shows a code that fails. */
  function Preview(code: string): (background: string)
    ensures ValidCode(code) ==> background == code
    ensures !ValidCode(code) ==> background == White
    ensures ValidCode(background) <==> ValidCode(code)
  {
    if ValidCode(code) then code else White
  }

  /** Two strings of equal length that agree on their first character are
      accepted or rejected together: the remaining characters never matter. */
  lemma ValidCodeIgnoresTail(a: string, b: string)
    requires |a| == |b|
    requires |a| > 0 ==> a[0] == b[0]
    ensures ValidCode(a) <==> ValidCode(b)
  {
  }

  /** Codes that pass and fail the test, including a non-hex code that passes. */
  lemma ValidCodeExamples()
    ensures ValidCode("#FF0000") && ValidCode("#1a2B3c") && ValidCode("#GGGGGG")
    ensures !ValidCode("#FFF") && !ValidCode("red") && !ValidCode("")
    ensures !ValidCode("FF0000#") && !ValidCode("#FF00000")
  {
  }
}
