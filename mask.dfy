/** `EncryptionService.mask` of
    backend/src/infrastructure/services/EncryptionService.ts: hide all but
    the last few characters of a sensitive string behind '*'.

    As written, a `visibleChars` of zero leaks the whole text, because
    `text.slice(-0)` is `text.slice(0)`. `MaskAsWritten` models the code as
    it stands; `Mask` shows nothing for a count of zero or below, and is the
    one the properties are about. */
module Masking {
  import opened Common

  const DefaultVisibleChars: int := 4

  /** `String.prototype.slice(start)`: a negative start counts from the
      end; `-0` is `0`. */
  function SliceFrom(s: string, start: int): (r: string)
    ensures |r| <= |s|
  {
    var from := if start < 0 then Max(|s| + start, 0) else Min(start, |s|);
    s[from..]
  }

  /** `mask(text, visibleChars)` as the code computes it. */
  function MaskAsWritten(text: string, visibleChars: int): (r: string)
    ensures visibleChars > 0 ==> |r| == |text|
    ensures visibleChars == 0 ==> |r| == 2 * |text|
  {
    if |text| <= visibleChars then Repeat('*', |text|)
    else Repeat('*', |text| - visibleChars) + SliceFrom(text, -visibleChars)
  }

  /** `mask` with a count of zero or below showing no character. */
  function Mask(text: string, visibleChars: int): (r: string)
    ensures |r| == |text|
  {
    if |text| <= visibleChars then Repeat('*', |text|)
    else if visibleChars <= 0 then Repeat('*', |text|)
    else Repeat('*', |text| - visibleChars) + text[|text| - visibleChars..]
  }

  /** `mask(text)`, with the default of four visible characters. */
  function MaskDefault(text: string): string
  {
    Mask(text, DefaultVisibleChars)
  }

  // -----------------------------------------------------------------------
  // Properties
  // -----------------------------------------------------------------------

  /** The mask keeps the length; a text no longer than the count is all
      stars; otherwise the stars cover all but the last `visibleChars`
      characters, which are kept as they are. */
  lemma MaskShape(text: string, visibleChars: int)
    ensures |Mask(text, visibleChars)| == |text|
    ensures |text| <= visibleChars || visibleChars <= 0 ==> Mask(text, visibleChars) == Repeat('*', |text|)
    ensures 0 < visibleChars < |text| ==>
              var r := Mask(text, visibleChars);
              (forall k :: 0 <= k < |text| - visibleChars ==> r[k] == '*') &&
              (forall k :: |text| - visibleChars <= k < |text| ==> r[k] == text[k])
  {
  }

  /** With the default count, at most four characters of the text show. */
  lemma DefaultShowsAtMostFour(text: string)
    ensures |MaskDefault(text)| == |text|
    ensures forall k :: 0 <= k < |text| - 4 ==> MaskDefault(text)[k] == '*'
    ensures |text| <= 4 ==> MaskDefault(text) == Repeat('*', |text|)
  {
    MaskShape(text, DefaultVisibleChars);
  }

  /** For every positive count the code already computes the mask. */
  lemma AsWrittenAgreesForPositiveCounts(text: string, visibleChars: int)
    requires visibleChars > 0
    ensures MaskAsWritten(text, visibleChars) == Mask(text, visibleChars)
  {
  }

  /** A count of zero reveals the whole text after a row of stars, and the
      result is twice as long as the text. */
  lemma ZeroCountLeaksText()
    ensures MaskAsWritten("1234", 0) == "****1234"
    ensures Mask("1234", 0) == "****"
  {
    assert SliceFrom("1234", 0) == "1234";
    assert Repeat('*', 4) == "****";
  }

  /** For any non-empty text, a count of zero gives back the whole text as
      the tail of the mask. */
  lemma ZeroCountLeaksAnyText(text: string)
    requires text != []
    ensures MaskAsWritten(text, 0) == Repeat('*', |text|) + text
    ensures |MaskAsWritten(text, 0)| == 2 * |text|
  {
  }
}
