/** `StringHelpers.ExtractToken`: the text of a token. */
module StringHelpers {
  import opened Tokens

  /** The closed span [startIndex, endIndex] of `text`. `Substring` rejects
      a span outside the text, hence the precondition. */
  function ExtractToken(text: string, t: TokenInfo): (r: string)
    requires 0 <= t.startIndex <= t.endIndex + 1 <= |text|
    ensures |r| == t.endIndex - t.startIndex + 1
    ensures forall k :: 0 <= k < |r| ==> r[k] == text[t.startIndex + k]
  {
    text[t.startIndex..t.endIndex + 1]
  }

  /** The token cuts the text into the part before it, the token and the
      part after it. */
  lemma ExtractTokenSplits(text: string, t: TokenInfo)
    requires 0 <= t.startIndex <= t.endIndex + 1 <= |text|
    ensures text == text[..t.startIndex] + ExtractToken(text, t) + text[t.endIndex + 1..]
  {
    assert text == text[..t.startIndex] + text[t.startIndex..t.endIndex + 1] + text[t.endIndex + 1..];
  }
}
