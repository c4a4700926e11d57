/** String operations the pipeline relies on: Foundation's whitespace trimming,
    `lowercased()` and `hasPrefix`. Strings are sequences of Unicode scalar values. */
module Text {

  /** Membership in `CharacterSet.whitespacesAndNewlines`: the Unicode separators
      (categories Zs, Zl, Zp), tab, U+000A through U+000D and U+0085. */
  predicate IsWhitespace(c: char) {
    ('\t' <= c <= '\r') || c == ' ' || c == '\U{85}' || c == '\U{A0}' || c == '\U{1680}'
    || ('\U{2000}' <= c <= '\U{200A}') || c == '\U{2028}' || c == '\U{2029}'
    || c == '\U{202F}' || c == '\U{205F}' || c == '\U{3000}'
  }

  predicate AllWhitespace(s: string) {
    forall k :: 0 <= k < |s| ==> IsWhitespace(s[k])
  }

  /** Drops the leading whitespace: what remains is a suffix of `s` that starts
      with a non-whitespace character, and everything dropped was whitespace. */
  function TrimStart(s: string): (r: string)
    ensures |r| <= |s| && r == s[|s| - |r|..]
    ensures forall k :: 0 <= k < |s| - |r| ==> IsWhitespace(s[k])
    ensures r != [] ==> !IsWhitespace(r[0])
  {
    if s != [] && IsWhitespace(s[0]) then TrimStart(s[1..]) else s
  }

  /** Drops the trailing whitespace: what remains is a prefix of `s` that ends
      with a non-whitespace character, and everything dropped was whitespace. */
  function TrimEnd(s: string): (r: string)
    ensures |r| <= |s| && r == s[..|r|]
    ensures forall k :: |r| <= k < |s| ==> IsWhitespace(s[k])
    ensures r != [] ==> !IsWhitespace(r[|r| - 1])
  {
    if s != [] && IsWhitespace(s[|s| - 1]) then TrimEnd(s[..|s| - 1]) else s
  }

  /** `trimmingCharacters(in: .whitespacesAndNewlines)`. */
  function Trim(s: string): (r: string)
    ensures |r| <= |s|
    ensures r == [] <==> AllWhitespace(s)
    ensures r != [] ==> !IsWhitespace(r[0]) && !IsWhitespace(r[|r| - 1])
    ensures exists i, j :: 0 <= i <= j <= |s| && r == s[i..j] && AllWhitespace(s[..i]) && AllWhitespace(s[j..])
  {
    TrimIsOuterSlice(s);
    TrimEnd(TrimStart(s))
  }

  /** The trimmed text is the slice of `s` left between its leading and trailing
      whitespace runs. */
  lemma TrimIsOuterSlice(s: string)
    ensures exists i, j :: 0 <= i <= j <= |s| && TrimEnd(TrimStart(s)) == s[i..j]
                           && AllWhitespace(s[..i]) && AllWhitespace(s[j..])
  {
    var t := TrimStart(s);
    DroppedLeadIsWhitespace(s);
    DroppedTailIsWhitespace(t);
    OuterSlice(s, t, TrimEnd(t));
  }

  /** A prefix `r` of a suffix `t` of `s`, each cut off only whitespace, is a slice of
      `s` with whitespace on either side. */
  lemma OuterSlice(s: string, t: string, r: string)
    requires |t| <= |s| && t == s[|s| - |t|..] && AllWhitespace(s[..|s| - |t|])
    requires |r| <= |t| && r == t[..|r|] && AllWhitespace(t[|r|..])
    ensures exists i, j :: 0 <= i <= j <= |s| && r == s[i..j] && AllWhitespace(s[..i]) && AllWhitespace(s[j..])
  {
    var i := |s| - |t|;
    var j := i + |r|;
    assert t[|r|..] == s[j..];
    assert r == s[i..j];
  }

  /** The trailing run that `TrimEnd` drops is all whitespace. */
  lemma DroppedTailIsWhitespace(t: string)
    ensures AllWhitespace(t[|TrimEnd(t)|..])
  {
    var n := |TrimEnd(t)|;
    assert forall k :: 0 <= k < |t| - n ==> t[n..][k] == t[n + k];
  }

  /** `hasPrefix`, compared scalar by scalar. */
  predicate StartsWith(s: string, prefix: string) {
    |prefix| <= |s| && s[..|prefix|] == prefix
  }

  /** The trimmed text begins with `<`: the marker of an HTML page. */
  predicate LooksLikeHtml(text: string) {
    StartsWith(Trim(text), "<")
  }

  /** Independent reading of the same test: some `<` is preceded only by whitespace. */
  ghost predicate OpensWithTag(text: string) {
    exists i :: 0 <= i < |text| && text[i] == '<' && AllWhitespace(text[..i])
  }

  /** Trimming the end never touches the first non-whitespace character. */
  lemma TrimKeepsHead(text: string)
    requires TrimStart(text) != []
    ensures Trim(text) != [] && Trim(text)[0] == TrimStart(text)[0]
  {
  }

  /** The leading run that `TrimStart` drops is all whitespace. */
  lemma DroppedLeadIsWhitespace(text: string)
    ensures AllWhitespace(text[..|text| - |TrimStart(text)|])
  {
    var lead := |text| - |TrimStart(text)|;
    assert forall k :: 0 <= k < lead ==> text[..lead][k] == text[k];
  }

  lemma {:induction false} HtmlHasTag(text: string)
    requires LooksLikeHtml(text)
    ensures OpensWithTag(text)
  {
    var t := TrimStart(text);
    var lead := |text| - |t|;
    assert Trim(text)[..1] == "<";
    assert Trim(text)[0] == '<';
    assert t != [];
    TrimKeepsHead(text);
    assert t[0] == '<';
    assert text[lead] == t[0];
    DroppedLeadIsWhitespace(text);
  }

  lemma {:induction false} TagMakesHtml(text: string, i: nat)
    requires i < |text| && text[i] == '<' && AllWhitespace(text[..i])
    ensures LooksLikeHtml(text)
  {
    var lead := |text| - |TrimStart(text)|;
    assert lead <= i by {
      assert !IsWhitespace(text[i]);
    }
    assert TrimStart(text) != [];
    assert lead >= i by {
      assert !IsWhitespace(text[lead]);
      assert forall k :: 0 <= k < i ==> IsWhitespace(text[..i][k]) && text[..i][k] == text[k];
    }
    TrimKeepsHead(text);
  }

  lemma {:induction false} LooksLikeHtmlIff(text: string)
    ensures LooksLikeHtml(text) <==> OpensWithTag(text)
  {
    if LooksLikeHtml(text) {
      HtmlHasTag(text);
    }
    if OpensWithTag(text) {
      var i :| 0 <= i < |text| && text[i] == '<' && AllWhitespace(text[..i]);
      TagMakesHtml(text, i);
    }
  }

  /** ASCII case mapping; other scalars are left alone. */
  function LowerChar(c: char): char {
    if 'A' <= c <= 'Z' then (c as int + 32) as char else c
  }

  /** `lowercased()`, restricted to ASCII letters. */
  function Lowercased(s: string): (r: string)
    ensures |r| == |s|
    ensures forall k :: 0 <= k < |s| ==> r[k] == LowerChar(s[k])
  {
    seq(|s|, k requires 0 <= k < |s| => LowerChar(s[k]))
  }

  /** A lowercased string has no upper-case ASCII letter, so lowercasing again changes nothing. */
  lemma LowercasedIdempotent(s: string)
    ensures Lowercased(Lowercased(s)) == Lowercased(s)
    ensures forall k :: 0 <= k < |s| ==> !('A' <= Lowercased(s)[k] <= 'Z')
  {
  }
}
