/** The anti-forgery token scraped from the portal's home page with the fixed
    pattern `window.csrf ='([a-f0-9-]+)'`. The unescaped `.` matches any one
    character except a newline; the scanner below is written for this single
    pattern and follows `re.search`: the leftmost match wins. */
module CsrfToken {
  import opened Wrappers

  /** The literal text before the wildcard character. */
  const Lead: string := "window"
  /** The literal text between the wildcard and the token. */
  const Tail: string := "csrf ='"
  /** Length of `Lead`, the wildcard and `Tail` together. */
  const PrefixLength: nat := |Lead| + 1 + |Tail|

  /** The character class `[a-f0-9-]`. */
  predicate IsTokenChar(c: char) {
    ('a' <= c <= 'f') || ('0' <= c <= '9') || c == '-'
  }

  /** A possible capture: non-empty, over `[a-f0-9-]` only. */
  ghost predicate IsToken(t: string) {
    |t| > 0 && forall k :: 0 <= k < |t| ==> IsTokenChar(t[k])
  }

  /** `window`, a non-newline character and `csrf ='` start at `i`. */
  predicate PrefixAt(s: string, i: nat) {
    && i + PrefixLength <= |s|
    && s[i..i + |Lead|] == Lead
    && s[i + |Lead|] != '\n'
    && s[i + |Lead| + 1..i + PrefixLength] == Tail
  }

  /** Declarative meaning of the pattern: it matches at `i` capturing `t`. */
  ghost predicate MatchesAt(s: string, i: nat, t: string) {
    && PrefixAt(s, i)
    && IsToken(t)
    && i + PrefixLength + |t| < |s|
    && s[i + PrefixLength..i + PrefixLength + |t|] == t
    && s[i + PrefixLength + |t|] == '\''
  }

  /** No match of the pattern starts at a position in `[lo, hi)`. */
  ghost predicate NoMatchIn(s: string, lo: nat, hi: nat) {
    forall j: nat, t :: lo <= j < hi ==> !MatchesAt(s, j, t)
  }

  /** End of the longest run of token characters starting at `j`. */
  function RunEnd(s: string, j: nat): (k: nat)
    requires j <= |s|
    ensures j <= k <= |s|
    ensures forall m :: j <= m < k ==> IsTokenChar(s[m])
    ensures k == |s| || !IsTokenChar(s[k])
    decreases |s| - j
  {
    if j == |s| || !IsTokenChar(s[j]) then j else RunEnd(s, j + 1)
  }

  /** The capture of a match starting exactly at `i`, if there is one. */
  function MatchAt(s: string, i: nat): (r: Option<string>)
    ensures r.Some? ==> MatchesAt(s, i, r.value)
  {
    if !PrefixAt(s, i) then None
    else
      var k := RunEnd(s, i + PrefixLength);
      if i + PrefixLength < k < |s| && s[k] == '\'' then Some(s[i + PrefixLength..k]) else None
  }

  /** A quote ends the token, so a start position determines the capture. */
  lemma MatchUnique(s: string, i: nat, t: string, u: string)
    requires MatchesAt(s, i, t) && MatchesAt(s, i, u)
    ensures t == u
  {
  }

  /** `MatchAt` finds the match at `i` whenever there is one. */
  lemma MatchAtComplete(s: string, i: nat, t: string)
    requires MatchesAt(s, i, t)
    ensures MatchAt(s, i) == Some(t)
  {
  }

  /** Leftmost match at or after `i`, as (start, capture). */
  function SearchFrom(s: string, i: nat): (r: Option<(nat, string)>)
    ensures r.Some? ==> i <= r.value.0 && MatchesAt(s, r.value.0, r.value.1) && NoMatchIn(s, i, r.value.0)
    ensures r.None? ==> NoMatchIn(s, i, |s|)
    decreases |s| - i
  {
    if |s| <= i then None
    else
      match MatchAt(s, i)
      case Some(t) => Some((i, t))
      case None =>
        assert forall t :: !MatchesAt(s, i, t) by {
          forall t | MatchesAt(s, i, t) ensures false {
            MatchAtComplete(s, i, t);
          }
        }
        SearchFrom(s, i + 1)
  }

  /** `__get_csrf_from_home_page`: the capture of the first match of the
      pattern in the page, or None when the pattern occurs nowhere. A found
      token is never empty and uses only `[a-f0-9-]`. */
  function ExtractCsrf(html: string): (r: Option<string>)
    ensures r.Some? ==> IsToken(r.value)
    ensures r.Some? ==> exists i: nat :: MatchesAt(html, i, r.value) && NoMatchIn(html, 0, i)
    ensures r.None? <==> forall i: nat, t :: !MatchesAt(html, i, t)
  {
    match SearchFrom(html, 0)
    case Some((_, t)) => Some(t)
    case None => None
  }

  /** Conversely, the first match in the page is what `ExtractCsrf` returns. */
  lemma FirstMatchIsExtracted(html: string, i: nat, t: string)
    requires MatchesAt(html, i, t) && NoMatchIn(html, 0, i)
    ensures ExtractCsrf(html) == Some(t)
  {
  }

  /** The pattern needs the blank before `=`: the page text
      `window.csrf ='abc-123'` yields `abc-123`. */
  lemma ExtractFromSpacedAssignment()
    ensures ExtractCsrf("window.csrf ='abc-123'") == Some("abc-123")
  {
    var html := "window.csrf ='abc-123'";
    assert MatchesAt(html, 0, "abc-123");
    FirstMatchIsExtracted(html, 0, "abc-123");
  }

  /** The pattern's prefix contains a blank. */
  lemma PrefixNeedsBlank(s: string, i: nat)
    ensures PrefixAt(s, i) ==> ' ' in s
  {
    if PrefixAt(s, i) {
      assert s[i + |Lead| + 1..i + PrefixLength][|"csrf"|] == ' ';
      assert s[i + |Lead| + 1 + |"csrf"|] == ' ';
    }
  }

  /** Without the blank before `=` the page holds no token: the text
      `window.csrf='abc-123'` has no blank at all. */
  lemma NoTokenWithoutBlank()
    ensures ExtractCsrf("window.csrf='abc-123'") == None
  {
    var html := "window.csrf='abc-123'";
    assert ' ' !in html;
    forall i: nat
      ensures !PrefixAt(html, i)
    {
      PrefixNeedsBlank(html, i);
    }
  }
}
