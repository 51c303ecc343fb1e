/** The part of JavaScript's string semantics the screens rely on:
    `String.prototype.trim` and the truthiness of the trimmed string. */
module JsString {

  /** The characters `trim` removes: ECMAScript's WhiteSpace (tab, vertical
      tab, form feed, the byte-order mark and every space separator) and its
      LineTerminator characters. */
  predicate IsWhiteSpace(c: char)
  {
    c == '\t' || c == '\n' || c == '\U{000B}' || c == '\U{000C}' || c == '\r' ||
    c == ' ' || c == '\U{00A0}' || c == '\U{1680}' ||
    ('\U{2000}' <= c <= '\U{200A}') ||
    c == '\U{2028}' || c == '\U{2029}' || c == '\U{202F}' || c == '\U{205F}' ||
    c == '\U{3000}' || c == '\U{FEFF}'
  }

  /** Empty or made of white space only. */
  predicate IsBlank(s: string)
  {
    forall i :: 0 <= i < |s| ==> IsWhiteSpace(s[i])
  }

  /** `s` with its leading white space removed. */
  function TrimStart(s: string): (r: string)
    ensures |r| <= |s| && r == s[|s| - |r|..]
    ensures IsBlank(s[..|s| - |r|])
    ensures r == [] || !IsWhiteSpace(r[0])
  {
    if s == [] || !IsWhiteSpace(s[0]) then s else TrimStart(s[1..])
  }

  /** `s` with its trailing white space removed. */
  function TrimEnd(s: string): (r: string)
    ensures |r| <= |s| && r == s[..|r|]
    ensures IsBlank(s[|r|..])
    ensures r == [] || !IsWhiteSpace(r[|r| - 1])
  {
    if s == [] || !IsWhiteSpace(s[|s| - 1]) then s else TrimEnd(s[..|s| - 1])
  }

  /** `s.trim()`: the piece of `s` left once a blank front and a blank back
      are cut off; unless empty it starts and ends with a visible character. */
  function Trim(s: string): (r: string)
    ensures exists k :: 0 <= k <= |s| - |r| && r == s[k..k + |r|] && IsBlank(s[..k]) && IsBlank(s[k + |r|..])
    ensures r == [] || (!IsWhiteSpace(r[0]) && !IsWhiteSpace(r[|r| - 1]))
  {
    var t := TrimStart(s);
    var r := TrimEnd(t);
    var k := |s| - |t|;
    assert s[k..k + |r|] == r && s[k + |r|..] == t[|r|..];
    r
  }

  /** Only a blank string trims to nothing at the front. */
  lemma TrimStartEmptyIffBlank(s: string)
    ensures TrimStart(s) == [] <==> IsBlank(s)
  {
    var r := TrimStart(s);
    var cut := |s| - |r|;
    if r == [] {
      assert s[..cut] == s;
    } else {
      assert r[0] == s[cut];
    }
  }

  /** Trimming the end never empties a string that starts with a visible character. */
  lemma {:induction false} TrimEndKeepsVisibleStart(t: string)
    requires t != [] && !IsWhiteSpace(t[0])
    ensures TrimEnd(t) != []
  {
    if IsWhiteSpace(t[|t| - 1]) {
      TrimEndKeepsVisibleStart(t[..|t| - 1]);
    }
  }

  /** A string is truthy after `trim()` exactly when it is not blank. */
  lemma TrimEmptyIffBlank(s: string)
    ensures Trim(s) == [] <==> IsBlank(s)
  {
    TrimStartEmptyIffBlank(s);
    var t := TrimStart(s);
    if t != [] {
      TrimEndKeepsVisibleStart(t);
    }
  }

  /** The truthiness test `if (s.trim())`: trims `s` and reports whether
      anything is left, which is the case exactly when `s` is not blank. */
  method TrimIsTruthy(s: string) returns (truthy: bool)
    ensures truthy <==> !IsBlank(s)
  {
    TrimEmptyIffBlank(s);
    truthy := Trim(s) != "";
  }
}
