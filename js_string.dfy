/**
 * `String.prototype.trim` as the form guard uses it. ECMAScript strips from
 * both ends every character that is WhiteSpace (tab, vertical tab, form feed,
 * space, no-break space, the byte-order mark and the other space separators
 * of Unicode category Zs) or a LineTerminator (line feed, carriage return,
 * line separator, paragraph separator).
 */
module JsString {

  /** The characters `trim` removes. */
  predicate IsTrimmable(c: char) {
    c == '\t' || c == '\U{000B}' || c == '\U{000C}' || c == ' ' || c == '\U{00A0}' || c == '\U{FEFF}'
    || c == '\U{1680}' || ('\U{2000}' <= c <= '\U{200A}') || c == '\U{202F}' || c == '\U{205F}' || c == '\U{3000}'
    || c == '\n' || c == '\r' || c == '\U{2028}' || c == '\U{2029}'
  }

  /** A string made only of trimmable characters (the empty string included). */
  predicate IsBlank(s: string) {
    forall i :: 0 <= i < |s| ==> IsTrimmable(s[i])
  }

  /** Drops the trimmable characters at the front: the result is the suffix after them. */
  function TrimStart(s: string): (r: string)
    ensures |r| <= |s| && r == s[|s| - |r|..]
    ensures IsBlank(s[..|s| - |r|])
    ensures r != [] ==> !IsTrimmable(r[0])
  {
    if s != [] && IsTrimmable(s[0]) then TrimStart(s[1..]) else s
  }

  /** Drops the trimmable characters at the back: the result is the prefix before them. */
  function TrimEnd(s: string): (r: string)
    ensures |r| <= |s| && r == s[..|r|]
    ensures IsBlank(s[|r|..])
    ensures r != [] ==> !IsTrimmable(r[|r| - 1])
  {
    if s != [] && IsTrimmable(s[|s| - 1]) then TrimEnd(s[..|s| - 1]) else s
  }

  /** `s.trim()`. */
  function Trim(s: string): (r: string)
    ensures |r| <= |s|
    ensures r != [] ==> !IsTrimmable(r[0]) && !IsTrimmable(r[|r| - 1])
  {
    TrimEnd(TrimStart(s))
  }

  /**
   * `s.trim()` is a contiguous piece of `s`, everything cut away on either
   * side is trimmable, and the piece neither starts nor ends with a
   * trimmable character.
   */
  lemma TrimIsSlice(s: string)
    ensures exists lo :: (0 <= lo <= lo + |Trim(s)| <= |s| && Trim(s) == s[lo..lo + |Trim(s)|]
                          && IsBlank(s[..lo]) && IsBlank(s[lo + |Trim(s)|..]))
    ensures Trim(s) != [] ==> !IsTrimmable(Trim(s)[0]) && !IsTrimmable(Trim(s)[|Trim(s)| - 1])
  {
    var t := TrimStart(s);
    var lo := |s| - |t|;
    var r := Trim(s);
    assert t == s[lo..];
    assert r == t[..|r|] == s[lo..lo + |r|];
    assert t[|r|..] == s[lo + |r|..];
    if r != [] {
      assert r[0] == t[0];
    }
  }

  /** `!s.trim()` holds exactly when `s` consists of trimmable characters only. */
  lemma {:induction false} TrimEmptyIffBlank(s: string)
    ensures Trim(s) == [] <==> IsBlank(s)
  {
  }
}
