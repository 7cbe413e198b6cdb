/**
 * The part of JavaScript string semantics the forms rely on: `String.prototype.trim`
 * and the truthiness of its result, which is how a title is judged blank.
 */
module JsString {

  /**
   * The characters `trim` removes: the ECMAScript WhiteSpace code points (tab,
   * vertical tab, form feed, space, no-break space, the byte order mark and the other
   * space separators) and the LineTerminator code points (line feed, carriage
   * return, line separator, paragraph separator).
   */
  predicate IsTrimmable(c: char) {
    || c == '\t' || c == '\n' || c == '\U{000B}' || c == '\U{000C}' || c == '\r'
    || c == ' ' || c == '\U{00A0}' || c == '\U{1680}'
    || ('\U{2000}' <= c <= '\U{200A}')
    || c == '\U{2028}' || c == '\U{2029}' || c == '\U{202F}' || c == '\U{205F}'
    || c == '\U{3000}' || c == '\U{FEFF}'
  }

  /** `s` without its leading trimmable characters. */
  function TrimStart(s: string): (r: string)
    ensures |r| <= |s|
    ensures r != [] ==> !IsTrimmable(r[0])
  {
    if s != [] && IsTrimmable(s[0]) then TrimStart(s[1..]) else s
  }

  /** `s` without its trailing trimmable characters. */
  function TrimEnd(s: string): (r: string)
    ensures |r| <= |s|
    ensures r != [] ==> !IsTrimmable(r[|r| - 1])
  {
    if s != [] && IsTrimmable(s[|s| - 1]) then TrimEnd(s[..|s| - 1]) else s
  }

  /** `s.trim()`: both ends stripped. */
  function Trim(s: string): (r: string)
    ensures |r| <= |s|
    ensures r != [] ==> !IsTrimmable(r[0]) && !IsTrimmable(r[|r| - 1])
  {
    var t := TrimStart(s);
    if t == [] then TrimEnd(t)
    else
      // the first character of t is not trimmable, so TrimEnd keeps it in place
      TrimEndKeepsNonTrimmable(t, 0);
      TrimEnd(t)
  }

  /** `!s.trim()`: the trimmed string is the empty, falsy string. */
  predicate IsBlank(s: string) {
    Trim(s) == ""
  }

  /** A title is blank exactly when it is made only of trimmable characters. */
  lemma BlankIffAllTrimmable(s: string)
    ensures IsBlank(s) <==> forall i :: 0 <= i < |s| ==> IsTrimmable(s[i])
  {
    TrimStartEmptyIff(s);
    var t := TrimStart(s);
    if t != [] {
      // the first character of t is kept by TrimStart, so TrimEnd cannot empty t
      TrimEndKeepsNonTrimmable(t, 0);
    }
  }

  lemma {:induction false} TrimStartEmptyIff(s: string)
    ensures TrimStart(s) == "" <==> forall i :: 0 <= i < |s| ==> IsTrimmable(s[i])
  {
    if s != [] && IsTrimmable(s[0]) {
      TrimStartEmptyIff(s[1..]);
      assert forall i :: 1 <= i < |s| ==> s[i] == s[1..][i - 1];
    }
  }

  lemma {:induction false} TrimEndKeepsNonTrimmable(s: string, k: nat)
    requires k < |s| && !IsTrimmable(s[k])
    ensures k < |TrimEnd(s)| && TrimEnd(s)[k] == s[k]
  {
    if IsTrimmable(s[|s| - 1]) {
      TrimEndKeepsNonTrimmable(s[..|s| - 1], k);
    }
  }
}
