/** `String.prototype.trim`, which the form validation applies to the
    description before deciding whether it is empty. */
module Text {

  /** The code points ECMAScript counts as WhiteSpace or LineTerminator: the
      ones `trim` removes from both ends. */
  const Whitespace: set<char> := {
    '\t', '\n', '\U{000B}', '\U{000C}', '\r', ' ', '\U{00A0}', '\U{1680}',
    '\U{2000}', '\U{2001}', '\U{2002}', '\U{2003}', '\U{2004}', '\U{2005}',
    '\U{2006}', '\U{2007}', '\U{2008}', '\U{2009}', '\U{200A}',
    '\U{2028}', '\U{2029}', '\U{202F}', '\U{205F}', '\U{3000}', '\U{FEFF}'
  }

  predicate IsWhitespace(c: char)
  {
    c in Whitespace
  }

  /** Every character of `s` is whitespace (the empty string included). */
  predicate IsBlank(s: string)
  {
    forall i :: 0 <= i < |s| ==> IsWhitespace(s[i])
  }

  /** Every character of `s` from index `i` up to, not including, `j` is
      whitespace. */
  predicate BlankBetween(s: string, i: nat, j: nat)
    requires i <= j <= |s|
  {
    forall k :: i <= k < j ==> IsWhitespace(s[k])
  }

  /** Where the leading whitespace of `s[i..]` ends: every character from
      `i` to the result is whitespace, and the one at the result is not. */
  function LeadingEnd(s: string, i: nat): (k: nat)
    requires i <= |s|
    ensures i <= k <= |s| && BlankBetween(s, i, k)
    ensures k < |s| ==> !IsWhitespace(s[k])
    decreases |s| - i
  {
    if i < |s| && IsWhitespace(s[i]) then LeadingEnd(s, i + 1) else i
  }

  /** Where the trailing whitespace of `s[lo..e]` starts: every character
      from the result up to `e` is whitespace, and the one before the result,
      if it is not before `lo`, is not. */
  function TrailingStart(s: string, lo: nat, e: nat): (k: nat)
    requires lo <= e <= |s|
    ensures lo <= k <= e && BlankBetween(s, k, e)
    ensures k > lo ==> !IsWhitespace(s[k - 1])
    decreases e
  {
    if e > lo && IsWhitespace(s[e - 1]) then TrailingStart(s, lo, e - 1) else e
  }

  /** `s.trim()`: `s` without its leading and trailing whitespace. What is
      kept is the contiguous run of `s` between the two, everything cut away
      is whitespace, neither end of the result is whitespace, and the result
      is empty exactly when `s` is blank. */
  function Trim(s: string): (r: string)
    ensures var i := LeadingEnd(s, 0);
      i + |r| <= |s| && r == s[i..i + |r|] && BlankBetween(s, 0, i) && BlankBetween(s, i + |r|, |s|)
    ensures r != [] ==> !IsWhitespace(r[0]) && !IsWhitespace(r[|r| - 1])
    ensures r == [] <==> IsBlank(s)
  {
    var i := LeadingEnd(s, 0);
    var j := TrailingStart(s, i, |s|);
    assert j > i ==> s[i..j][0] == s[i] && s[i..j][j - i - 1] == s[j - 1];
    s[i..j]
  }

  /** Trimming what is already trimmed changes nothing. */
  lemma TrimIdempotent(s: string)
    ensures Trim(Trim(s)) == Trim(s)
  {
    var r := Trim(s);
    assert LeadingEnd(r, 0) == 0;
    assert TrailingStart(r, 0, |r|) == |r|;
  }
}
