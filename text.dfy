/**
 * The Python string operations the ticker helpers use: `str.strip()`,
 * `str.upper()` and `str.isalnum()`.
 */
module Text {

  /** Python's `str.isspace` for one character. */
  predicate IsSpace(c: char) {
    || c == ' '
    || ('\t' <= c <= '\r')
    || ('\U{1c}' <= c <= '\U{1f}')
    || c == '\U{85}' || c == '\U{a0}' || c == '\U{1680}'
    || ('\U{2000}' <= c <= '\U{200a}')
    || c == '\U{2028}' || c == '\U{2029}' || c == '\U{202f}'
    || c == '\U{205f}' || c == '\U{3000}'
  }

  predicate IsLower(c: char) { 'a' <= c <= 'z' }

  predicate IsUpper(c: char) { 'A' <= c <= 'Z' }

  predicate IsDigit(c: char) { '0' <= c <= '9' }

  /** `str.isalnum` for one character, restricted to ASCII. */
  predicate IsAlnum(c: char) { IsLower(c) || IsUpper(c) || IsDigit(c) }

  /** Upper-case mapping of one character, restricted to ASCII. */
  function UpperChar(c: char): (u: char)
    ensures IsLower(c) ==> IsUpper(u) && u as int - 'A' as int == c as int - 'a' as int
    ensures !IsLower(c) ==> u == c
    ensures IsSpace(u) <==> IsSpace(c)
    ensures IsAlnum(u) <==> IsAlnum(c)
  {
    if IsLower(c) then (c as int - 'a' as int + 'A' as int) as char else c
  }

  /** `s.upper()`. */
  function Upper(s: string): string {
    seq(|s|, i requires 0 <= i < |s| => UpperChar(s[i]))
  }

  /** `s.lstrip()`: drop the leading whitespace. */
  function StripLeft(s: string): (r: string)
    ensures |r| <= |s| && r == s[|s| - |r|..]
    ensures forall i :: 0 <= i < |s| - |r| ==> IsSpace(s[i])
    ensures r == [] || !IsSpace(r[0])
  {
    if |s| > 0 && IsSpace(s[0]) then StripLeft(s[1..]) else s
  }

  /** `s.rstrip()`: drop the trailing whitespace. */
  function StripRight(s: string): (r: string)
    ensures |r| <= |s| && r == s[..|r|]
    ensures forall i :: |r| <= i < |s| ==> IsSpace(s[i])
    ensures r == [] || !IsSpace(r[|r| - 1])
  {
    if |s| > 0 && IsSpace(s[|s| - 1]) then StripRight(s[..|s| - 1]) else s
  }

  /** `s.strip()`. */
  function Strip(s: string): string {
    StripRight(StripLeft(s))
  }

  /** The form both ticker helpers compare: `s.strip().upper()`. */
  function Normalize(s: string): string {
    Upper(Strip(s))
  }

  /** `s.isalnum()`: true only for a non-empty string of letters and digits. */
  predicate IsAlnumWord(s: string) {
    |s| > 0 && forall i :: 0 <= i < |s| ==> IsAlnum(s[i])
  }

  predicate AllSpace(s: string) {
    forall i :: 0 <= i < |s| ==> IsSpace(s[i])
  }

  /** A string with no whitespace at either end is its own strip. */
  lemma StripTrimmed(s: string)
    requires s == [] || (!IsSpace(s[0]) && !IsSpace(s[|s| - 1]))
    ensures Strip(s) == s
  {
  }

  /** Stripping leaves no whitespace at either end. */
  lemma StripEnds(s: string)
    ensures Strip(s) == [] || (!IsSpace(Strip(s)[0]) && !IsSpace(Strip(s)[|Strip(s)| - 1]))
  {
    var l := StripLeft(s);
    var r := StripRight(l);
    if r != [] {
      assert r[0] == l[0];
    }
  }

  lemma StripIdempotent(s: string)
    ensures Strip(Strip(s)) == Strip(s)
  {
    StripEnds(s);
    StripTrimmed(Strip(s));
  }

  lemma UpperIdempotent(s: string)
    ensures Upper(Upper(s)) == Upper(s)
  {
  }

  lemma {:induction false} StripLeftUpper(s: string)
    ensures StripLeft(Upper(s)) == Upper(StripLeft(s))
  {
    if |s| > 0 {
      assert Upper(s)[1..] == Upper(s[1..]);
      if IsSpace(s[0]) {
        StripLeftUpper(s[1..]);
      }
    }
  }

  lemma {:induction false} StripRightUpper(s: string)
    ensures StripRight(Upper(s)) == Upper(StripRight(s))
  {
    if |s| > 0 {
      assert Upper(s)[..|s| - 1] == Upper(s[..|s| - 1]);
      if IsSpace(s[|s| - 1]) {
        StripRightUpper(s[..|s| - 1]);
      }
    }
  }

  /** Upper-casing and stripping commute. */
  lemma StripUpper(s: string)
    ensures Strip(Upper(s)) == Upper(Strip(s))
  {
    StripLeftUpper(s);
    StripRightUpper(StripLeft(s));
  }

  /** Normalizing twice is normalizing once. */
  lemma NormalizeIdempotent(s: string)
    ensures Normalize(Normalize(s)) == Normalize(s)
  {
    calc {
      Normalize(Normalize(s));
      Upper(Strip(Upper(Strip(s))));
      { StripUpper(Strip(s)); }
      Upper(Upper(Strip(Strip(s))));
      { StripIdempotent(s); UpperIdempotent(Strip(s)); }
      Upper(Strip(s));
    }
  }

  /** Upper-casing first does not change the normal form. */
  lemma NormalizeUpper(s: string)
    ensures Normalize(Upper(s)) == Normalize(s)
  {
    StripUpper(s);
    UpperIdempotent(Strip(s));
  }

  lemma {:induction false} StripLeftPadded(pre: string, s: string)
    requires AllSpace(pre)
    ensures StripLeft(pre + s) == StripLeft(s)
  {
    if pre == [] {
      assert pre + s == s;
    } else {
      assert (pre + s)[0] == pre[0];
      assert (pre + s)[1..] == pre[1..] + s;
      StripLeftPadded(pre[1..], s);
    }
  }

  lemma {:induction false} StripRightPadded(s: string, post: string)
    requires AllSpace(post)
    ensures StripRight(s + post) == StripRight(s)
  {
    if post == [] {
      assert s + post == s;
    } else {
      var n := |post| - 1;
      assert (s + post)[|s + post| - 1] == post[n];
      assert (s + post)[..|s + post| - 1] == s + post[..n];
      StripRightPadded(s, post[..n]);
    }
  }

  lemma {:induction false} StripLeftAppend(s: string, post: string)
    requires StripLeft(s) != []
    ensures StripLeft(s + post) == StripLeft(s) + post
  {
    if |s| > 0 && IsSpace(s[0]) {
      assert (s + post)[1..] == s[1..] + post;
      StripLeftAppend(s[1..], post);
    }
  }

  /** Whitespace around a string does not change what strip returns. */
  lemma StripPadded(pre: string, s: string, post: string)
    requires AllSpace(pre) && AllSpace(post)
    ensures Strip(pre + s + post) == Strip(s)
  {
    assert pre + s + post == pre + (s + post);
    StripLeftPadded(pre, s + post);
    if StripLeft(s) == [] {
      assert AllSpace(s);
      StripLeftPadded(s, post);
      var l := StripLeft(post);
      assert l == [];
    } else {
      StripLeftAppend(s, post);
      StripRightPadded(StripLeft(s), post);
    }
  }

  /** A string is the whitespace `lstrip` drops followed by what it keeps. */
  lemma StripLeftSplits(t: string)
    ensures t == t[..|t| - |StripLeft(t)|] + StripLeft(t)
    ensures AllSpace(t[..|t| - |StripLeft(t)|])
  {
    var n := |t| - |StripLeft(t)|;
    assert forall i :: 0 <= i < n ==> t[..n][i] == t[i];
  }

  /** A string is what `rstrip` keeps followed by the whitespace it drops. */
  lemma StripRightSplits(t: string)
    ensures t == StripRight(t) + t[|StripRight(t)|..]
    ensures AllSpace(t[|StripRight(t)|..])
  {
    var n := |StripRight(t)|;
    assert forall i :: 0 <= i < |t| - n ==> t[n..][i] == t[n + i];
  }

  /** A string is the whitespace `strip` drops, the stripped string, and more whitespace. */
  lemma StripSplits(t: string)
    ensures var l := StripLeft(t); var w := StripRight(l);
      t == t[..|t| - |l|] + w + l[|w|..] && AllSpace(t[..|t| - |l|]) && AllSpace(l[|w|..])
  {
    var l := StripLeft(t);
    var w := StripRight(l);
    StripLeftSplits(t);
    StripRightSplits(l);
    Regroup(t, t[..|t| - |l|], l, w, l[|w|..]);
  }

  lemma Regroup(t: string, pre: string, l: string, w: string, post: string)
    requires t == pre + l && l == w + post
    ensures t == pre + w + post
  {
  }

  /** Upper-casing neither creates nor removes letters and digits. */
  lemma UpperAlnumWord(w: string)
    ensures IsAlnumWord(Upper(w)) <==> IsAlnumWord(w)
  {
    assert forall i :: 0 <= i < |w| ==> Upper(w)[i] == UpperChar(w[i]);
  }
}
