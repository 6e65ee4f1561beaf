/**
 * The Python `str` operations the prober relies on, over `seq<char>`:
 * `in`, `find`, `rfind`, `strip`, `rstrip`, `lower`, `upper`, `replace`
 * and `split('/')[-1]`.
 */
module Text {

  /** `n` occurs in `h` starting at index `i`. */
  predicate OccursAt(h: string, n: string, i: int) {
    0 <= i && i + |n| <= |h| && h[i..i + |n|] == n
  }

  /** Python's `n in h`, stated without a search. */
  ghost predicate IsSubstring(n: string, h: string) {
    exists i :: OccursAt(h, n, i)
  }

  lemma OccursInTail(h: string, n: string)
    requires |h| > 0
    ensures forall i :: OccursAt(h[1..], n, i) ==> OccursAt(h, n, i + 1)
    ensures forall i :: 1 <= i && OccursAt(h, n, i) ==> OccursAt(h[1..], n, i - 1)
  {
    forall i | OccursAt(h[1..], n, i) ensures OccursAt(h, n, i + 1) {
      assert h[1..][i..i + |n|] == h[i + 1..i + 1 + |n|];
    }
    forall i | 1 <= i && OccursAt(h, n, i) ensures OccursAt(h[1..], n, i - 1) {
      assert h[1..][i - 1..i - 1 + |n|] == h[i..i + |n|];
    }
  }

  lemma OccursInPrefix(h: string, n: string)
    requires |h| > 0
    ensures forall i :: OccursAt(h[..|h| - 1], n, i) ==> OccursAt(h, n, i)
    ensures forall i :: OccursAt(h, n, i) && i + |n| < |h| ==> OccursAt(h[..|h| - 1], n, i)
  {
    forall i | OccursAt(h[..|h| - 1], n, i) ensures OccursAt(h, n, i) {
      assert h[..|h| - 1][i..i + |n|] == h[i..i + |n|];
    }
    forall i | OccursAt(h, n, i) && i + |n| < |h| ensures OccursAt(h[..|h| - 1], n, i) {
      assert h[..|h| - 1][i..i + |n|] == h[i..i + |n|];
    }
  }

  /** A needle placed between two strings occurs right after the first. */
  lemma OccursInMiddle(a: string, n: string, b: string)
    ensures OccursAt(a + n + b, n, |a|)
  {
    assert (a + n + b)[|a|..|a| + |n|] == n;
  }

  /** Appending text keeps an occurrence where it was. */
  lemma OccursExtendRight(a: string, b: string, n: string, i: int)
    requires OccursAt(a, n, i)
    ensures OccursAt(a + b, n, i)
  {
    assert (a + b)[i..i + |n|] == a[i..i + |n|];
  }

  /** Prepending text shifts an occurrence by the prepended length. */
  lemma OccursExtendLeft(a: string, b: string, n: string, i: int)
    requires OccursAt(b, n, i)
    ensures OccursAt(a + b, n, |a| + i)
  {
    assert (a + b)[|a| + i..|a| + i + |n|] == b[i..i + |n|];
  }

  /** A one-character needle occurs exactly where that character is. */
  lemma OccursChar(h: string, c: char)
    ensures forall k :: 0 <= k < |h| ==> (OccursAt(h, [c], k) <==> h[k] == c)
  {
    forall k | 0 <= k < |h| ensures OccursAt(h, [c], k) <==> h[k] == c {
      assert h[k..k + 1] == [h[k]];
    }
  }

  /** Python's `h.find(n)`: the first index at which `n` occurs, or -1. */
  function Find(h: string, n: string): (r: int)
    ensures r == -1 || OccursAt(h, n, r)
    ensures r == -1 ==> forall i :: !OccursAt(h, n, i)
    ensures forall i :: 0 <= i < r ==> !OccursAt(h, n, i)
    decreases |h|
  {
    if |h| < |n| then -1
    else if h[..|n|] == n then 0
    else
      var r := Find(h[1..], n);
      OccursInTail(h, n);
      if r < 0 then -1 else r + 1
  }

  /** Python's `h.rfind(n)`: the last index at which `n` occurs, or -1. */
  function RFind(h: string, n: string): (r: int)
    ensures r == -1 || OccursAt(h, n, r)
    ensures r == -1 ==> forall i :: !OccursAt(h, n, i)
    ensures forall i :: r < i ==> !OccursAt(h, n, i)
    decreases |h|
  {
    if |h| < |n| then -1
    else if h[|h| - |n|..] == n then |h| - |n|
    else
      OccursInPrefix(h, n);
      RFind(h[..|h| - 1], n)
  }

  /** Python's `n in h`. */
  function Contains(h: string, n: string): (r: bool)
    ensures r <==> IsSubstring(n, h)
  {
    Find(h, n) >= 0
  }

  /** The characters Python's `str.isspace` accepts, hence the ones `strip()` removes. */
  predicate IsSpace(c: char) {
    || ('\t' <= c <= '\r')
    || ('\U{1C}' <= c <= '\U{1F}')
    || c == ' ' || c == '\U{85}' || c == '\U{A0}' || c == '\U{1680}'
    || ('\U{2000}' <= c <= '\U{200A}')
    || c == '\U{2028}' || c == '\U{2029}' || c == '\U{202F}' || c == '\U{205F}' || c == '\U{3000}'
  }

  predicate AllSpace(s: string) {
    forall k :: 0 <= k < |s| ==> IsSpace(s[k])
  }

  function StripLeft(s: string): (r: string)
    ensures |r| <= |s| && r == s[|s| - |r|..]
    ensures AllSpace(s[..|s| - |r|])
    ensures r == [] || !IsSpace(r[0])
    decreases |s|
  {
    if s != [] && IsSpace(s[0]) then StripLeft(s[1..]) else s
  }

  function StripRight(s: string): (r: string)
    ensures |r| <= |s| && r == s[..|r|]
    ensures AllSpace(s[|r|..])
    ensures r == [] || !IsSpace(r[|r| - 1])
    decreases |s|
  {
    if s != [] && IsSpace(s[|s| - 1]) then
      var t := s[..|s| - 1];
      var r := StripRight(t);
      assert s[..|r|] == t[..|r|];
      assert s[|r|..] == t[|r|..] + [s[|s| - 1]];
      r
    else s
  }

  /** `r` is `s` with a run of white space removed at each end. */
  ghost predicate StripsTo(s: string, r: string) {
    exists i :: OccursAt(s, r, i) && AllSpace(s[..i]) && AllSpace(s[i + |r|..])
  }

  /**
   * Python's `s.strip()`: the result is what is left of `s` once the white
   * space at both ends is gone, and it neither starts nor ends with white space.
   */
  function Strip(s: string): (r: string)
    ensures StripsTo(s, r)
    ensures r == [] || (!IsSpace(r[0]) && !IsSpace(r[|r| - 1]))
  {
    StripBothEnds(s);
    StripRight(StripLeft(s))
  }

  lemma StripBothEnds(s: string)
    ensures StripsTo(s, StripRight(StripLeft(s)))
    ensures var r := StripRight(StripLeft(s)); r == [] || (!IsSpace(r[0]) && !IsSpace(r[|r| - 1]))
  {
    var l := StripLeft(s);
    var r := StripRight(l);
    var i := |s| - |l|;
    assert s[i..i + |r|] == r;
    assert s[i + |r|..] == l[|r|..];
    assert OccursAt(s, r, i) && AllSpace(s[..i]) && AllSpace(s[i + |r|..]);
    if r != [] {
      assert r[0] == l[0];
    }
  }

  /** Python's `s.rstrip(c)` for a single character `c`. */
  function RStrip(s: string, c: char): (r: string)
    ensures |r| <= |s| && r == s[..|r|]
    ensures forall k :: |r| <= k < |s| ==> s[k] == c
    ensures r == [] || r[|r| - 1] != c
    decreases |s|
  {
    if s != [] && s[|s| - 1] == c then RStrip(s[..|s| - 1], c) else s
  }

  /**
   * Python's `str.lower()` on one character, for the Latin letters A-Z and
   * the Cyrillic capitals U+0400..U+042F; every other character is kept.
   */
  function LowerChar(c: char): char {
    if 'A' <= c <= 'Z' || '\U{410}' <= c <= '\U{42F}' then (c as int + 32) as char
    else if '\U{400}' <= c <= '\U{40F}' then (c as int + 80) as char
    else c
  }

  function Lower(s: string): (r: string)
    ensures |r| == |s| && forall k :: 0 <= k < |s| ==> r[k] == LowerChar(s[k])
    ensures forall k :: 0 <= k < |r| ==> !('A' <= r[k] <= 'Z') && !('\U{400}' <= r[k] <= '\U{42F}')
  {
    seq(|s|, k requires 0 <= k < |s| => LowerChar(s[k]))
  }

  /** Python's `str.upper()` for the Latin letters a-z. */
  function UpperChar(c: char): char {
    if 'a' <= c <= 'z' then (c as int - 32) as char else c
  }

  function Upper(s: string): (r: string)
    ensures |r| == |s| && forall k :: 0 <= k < |s| ==> r[k] == UpperChar(s[k])
    ensures forall k :: 0 <= k < |r| ==> !('a' <= r[k] <= 'z')
  {
    seq(|s|, k requires 0 <= k < |s| => UpperChar(s[k]))
  }

  lemma {:induction false} LowerIdempotent(s: string)
    ensures Lower(Lower(s)) == Lower(s)
  {
    var l := Lower(s);
    forall k | 0 <= k < |s| ensures Lower(l)[k] == l[k] {
      var c := s[k];
      assert l[k] == LowerChar(c);
    }
  }

  /** Python's `s.replace(c, "")` for a single character `c`. */
  function RemoveChar(s: string, c: char): (r: string)
    ensures c !in r
    ensures |r| <= |s|
    ensures forall x :: x != c ==> multiset(r)[x] == multiset(s)[x]
  {
    if s == [] then []
    else
      assert s == [s[0]] + s[1..];
      (if s[0] == c then [] else [s[0]]) + RemoveChar(s[1..], c)
  }

  lemma {:induction false} RemoveCharAppend(a: string, b: string, c: char)
    ensures RemoveChar(a + b, c) == RemoveChar(a, c) + RemoveChar(b, c)
  {
    if a != [] {
      assert (a + b)[1..] == a[1..] + b;
      RemoveCharAppend(a[1..], b, c);
    } else {
      assert a + b == b;
    }
  }

  /** A string without `c` is left alone. */
  lemma {:induction false} RemoveCharAbsent(s: string, c: char)
    requires c !in s
    ensures RemoveChar(s, c) == s
  {
    if s != [] {
      RemoveCharAbsent(s[1..], c);
    }
  }

  /**
   * Python's `s.replace(pat, rep)`: every occurrence of `pat`, scanning left
   * to right without overlap, is replaced by `rep`. Every caller passes a
   * non-empty `pat`.
   */
  function ReplaceAll(s: string, pat: string, rep: string): string
    requires |pat| > 0
    decreases |s|
  {
    if |s| < |pat| then s
    else if s[..|pat|] == pat then rep + ReplaceAll(s[|pat|..], pat, rep)
    else [s[0]] + ReplaceAll(s[1..], pat, rep)
  }

  /** A string in which `pat` does not occur comes back unchanged. */
  lemma {:induction false} ReplaceAbsent(s: string, pat: string, rep: string)
    requires |pat| > 0
    requires forall i :: !OccursAt(s, pat, i)
    ensures ReplaceAll(s, pat, rep) == s
  {
    if |s| >= |pat| {
      assert !OccursAt(s, pat, 0);
      assert s[..|pat|] != pat;
      OccursInTail(s, pat);
      ReplaceAbsent(s[1..], pat, rep);
      assert s == [s[0]] + s[1..];
    }
  }

  /** Replacing a pattern by itself changes nothing. */
  lemma {:induction false} ReplaceSelf(s: string, pat: string)
    requires |pat| > 0
    ensures ReplaceAll(s, pat, pat) == s
    decreases |s|
  {
    if |s| >= |pat| {
      if s[..|pat|] == pat {
        ReplaceSelf(s[|pat|..], pat);
        assert s == s[..|pat|] + s[|pat|..];
      } else {
        ReplaceSelf(s[1..], pat);
        assert s == [s[0]] + s[1..];
      }
    }
  }

  /** A prefix without the pattern's first character is copied verbatim. */
  lemma {:induction false} ReplacePlainPrefix(a: string, s: string, pat: string, rep: string)
    requires |pat| > 0 && pat[0] !in a
    ensures ReplaceAll(a + s, pat, rep) == a + ReplaceAll(s, pat, rep)
  {
    if a != [] {
      var t := a + s;
      assert t[0] == a[0];
      if |t| >= |pat| {
        assert t[..|pat|][0] == a[0] != pat[0];
      }
      assert t[1..] == a[1..] + s;
      ReplacePlainPrefix(a[1..], s, pat, rep);
    } else {
      assert a + s == s;
    }
  }

  /** An occurrence at the front is replaced and the scan resumes after it. */
  lemma ReplaceAtFront(s: string, pat: string, rep: string)
    requires |pat| > 0
    ensures ReplaceAll(pat + s, pat, rep) == rep + ReplaceAll(s, pat, rep)
  {
    assert (pat + s)[..|pat|] == pat;
    assert (pat + s)[|pat|..] == s;
  }

  /** `sep.join(items)`. */
  function Join(items: seq<string>, sep: string): string
    decreases |items|
  {
    if |items| == 0 then ""
    else if |items| == 1 then items[0]
    else items[0] + sep + Join(items[1..], sep)
  }

  /** `pat` holds its first character nowhere else, as a `{name}` placeholder without braces in `name`. */
  predicate HeadUnique(pat: string) {
    |pat| > 0 && forall j :: 0 < j < |pat| ==> pat[j] != pat[0]
  }

  /**
   * Before a text that starts with a pattern whose first character is
   * unique, a piece without the pattern holds no occurrence that reaches
   * into the text.
   */
  lemma NoStraddle(a: string, s: string, pat: string, i: nat)
    requires HeadUnique(pat) && pat <= s
    requires forall j :: !OccursAt(a, pat, j)
    requires i < |a|
    ensures !OccursAt(a + s, pat, i)
  {
    if i + |pat| <= |a| {
      assert !OccursAt(a, pat, i);
      assert (a + s)[i..i + |pat|] == a[i..i + |pat|];
    } else if i + |pat| <= |a + s| {
      var j := |a| - i;
      assert (a + s)[i..i + |pat|][j] == s[0] == pat[0] != pat[j];
    }
  }

  /** No occurrence of `pat` starts in `h` before index `n`. */
  predicate QuietBefore(h: string, pat: string, n: int) {
    forall i :: 0 <= i < n ==> !OccursAt(h, pat, i)
  }

  /** A prefix in which no occurrence of the pattern starts is copied verbatim. */
  lemma {:induction false} ReplaceQuietPrefix(a: string, s: string, pat: string, rep: string)
    requires |pat| > 0
    requires QuietBefore(a + s, pat, |a|)
    ensures ReplaceAll(a + s, pat, rep) == a + ReplaceAll(s, pat, rep)
  {
    if a != [] {
      var t := a + s;
      var a' := a[1..];
      assert !OccursAt(t, pat, 0);
      assert |t| >= |pat| ==> t[..|pat|] != pat;
      assert ReplaceAll(t, pat, rep) == [t[0]] + ReplaceAll(t[1..], pat, rep);
      assert t[1..] == a' + s;
      assert QuietBefore(a' + s, pat, |a'|) by {
        OccursInTail(t, pat);
      }
      ReplaceQuietPrefix(a', s, pat, rep);
      assert a == [t[0]] + a';
    } else {
      assert a + s == s;
    }
  }

  /**
   * Every occurrence is replaced: a text made of pieces without the pattern,
   * joined by the pattern, becomes the same pieces joined by the
   * replacement.
   */
  lemma {:induction false} ReplaceJoin(pieces: seq<string>, pat: string, rep: string)
    requires HeadUnique(pat)
    requires forall k, j :: 0 <= k < |pieces| ==> !OccursAt(pieces[k], pat, j)
    ensures ReplaceAll(Join(pieces, pat), pat, rep) == Join(pieces, rep)
    decreases |pieces|
  {
    if |pieces| == 1 {
      ReplaceAbsent(pieces[0], pat, rep);
    } else if |pieces| > 1 {
      var a := pieces[0];
      var rest := Join(pieces[1..], pat);
      assert Join(pieces, pat) == a + (pat + rest);
      forall i | 0 <= i < |a| ensures !OccursAt(a + (pat + rest), pat, i) {
        NoStraddle(a, pat + rest, pat, i);
      }
      assert QuietBefore(a + (pat + rest), pat, |a|);
      ReplaceQuietPrefix(a, pat + rest, pat, rep);
      ReplaceAtFront(rest, pat, rep);
      ReplaceJoin(pieces[1..], pat, rep);
      assert Join(pieces, rep) == a + rep + Join(pieces[1..], rep);
    }
  }

  /**
   * Python's `s.split('/')[-1]`: the text after the last `/`, or all of `s`
   * when it has none.
   */
  function LastSegment(s: string): (r: string)
    ensures '/' !in r
    ensures |r| <= |s| && r == s[|s| - |r|..]
    ensures |r| < |s| ==> s[|s| - |r| - 1] == '/'
  {
    var i := RFind(s, "/");
    OccursChar(s, '/');
    if i < 0 then s else s[i + 1..]
  }

  /** The segment after a final `/` is recovered exactly. */
  lemma LastSegmentAfterSlash(p: string, name: string)
    requires '/' !in name
    ensures LastSegment(p + "/" + name) == name
  {
    var s := p + "/" + name;
    var r := LastSegment(s);
    assert s[|p|] == '/';
    assert s[|s| - |name|..] == name;
  }

  function Digit(d: nat): char
    requires d < 10
  {
    ('0' as int + d) as char
  }

  predicate AllDigits(s: string) {
    forall k :: 0 <= k < |s| ==> '0' <= s[k] <= '9'
  }

  /** The number a string of decimal digits denotes (`int(s)`). */
  function DigitsValue(s: string): nat
    requires AllDigits(s)
    decreases |s|
  {
    if s == [] then 0 else DigitsValue(s[..|s| - 1]) * 10 + (s[|s| - 1] as int - '0' as int)
  }

  /** Python's `str(n)` for a natural number: its decimal digits, without leading zeros. */
  function NatToString(n: nat): (r: string)
    ensures |r| > 0 && AllDigits(r)
    ensures DigitsValue(r) == n
    ensures r[0] == '0' ==> r == "0"
  {
    if n < 10 then [Digit(n)]
    else
      var front := NatToString(n / 10);
      var r := front + [Digit(n % 10)];
      assert r[..|r| - 1] == front;
      r
  }
}
