/**
 * The handful of Python `str` operations the core relies on, each with the
 * semantics CPython gives it: `startswith`, `in`, `replace`, `strip`,
 * `lower`/`upper` (ASCII letters only), `join` and slicing with negative
 * indices.
 */
module Text {

  /** `c.isspace()` in Python: the characters `str.strip()` removes. */
  predicate IsSpace(c: char) {
    ('\U{09}' <= c <= '\U{0D}') || ('\U{1C}' <= c <= '\U{20}') || c == '\U{85}' || c == '\U{A0}'
    || c == '\U{1680}' || ('\U{2000}' <= c <= '\U{200A}') || c == '\U{2028}' || c == '\U{2029}'
    || c == '\U{202F}' || c == '\U{205F}' || c == '\U{3000}'
  }

  predicate AllSpace(s: string) {
    forall k :: 0 <= k < |s| ==> IsSpace(s[k])
  }

  predicate NoSpace(s: string) {
    forall k :: 0 <= k < |s| ==> !IsSpace(s[k])
  }

  /** `s.startswith(p)`. */
  predicate StartsWith(s: string, p: string) {
    |p| <= |s| && s[..|p|] == p
  }

  /** `p in s`: `p` occurs in `s` as a contiguous substring (the empty string always does). */
  predicate Contains(s: string, p: string)
    decreases |s|
  {
    StartsWith(s, p) || (|s| > 0 && Contains(s[1..], p))
  }

  /** `s.lstrip()`. */
  function LStrip(s: string): string
    decreases |s|
  {
    if s != [] && IsSpace(s[0]) then LStrip(s[1..]) else s
  }

  /** `s.rstrip()`. */
  function RStrip(s: string): string
    decreases |s|
  {
    if s != [] && IsSpace(s[|s| - 1]) then RStrip(s[..|s| - 1]) else s
  }

  /** `s.strip()`. */
  function Strip(s: string): string {
    RStrip(LStrip(s))
  }

  /** `lstrip` drops the leading whitespace and nothing else. */
  lemma {:induction false} LStripDropsLeadingSpace(s: string)
    ensures |LStrip(s)| <= |s| && LStrip(s) == s[|s| - |LStrip(s)|..]
    ensures AllSpace(s[..|s| - |LStrip(s)|])
    ensures LStrip(s) == [] || !IsSpace(LStrip(s)[0])
    decreases |s|
  {
    if s != [] && IsSpace(s[0]) {
      LStripDropsLeadingSpace(s[1..]);
      var n := |s| - |LStrip(s)|;
      assert s[1..][..n - 1] == s[1..n];
      assert forall k :: 0 < k < n ==> s[k] == s[1..n][k - 1];
    }
  }

  /** `rstrip` drops the trailing whitespace and nothing else. */
  lemma {:induction false} RStripDropsTrailingSpace(s: string)
    ensures |RStrip(s)| <= |s| && RStrip(s) == s[..|RStrip(s)|]
    ensures AllSpace(s[|RStrip(s)|..])
    ensures RStrip(s) == [] || !IsSpace(RStrip(s)[|RStrip(s)| - 1])
    decreases |s|
  {
    if s != [] && IsSpace(s[|s| - 1]) {
      var t := s[..|s| - 1];
      RStripDropsTrailingSpace(t);
      var n := |RStrip(s)|;
      assert t[..n] == s[..n];
      assert forall k :: n <= k < |s| - 1 ==> s[k] == t[n..][k - n];
    }
  }

  /** `s.strip()` is a slice of `s` with only whitespace cut off either side. */
  lemma StripSplits(s: string) returns (lead: string, trail: string)
    ensures s == lead + Strip(s) + trail
    ensures AllSpace(lead) && AllSpace(trail)
  {
    var l := LStrip(s);
    var m := RStrip(l);
    LStripDropsLeadingSpace(s);
    RStripDropsTrailingSpace(l);
    lead := s[..|s| - |l|];
    trail := l[|m|..];
    assert l == m + trail by { assert l == l[..|m|] + l[|m|..]; }
    assert s == lead + l by { assert s == s[..|s| - |l|] + s[|s| - |l|..]; }
    assert s == lead + m + trail;
  }

  function UpperChar(c: char): char {
    if 'a' <= c <= 'z' then (c as int - 32) as char else c
  }

  function LowerChar(c: char): char {
    if 'A' <= c <= 'Z' then (c as int + 32) as char else c
  }

  /** `s.upper()`, for the ASCII letters. */
  function Upper(s: string): (r: string)
    ensures |r| == |s| && forall k :: 0 <= k < |s| ==> r[k] == UpperChar(s[k])
  {
    seq(|s|, k requires 0 <= k < |s| => UpperChar(s[k]))
  }

  /** `s.lower()`, for the ASCII letters. */
  function Lower(s: string): (r: string)
    ensures |r| == |s| && forall k :: 0 <= k < |s| ==> r[k] == LowerChar(s[k])
  {
    seq(|s|, k requires 0 <= k < |s| => LowerChar(s[k]))
  }

  /** `"".join(parts)`. */
  function Concat(parts: seq<string>): string {
    if parts == [] then "" else parts[0] + Concat(parts[1..])
  }

  /** `sep.join(parts)`. */
  function Join(sep: string, parts: seq<string>): string {
    if parts == [] then ""
    else if |parts| == 1 then parts[0]
    else parts[0] + sep + Join(sep, parts[1..])
  }

  /** `s.replace("", rep)`: `rep` before every character and at the end. */
  function ReplaceEmpty(s: string, rep: string): string {
    if s == [] then rep else rep + [s[0]] + ReplaceEmpty(s[1..], rep)
  }

  /**
   * `s.replace(pat, rep)`: one left-to-right pass that replaces every
   * non-overlapping occurrence of `pat`; the replaced text is not rescanned.
   */
  function Replace(s: string, pat: string, rep: string): string
    decreases |s|
  {
    if pat == [] then ReplaceEmpty(s, rep)
    else if StartsWith(s, pat) then rep + Replace(s[|pat|..], pat, rep)
    else if s == [] then []
    else [s[0]] + Replace(s[1..], pat, rep)
  }

  /** Python's `s[i:j]` with negative indices counted from the end and both ends clamped. */
  function PySlice(s: string, i: int, j: int): (r: string)
    ensures |r| <= |s|
  {
    var lo := Clamp(if i < 0 then |s| + i else i, |s|);
    var hi := Clamp(if j < 0 then |s| + j else j, |s|);
    if lo < hi then s[lo..hi] else []
  }

  function Clamp(x: int, n: nat): (r: nat)
    ensures r <= n
  {
    if x < 0 then 0 else if x > n then n else x
  }

  /** `s.find(p)`: the first index where `p` occurs, or -1. */
  function Find(s: string, p: string): (r: int)
    ensures -1 <= r <= |s|
    ensures r == -1 <==> !Contains(s, p)
    ensures r >= 0 ==> StartsWith(s[r..], p)
    decreases |s|
  {
    if StartsWith(s, p) then 0
    else if s == [] then -1
    else var k := Find(s[1..], p); if k == -1 then -1 else k + 1
  }

  /** `s.rfind(p)`: the last index where `p` occurs, or -1. */
  function RFind(s: string, p: string): (r: int)
    ensures -1 <= r <= |s|
    ensures r == -1 <==> !Contains(s, p)
    ensures r >= 0 ==> StartsWith(s[r..], p)
    decreases |s|
  {
    if s == [] then (if p == [] then 0 else -1)
    else var k := RFind(s[1..], p); if k >= 0 then k + 1 else if StartsWith(s, p) then 0 else -1
  }

  // ---------------------------------------------------------------------
  // Facts about these operations
  // ---------------------------------------------------------------------

  /** Whitespace in front cannot start an occurrence of a pattern that begins with a non-space. */
  lemma {:induction false} ContainsAfterSpaces(a: string, b: string, p: string)
    requires AllSpace(a) && p != [] && !IsSpace(p[0])
    ensures Contains(a + b, p) <==> Contains(b, p)
    decreases |a|
  {
    if a == [] {
      assert a + b == b;
    } else {
      assert IsSpace((a + b)[0]) && !IsSpace(p[0]);
      assert (a + b)[1..] == a[1..] + b;
      ContainsAfterSpaces(a[1..], b, p);
    }
  }

  /** An occurrence stays an occurrence when text is appended. */
  lemma {:induction false} ContainsExtendRight(b: string, c: string, p: string)
    requires Contains(b, p)
    ensures Contains(b + c, p)
    decreases |b|
  {
    if StartsWith(b, p) {
      assert (b + c)[..|p|] == b[..|p|];
    } else {
      assert (b + c)[1..] == b[1..] + c;
      ContainsExtendRight(b[1..], c, p);
    }
  }

  /** An occurrence stays an occurrence when text is prepended. */
  lemma {:induction false} ContainsExtendLeft(a: string, b: string, p: string)
    requires Contains(b, p)
    ensures Contains(a + b, p)
    decreases |a|
  {
    if a == [] {
      assert a + b == b;
    } else {
      assert (a + b)[1..] == a[1..] + b;
      ContainsExtendLeft(a[1..], b, p);
    }
  }

  /** A non-empty pattern without whitespace never occurs in a run of whitespace. */
  lemma {:induction false} NotContainedInSpaces(b: string, p: string)
    requires AllSpace(b) && p != [] && NoSpace(p)
    ensures !Contains(b, p)
    decreases |b|
  {
    if b != [] {
      assert IsSpace(b[0]) && !IsSpace(p[0]);
      NotContainedInSpaces(b[1..], p);
    }
  }

  /** Whitespace behind cannot complete an occurrence of a pattern without whitespace. */
  lemma {:induction false} ContainsBeforeSpaces(a: string, b: string, p: string)
    requires AllSpace(b) && p != [] && NoSpace(p)
    ensures Contains(a + b, p) <==> Contains(a, p)
    decreases |a|
  {
    if a == [] {
      assert a + b == b;
      NotContainedInSpaces(b, p);
    } else {
      assert StartsWith(a + b, p) <==> StartsWith(a, p) by {
        if |p| <= |a| {
          assert (a + b)[..|p|] == a[..|p|];
        } else if |b| > 0 {
          assert IsSpace((a + b)[|a|]) && !IsSpace(p[|a|]);
        }
      }
      assert (a + b)[1..] == a[1..] + b;
      ContainsBeforeSpaces(a[1..], b, p);
    }
  }

  /**
   * Stripping whitespace does not change whether a pattern without
   * whitespace occurs: `p in s.strip().upper()` iff `p in s.upper()`.
   */
  lemma StripKeepsOccurrence(s: string, p: string)
    requires p != [] && NoSpace(p)
    ensures Contains(Upper(Strip(s)), p) <==> Contains(Upper(s), p)
  {
    var lead, trail := StripSplits(s);
    var mid := Strip(s);
    var u1, u2, u3 := Upper(lead), Upper(mid), Upper(trail);
    UpperSplit(s, lead, mid, trail);
    UpperKeepsSpaces(lead);
    UpperKeepsSpaces(trail);
    ContainsAfterSpaces(u1, u2 + u3, p);
    ContainsBeforeSpaces(u2, u3, p);
  }

  lemma UpperSplit(s: string, a: string, b: string, c: string)
    requires s == a + b + c
    ensures Upper(s) == Upper(a) + (Upper(b) + Upper(c))
  {
    var r := Upper(a) + (Upper(b) + Upper(c));
    assert |r| == |s|;
    forall k | 0 <= k < |s| ensures Upper(s)[k] == r[k] {
      if k < |a| {
        assert s[k] == a[k];
      } else if k < |a| + |b| {
        assert s[k] == b[k - |a|];
      } else {
        assert s[k] == c[k - |a| - |b|];
      }
    }
  }

  lemma UpperKeepsSpaces(a: string)
    requires AllSpace(a)
    ensures AllSpace(Upper(a))
  {
    assert forall k :: 0 <= k < |a| ==> Upper(a)[k] == a[k];
  }

  /** When the pattern is absent, `replace` returns its input unchanged. */
  lemma {:induction false} ReplaceAbsent(s: string, pat: string, rep: string)
    requires pat != [] && !Contains(s, pat)
    ensures Replace(s, pat, rep) == s
    decreases |s|
  {
    if s != [] {
      ReplaceAbsent(s[1..], pat, rep);
    }
  }

  /** Removing a pattern never makes a string longer. */
  lemma {:induction false} ReplaceByEmptyShrinks(s: string, pat: string)
    requires pat != []
    ensures |Replace(s, pat, "")| <= |s|
    ensures Contains(s, pat) ==> |Replace(s, pat, "")| <= |s| - |pat|
    decreases |s|
  {
    if StartsWith(s, pat) {
      ReplaceByEmptyShrinks(s[|pat|..], pat);
    } else if s != [] {
      ReplaceByEmptyShrinks(s[1..], pat);
    }
  }

  /** A prefix marker followed by a text free of the marker: removing the marker gives the text back. */
  lemma ReplaceMarkerPrefix(marker: string, t: string)
    requires marker != [] && !Contains(t, marker)
    ensures Replace(marker + t, marker, "") == t
  {
    assert StartsWith(marker + t, marker);
    assert (marker + t)[|marker|..] == t;
    ReplaceAbsent(t, marker, "");
  }

  lemma {:induction false} ConcatAppend(parts: seq<string>, last: string)
    ensures Concat(parts + [last]) == Concat(parts) + last
    decreases |parts|
  {
    if parts != [] {
      assert (parts + [last])[1..] == parts[1..] + [last];
      ConcatAppend(parts[1..], last);
    }
  }

  lemma {:induction false} JoinAppend(sep: string, parts: seq<string>, last: string)
    ensures Join(sep, parts + [last]) == if parts == [] then last else Join(sep, parts) + sep + last
    decreases |parts|
  {
    if |parts| > 1 {
      assert (parts + [last])[1..] == parts[1..] + [last];
      JoinAppend(sep, parts[1..], last);
    } else if |parts| == 1 {
      assert (parts + [last])[1..] == [last];
    }
  }

  /** `sep.join(parts)` starts with `parts[0]`. */
  lemma JoinStartsWith(sep: string, parts: seq<string>)
    requires parts != []
    ensures StartsWith(Join(sep, parts), parts[0])
  {
    if |parts| > 1 {
      assert Join(sep, parts) == parts[0] + (sep + Join(sep, parts[1..]));
    }
  }
}
