/** Text operations used by the backend's code and prompt generation, with the
    semantics of the Python built-ins they stand for (`in`, `find`, slicing,
    `strip`, `split`, `join`, `replace`, `str` of an integer). */
module Strings {
  import opened Wrappers

  // ---------------------------------------------------------------------------
  // Substrings
  // ---------------------------------------------------------------------------

  /** `pat` occurs in `s` starting at index `i`. */
  predicate OccursAt(s: string, pat: string, i: int) {
    0 <= i && i + |pat| <= |s| && s[i..i + |pat|] == pat
  }

  /** Python's `pat in s`. */
  predicate Contains(s: string, pat: string) {
    exists i | 0 <= i <= |s| - |pat| :: OccursAt(s, pat, i)
  }

  /** Python's `s.find(pat, start)`: the first index at or after `start` where
      `pat` occurs, or -1 when there is none. */
  function FindFrom(s: string, pat: string, start: nat): (r: int)
    ensures r == -1 || (start <= r && OccursAt(s, pat, r))
    ensures r == -1 <==> forall i :: start <= i ==> !OccursAt(s, pat, i)
    ensures r != -1 ==> forall i :: start <= i < r ==> !OccursAt(s, pat, i)
    decreases |s| + 1 - start
  {
    if start + |pat| > |s| then -1
    else if s[start..start + |pat|] == pat then start
    else FindFrom(s, pat, start + 1)
  }

  /** A pattern whose first character never appears from `start` on is not found. */
  lemma NoStartNoMatch(s: string, pat: string, start: nat)
    requires pat != [] && forall i :: start <= i < |s| ==> s[i] != pat[0]
    ensures FindFrom(s, pat, start) == -1
  {
    forall i | start <= i
      ensures !OccursAt(s, pat, i)
    {
      if i + |pat| <= |s| {
        assert s[i..i + |pat|][0] == s[i];
      }
    }
  }

  /** Python's `s.find(pat)`. */
  function Find(s: string, pat: string): (r: int)
    ensures r >= 0 <==> Contains(s, pat)
    ensures r >= 0 ==> OccursAt(s, pat, r) && forall i :: 0 <= i < r ==> !OccursAt(s, pat, i)
    ensures r < 0 ==> r == -1
  {
    FindFrom(s, pat, 0)
  }

  /** Python's slice `s[a:b]`: negative bounds count from the end, and both
      bounds are clamped to the string. */
  function SliceBound(len: nat, i: int): (r: nat)
    ensures r <= len
    ensures 0 <= i <= len ==> r == i
    ensures -(len as int) <= i < 0 ==> r == len + i
    ensures i > len ==> r == len
    ensures i < -(len as int) ==> r == 0
  {
    if i < 0 then (if i + len < 0 then 0 else i + len)
    else if i > len then len
    else i
  }

  function PySlice(s: string, a: int, b: int): (r: string)
    ensures |r| <= |s|
    ensures 0 <= a <= b <= |s| ==> r == s[a..b]
    ensures 0 <= a && b < 0 && a <= |s| + b ==> r == s[a..|s| + b]
    ensures SliceBound(|s|, a) < SliceBound(|s|, b) ==> r == s[SliceBound(|s|, a)..SliceBound(|s|, b)]
    ensures SliceBound(|s|, a) >= SliceBound(|s|, b) ==> r == ""
  {
    var lo := SliceBound(|s|, a);
    var hi := SliceBound(|s|, b);
    if lo < hi then s[lo..hi] else ""
  }

  /** `a` is a contiguous part of `b`. */
  ghost predicate IsSubstring(a: string, b: string) {
    exists i :: OccursAt(b, a, i)
  }

  lemma SubstringOfConcat(x: string, a: string, y: string)
    ensures IsSubstring(a, x + a + y)
  {
    assert (x + a + y)[|x|..|x| + |a|] == a;
    assert OccursAt(x + a + y, a, |x|);
  }

  // ---------------------------------------------------------------------------
  // Whitespace and strip
  // ---------------------------------------------------------------------------

  /** Python's `str.isspace` for one character. */
  predicate IsSpace(c: char) {
    c == ' ' || ('\t' <= c <= '\r') || ('\U{1C}' <= c <= '\U{1F}')
    || c == '\U{85}' || c == '\U{A0}' || c == '\U{1680}'
    || ('\U{2000}' <= c <= '\U{200A}')
    || c == '\U{2028}' || c == '\U{2029}' || c == '\U{202F}' || c == '\U{205F}' || c == '\U{3000}'
  }

  predicate AllSpace(s: string) {
    forall k :: 0 <= k < |s| ==> IsSpace(s[k])
  }

  /** Drops the leading whitespace of `s` (Python's `lstrip()`). */
  function TrimLeft(s: string): (r: string)
    ensures |r| <= |s| && r == s[|s| - |r|..]
    ensures forall k :: 0 <= k < |s| - |r| ==> IsSpace(s[k])
    ensures r == [] || !IsSpace(r[0])
  {
    if |s| > 0 && IsSpace(s[0]) then
      var r := TrimLeft(s[1..]);
      assert s[1..][|s| - 1 - |r|..] == s[|s| - |r|..];
      SpacesShiftLeft(s, |s| - 1 - |r|);
      r
    else s
  }

  lemma SpacesShiftLeft(s: string, n: nat)
    requires n < |s| && IsSpace(s[0])
    requires forall k :: 0 <= k < n ==> IsSpace(s[1..][k])
    ensures forall k :: 0 <= k < n + 1 ==> IsSpace(s[k])
  {
    forall k | 0 < k < n + 1
      ensures IsSpace(s[k])
    {
      assert s[k] == s[1..][k - 1];
    }
  }

  /** Drops the trailing whitespace of `s` (Python's `rstrip()`). */
  function TrimRight(s: string): (r: string)
    ensures |r| <= |s| && r == s[..|r|]
    ensures forall k :: |r| <= k < |s| ==> IsSpace(s[k])
    ensures r == [] || !IsSpace(r[|r| - 1])
  {
    if |s| > 0 && IsSpace(s[|s| - 1]) then
      var r := TrimRight(s[..|s| - 1]);
      assert s[..|s| - 1][..|r|] == s[..|r|];
      SpacesShiftRight(s, s[..|s| - 1], |r|);
      r
    else s
  }

  lemma SpacesShiftRight(s: string, init: string, m: nat)
    requires m < |s| && IsSpace(s[|s| - 1]) && init == s[..|s| - 1]
    requires forall k :: m <= k < |init| ==> IsSpace(init[k])
    ensures forall k :: m <= k < |s| ==> IsSpace(s[k])
  {
    forall k | m <= k < |s| - 1
      ensures IsSpace(s[k])
    {
      assert s[k] == init[k];
    }
  }

  /** `r` sits in `s` at `i` with only whitespace before and after it. */
  predicate StrippedAt(s: string, r: string, i: int) {
    0 <= i && i + |r| <= |s| && s[i..i + |r|] == r && AllSpace(s[..i]) && AllSpace(s[i + |r|..])
  }

  /** Python's `s.strip()`: only leading and trailing whitespace goes. */
  function Strip(s: string): (r: string)
    ensures r == [] || (!IsSpace(r[0]) && !IsSpace(r[|r| - 1]))
    ensures r == [] <==> AllSpace(s)
    ensures IsSubstring(r, s)
    ensures exists i :: StrippedAt(s, r, i)
  {
    StripFacts(s);
    TrimRight(TrimLeft(s))
  }

  /** What `lstrip()` followed by `rstrip()` leaves, from the two trims'
      contracts alone. */
  lemma StripFacts(s: string)
    ensures var r := TrimRight(TrimLeft(s));
      && (r == [] || (!IsSpace(r[0]) && !IsSpace(r[|r| - 1])))
      && (r == [] <==> AllSpace(s))
      && IsSubstring(r, s)
      && exists i :: StrippedAt(s, r, i)
  {
    var left := TrimLeft(s);
    var r := TrimRight(left);
    StripEmpty(s, left, r);
    StripPlacement(s, left, r);
    if r != [] {
      assert r[0] == left[0];
    }
  }

  /** Where the stripped text sits: after the leading whitespace, followed by
      the trailing whitespace. */
  lemma StripPlacement(s: string, left: string, r: string)
    requires |left| <= |s| && left == s[|s| - |left|..]
    requires forall k :: 0 <= k < |s| - |left| ==> IsSpace(s[k])
    requires |r| <= |left| && r == left[..|r|]
    requires forall k :: |r| <= k < |left| ==> IsSpace(left[k])
    ensures OccursAt(s, r, |s| - |left|)
    ensures StrippedAt(s, r, |s| - |left|)
  {
    var i := |s| - |left|;
    assert s[i..i + |r|] == r;
    AllSpaceBetween(s, 0, i);
    assert s[0..i] == s[..i];
    forall j | i + |r| <= j < |s| ensures IsSpace(s[j]) {
      assert s[j] == left[j - i];
    }
    AllSpaceBetween(s, i + |r|, |s|);
    assert s[i + |r|..|s|] == s[i + |r|..];
  }

  /** A stretch of whitespace characters is an all-whitespace slice. */
  lemma AllSpaceBetween(s: string, a: int, b: int)
    requires 0 <= a <= b <= |s|
    requires forall j :: a <= j < b ==> IsSpace(s[j])
    ensures AllSpace(s[a..b])
  {
    forall k | 0 <= k < b - a ensures IsSpace(s[a..b][k]) {
      assert s[a..b][k] == s[a + k];
    }
  }

  lemma StripEmpty(s: string, left: string, r: string)
    requires |left| <= |s| && left == s[|s| - |left|..]
    requires forall k :: 0 <= k < |s| - |left| ==> IsSpace(s[k])
    requires left == [] || !IsSpace(left[0])
    requires |r| <= |left| && forall k :: |r| <= k < |left| ==> IsSpace(left[k])
    ensures r == [] <==> AllSpace(s)
  {
    if r != [] {
      assert left[0] == s[|s| - |left|];
    }
  }

  predicate IsPrefixOf(p: string, s: string) {
    |p| <= |s| && s[..|p|] == p
  }

  predicate IsSuffixOf(p: string, s: string) {
    |p| <= |s| && s[|s| - |p|..] == p
  }

  /** A concatenation starts with its left part and ends with its right part. */
  lemma ConcatAffixes(a: string, b: string)
    ensures IsPrefixOf(a, a + b) && IsSuffixOf(b, a + b)
  {
    assert (a + b)[..|a|] == a;
    assert (a + b)[|a + b| - |b|..] == b;
  }

  /** Python's `s * n`: `n` copies of `s`, and nothing for `n <= 0`. */
  function Repeat(s: string, n: int): (r: string)
    ensures n <= 0 ==> r == []
    ensures n > 0 ==> |r| == |s| * n
    ensures forall k :: 0 <= k < |r| ==> r[k] in s
    decreases n
  {
    if n <= 0 then [] else s + Repeat(s, n - 1)
  }

  /** A line is blank when it is all whitespace, which is when `line.strip()`
      is empty (falsy in Python); see `Strip`. */
  predicate IsBlank(line: string) {
    AllSpace(line)
  }

  // ---------------------------------------------------------------------------
  // Split and join on one separator character
  // ---------------------------------------------------------------------------

  /** Number of occurrences of `c` in `s`. */
  function Count(s: string, c: char): nat {
    if |s| == 0 then 0 else (if s[0] == c then 1 else 0) + Count(s[1..], c)
  }

  /** Python's `s.split(sep)` for a one-character separator. */
  function Split(s: string, sep: char): (r: seq<string>)
    ensures |r| == Count(s, sep) + 1
    ensures forall k :: 0 <= k < |r| ==> sep !in r[k]
  {
    if |s| == 0 then [[]]
    else if s[0] == sep then [[]] + Split(s[1..], sep)
    else
      var rest := Split(s[1..], sep);
      [[s[0]] + rest[0]] + rest[1..]
  }

  /** Python's `sep.join(parts)` for a one-character separator. */
  function Join(parts: seq<string>, sep: char): string {
    if |parts| == 0 then []
    else if |parts| == 1 then parts[0]
    else parts[0] + [sep] + Join(parts[1..], sep)
  }

  /** Joining the pieces of a split gives the original text back. */
  lemma {:induction false} JoinSplit(s: string, sep: char)
    ensures Join(Split(s, sep), sep) == s
  {
    if |s| == 0 {
    } else if s[0] == sep {
      JoinSplit(s[1..], sep);
      assert s == [sep] + s[1..];
    } else {
      var rest := Split(s[1..], sep);
      JoinSplit(s[1..], sep);
      if |rest| == 1 {
        assert s == [s[0]] + s[1..];
      } else {
        assert Join(rest, sep) == rest[0] + [sep] + Join(rest[1..], sep);
        assert s == [s[0]] + s[1..];
      }
    }
  }

  /** Joining two non-empty lists is joining each and putting one separator between. */
  lemma {:induction false} JoinAppend(a: seq<string>, b: seq<string>, sep: char)
    requires |a| >= 1 && |b| >= 1
    ensures Join(a + b, sep) == Join(a, sep) + [sep] + Join(b, sep)
  {
    assert (a + b)[0] == a[0];
    if |a| == 1 {
      assert (a + b)[1..] == b;
    } else {
      assert (a + b)[1..] == a[1..] + b;
      JoinAppend(a[1..], b, sep);
    }
  }

  /** Joining a list with one element that is itself a join flattens it. */
  lemma {:induction false} JoinFlatten(a: seq<string>, b: seq<string>, c: seq<string>, sep: char)
    requires |a| >= 1 && |b| >= 1 && |c| >= 1
    ensures Join(a + [Join(b, sep)] + c, sep) == Join(a + b + c, sep)
  {
    var jb := Join(b, sep);
    var x := [jb] + c;
    assert a + [jb] + c == a + x;
    JoinAppend(a, x, sep);
    JoinAppend([jb], c, sep);
    JoinAppend(b, c, sep);
    JoinAppend(a, b + c, sep);
    assert a + b + c == a + (b + c);
  }

  /** Splitting a join of separator-free pieces gives the pieces back. */
  lemma {:induction false} SplitJoin(parts: seq<string>, sep: char)
    requires |parts| >= 1
    requires forall k :: 0 <= k < |parts| ==> sep !in parts[k]
    ensures Split(Join(parts, sep), sep) == parts
  {
    if |parts| == 1 {
      SplitNoSep(parts[0], sep);
    } else {
      SplitJoin(parts[1..], sep);
      SplitPrefix(parts[0], Join(parts[1..], sep), sep);
      assert parts == [parts[0]] + parts[1..];
    }
  }

  /** A text without the separator splits into itself. */
  lemma {:induction false} SplitNoSep(s: string, sep: char)
    requires sep !in s
    ensures Split(s, sep) == [s]
  {
    if |s| > 0 {
      assert sep !in s[1..] by { assert forall k :: 0 <= k < |s| - 1 ==> s[1..][k] == s[k + 1]; }
      SplitNoSep(s[1..], sep);
      assert s == [s[0]] + s[1..];
    }
  }

  /** Splitting `p + sep + t` for separator-free `p` yields `p` then the pieces of `t`. */
  lemma {:induction false} SplitPrefix(p: string, t: string, sep: char)
    requires sep !in p
    ensures Split(p + [sep] + t, sep) == [p] + Split(t, sep)
  {
    if |p| == 0 {
      assert p + [sep] + t == [sep] + t;
      assert ([sep] + t)[1..] == t;
    } else {
      var s := p + [sep] + t;
      assert s[1..] == p[1..] + [sep] + t;
      assert sep !in p[1..] by { assert forall k :: 0 <= k < |p| - 1 ==> p[1..][k] == p[k + 1]; }
      SplitPrefix(p[1..], t, sep);
      assert [p[0]] + p[1..] == p;
    }
  }

  // ---------------------------------------------------------------------------
  // Character replacement
  // ---------------------------------------------------------------------------

  /** Python's `s.replace(a, b)` for single characters. */
  function ReplaceChar(s: string, a: char, b: char): (r: string)
    ensures |r| == |s|
    ensures forall k :: 0 <= k < |s| && s[k] != a ==> r[k] == s[k]
    ensures forall k :: 0 <= k < |s| && s[k] == a ==> r[k] == b
    ensures a != b ==> a !in r
  {
    if |s| == 0 then []
    else [if s[0] == a then b else s[0]] + ReplaceChar(s[1..], a, b)
  }

  // ---------------------------------------------------------------------------
  // Decimal text of integers
  // ---------------------------------------------------------------------------

  predicate IsDigit(c: char) {
    '0' <= c <= '9'
  }

  predicate AllDigits(s: string) {
    forall k :: 0 <= k < |s| ==> IsDigit(s[k])
  }

  function DigitChar(d: nat): (c: char)
    requires d < 10
    ensures IsDigit(c)
  {
    (48 + d) as char
  }

  function DigitValue(c: char): (d: nat)
    requires IsDigit(c)
    ensures d < 10
  {
    (c as int) - 48
  }

  /** Decimal text of a natural number, without leading zeros (`str(n)`). */
  function NatToDecimal(n: nat): (r: string)
    ensures |r| >= 1 && AllDigits(r)
    ensures |r| > 1 ==> r[0] != '0'
  {
    if n < 10 then [DigitChar(n)] else NatToDecimal(n / 10) + [DigitChar(n % 10)]
  }

  /** Decimal text of an integer, with a leading '-' when negative. */
  function IntToDecimal(i: int): (r: string)
    ensures |r| >= 1
    ensures i < 0 <==> r[0] == '-'
  {
    if i < 0 then "-" + NatToDecimal(-i) else NatToDecimal(i)
  }

  function DigitsValue(s: string): nat
    requires AllDigits(s)
  {
    if |s| == 0 then 0 else DigitsValue(s[..|s| - 1]) * 10 + DigitValue(s[|s| - 1])
  }

  /** Reads decimal text back; refuses empty text and any non-digit. */
  function ParseDecimal(s: string): (r: Option<nat>)
    ensures r.Some? <==> |s| > 0 && AllDigits(s)
  {
    if |s| > 0 && AllDigits(s) then Some(DigitsValue(s)) else None
  }

  /** Reading back the decimal text of `n` yields `n`. */
  lemma {:induction false} ParseNatToDecimal(n: nat)
    ensures ParseDecimal(NatToDecimal(n)) == Some(n)
  {
    DigitsOfDecimal(n);
  }

  /** Reads signed decimal text back: an optional '-' and then digits. */
  function ParseInteger(s: string): (r: Option<int>)
    ensures r.Some? <==> ParseDecimal(s).Some? || (|s| > 1 && s[0] == '-' && ParseDecimal(s[1..]).Some?)
    ensures ParseDecimal(s).Some? ==> r == Some(ParseDecimal(s).value)
  {
    match ParseDecimal(s)
    case Some(n) => Some(n)
    case None =>
      if |s| > 1 && s[0] == '-' && ParseDecimal(s[1..]).Some?
      then Some(0 - ParseDecimal(s[1..]).value as int)
      else None
  }

  /** Reading back the decimal text of any integer yields that integer. */
  lemma ParseIntToDecimal(i: int)
    ensures ParseInteger(IntToDecimal(i)) == Some(i)
  {
    var s := IntToDecimal(i);
    if i < 0 {
      assert !IsDigit(s[0]);
      assert ParseDecimal(s).None?;
      assert s[1..] == NatToDecimal(-i);
      ParseNatToDecimal(-i);
    } else {
      ParseNatToDecimal(i);
    }
  }

  lemma {:induction false} DigitsOfDecimal(n: nat)
    ensures DigitsValue(NatToDecimal(n)) == n
  {
    if n >= 10 {
      DigitsOfDecimal(n / 10);
      var s := NatToDecimal(n);
      assert s[..|s| - 1] == NatToDecimal(n / 10);
    }
  }
}
