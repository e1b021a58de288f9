/**
 * The small part of Python's `str` that the chat assistant relies on:
 * `strip`, `find`, `in`, `split(sep)`, `join`, `replace`, `startswith`,
 * `endswith` and slicing, stated over `seq<char>`.  The Option and Result
 * wrappers used to model exceptions live here as well.
 */
module Strings {

  datatype Option<+T> = None | Some(value: T) {
    function GetOr(default: T): T {
      if Some? then value else default
    }
  }

  datatype Result<+T, +E> = Ok(value: T) | Err(error: E)

  lemma AppendAssoc<T>(a: seq<T>, b: seq<T>, c: seq<T>)
    ensures a + (b + c) == (a + b) + c
  {
  }

  /** The characters for which Python's `str.isspace()` holds. */
  predicate IsSpace(c: char) {
    || c == ' '
    || ('\t' <= c <= '\r')
    || ('\U{1C}' <= c <= '\U{1F}')
    || c == '\U{85}' || c == '\U{A0}' || c == '\U{1680}'
    || ('\U{2000}' <= c <= '\U{200A}')
    || c == '\U{2028}' || c == '\U{2029}' || c == '\U{202F}' || c == '\U{205F}'
    || c == '\U{3000}'
  }

  predicate AllSpace(s: string) {
    forall i :: 0 <= i < |s| ==> IsSpace(s[i])
  }

  /** What `str.strip()` produces: empty, or no white space at either end. */
  predicate IsStripped(s: string) {
    s == [] || (!IsSpace(s[0]) && !IsSpace(s[|s| - 1]))
  }

  function LeadingSpaces(s: string): (n: nat)
    ensures n <= |s|
    ensures forall i :: 0 <= i < n ==> IsSpace(s[i])
    ensures n < |s| ==> !IsSpace(s[n])
  {
    if s == [] || !IsSpace(s[0]) then 0 else 1 + LeadingSpaces(s[1..])
  }

  function TrailingSpaces(s: string): (n: nat)
    ensures n <= |s|
    ensures forall i :: |s| - n <= i < |s| ==> IsSpace(s[i])
    ensures n < |s| ==> !IsSpace(s[|s| - 1 - n])
  {
    if s == [] || !IsSpace(s[|s| - 1]) then 0 else 1 + TrailingSpaces(s[..|s| - 1])
  }

  /** Python's `s.strip()`: drop white space at both ends. */
  function Strip(s: string): (r: string)
    ensures IsStripped(r)
    ensures |r| <= |s|
    ensures r == [] <==> AllSpace(s)
  {
    var lo := LeadingSpaces(s);
    var t := s[lo..];
    var r := t[..|t| - TrailingSpaces(t)];
    assert r != [] ==> r[0] == s[lo];
    assert lo < |s| ==> !IsSpace(t[0]);
    assert lo < |s| ==> TrailingSpaces(t) < |t|;
    r
  }

  /**
   * `strip` removes white space only: its result is a slice of `s` with
   * nothing but white space outside it, and with `IsStripped` that makes it
   * the one such slice.
   */
  lemma StripRemovesOuterSpace(s: string)
    ensures exists lo: nat, hi: nat ::
      lo <= hi <= |s| && Strip(s) == s[lo..hi] && AllSpace(s[..lo]) && AllSpace(s[hi..])
  {
    var lo := LeadingSpaces(s);
    var t := s[lo..];
    var hi := lo + |t| - TrailingSpaces(t);
    assert Strip(s) == s[lo..hi] && AllSpace(s[..lo]);
    assert AllSpace(s[hi..]) by {
      forall i | 0 <= i < |s| - hi
        ensures IsSpace(s[hi..][i])
      {
        assert s[hi..][i] == t[|t| - TrailingSpaces(t) + i];
      }
    }
  }

  lemma StrippedIsFixpoint(s: string)
    requires IsStripped(s)
    ensures Strip(s) == s
  {
    if s != [] {
      assert LeadingSpaces(s) == 0;
      assert TrailingSpaces(s) == 0;
    }
  }

  /** Stripping one leading blank from an already stripped string. */
  lemma StripLeadingBlank(t: string)
    requires IsStripped(t)
    ensures Strip([' '] + t) == t
  {
    var s := [' '] + t;
    assert s[1..] == t;
    assert LeadingSpaces(s) == 1;
    if t != [] {
      assert TrailingSpaces(t) == 0;
    }
  }

  /** `strip` is idempotent. */
  lemma StripIdempotent(s: string)
    ensures Strip(Strip(s)) == Strip(s)
  {
    StrippedIsFixpoint(Strip(s));
  }

  predicate OccursAt(s: string, pat: string, i: nat) {
    i + |pat| <= |s| && s[i..i + |pat|] == pat
  }

  /** Leftmost occurrence of `pat` in `s` at or after `from`. */
  function FindFrom(s: string, pat: string, from: nat): (r: Option<nat>)
    ensures r.Some? ==> from <= r.value && OccursAt(s, pat, r.value)
    ensures r.Some? ==> forall k :: from <= k < r.value ==> !OccursAt(s, pat, k)
    ensures r.None? ==> forall k :: from <= k ==> !OccursAt(s, pat, k)
    decreases |s| - from
  {
    if from + |pat| > |s| then None
    else if OccursAt(s, pat, from) then Some(from)
    else FindFrom(s, pat, from + 1)
  }

  /** A one-character pattern occurs exactly where that character stands. */
  lemma OccursAtChar(s: string, c: char)
    ensures forall k: nat :: OccursAt(s, [c], k) <==> k < |s| && s[k] == c
  {
    forall k: nat
      ensures OccursAt(s, [c], k) <==> k < |s| && s[k] == c
    {
      if k < |s| {
        assert s[k..k + 1] == [s[k]];
      }
    }
  }

  /** Python's `s.find(pat)`, with `None` for -1. */
  function Find(s: string, pat: string): Option<nat> {
    FindFrom(s, pat, 0)
  }

  /** Python's `pat in s`. */
  predicate Contains(s: string, pat: string) {
    Find(s, pat).Some?
  }

  lemma ContainsIff(s: string, pat: string, k: nat)
    requires OccursAt(s, pat, k)
    ensures Contains(s, pat)
  {
  }

  /** Python's `s.find(c)` for one character, with `None` for -1. */
  function IndexOfChar(s: string, c: char): (r: Option<nat>)
    ensures r.None? <==> c !in s
    ensures r.Some? ==> r.value < |s| && s[r.value] == c && c !in s[..r.value]
  {
    if s == [] then None
    else if s[0] == c then Some(0)
    else
      var r := IndexOfChar(s[1..], c);
      if r.None? then None
      else
        assert s[..r.value + 1] == [s[0]] + s[1..][..r.value];
        Some(r.value + 1)
  }

  /** Python's `s.rfind(c)` for one character, with `None` for -1. */
  function LastIndexOfChar(s: string, c: char): (r: Option<nat>)
    ensures r.None? <==> c !in s
    ensures r.Some? ==> r.value < |s| && s[r.value] == c && c !in s[r.value + 1..]
  {
    if s == [] then None
    else if s[|s| - 1] == c then Some(|s| - 1)
    else
      assert s == s[..|s| - 1] + [s[|s| - 1]];
      var r := LastIndexOfChar(s[..|s| - 1], c);
      if r.Some? then
        assert s[r.value + 1..] == s[..|s| - 1][r.value + 1..] + [s[|s| - 1]];
        r
      else r
  }

  predicate StartsWith(s: string, prefix: string) {
    |prefix| <= |s| && s[..|prefix|] == prefix
  }

  predicate EndsWith(s: string, suffix: string) {
    |suffix| <= |s| && s[|s| - |suffix|..] == suffix
  }

  /** An occurrence inside a prefix of `s` is an occurrence in `s`. */
  lemma OccursInPrefix(s: string, pat: string, n: nat, k: nat)
    requires n <= |s| && OccursAt(s[..n], pat, k)
    ensures OccursAt(s, pat, k)
  {
    assert s[..n][k..k + |pat|] == s[k..k + |pat|];
  }

  /** Python's `s.split(sep)` for a non-empty separator. */
  function Split(s: string, sep: string): (parts: seq<string>)
    requires sep != []
    ensures |parts| >= 1
    ensures forall j :: 0 <= j < |parts| ==> !Contains(parts[j], sep)
    decreases |s|
  {
    match Find(s, sep)
    case None => [s]
    case Some(i) =>
      var head := s[..i];
      assert !Contains(head, sep) by {
        if Contains(head, sep) {
          OccursInPrefix(s, sep, i, Find(head, sep).value);
        }
      }
      [head] + Split(s[i + |sep|..], sep)
  }

  /** Python's `sep.join(parts)`. */
  function Join(parts: seq<string>, sep: string): string {
    if parts == [] then []
    else if |parts| == 1 then parts[0]
    else parts[0] + sep + Join(parts[1..], sep)
  }

  lemma JoinCons(head: string, tail: seq<string>, sep: string)
    requires tail != []
    ensures Join([head] + tail, sep) == head + sep + Join(tail, sep)
  {
    assert ([head] + tail)[1..] == tail;
  }

  /** `sep.join(s.split(sep)) == s`: splitting loses nothing. */
  lemma {:induction false} SplitJoin(s: string, sep: string)
    requires sep != []
    ensures Join(Split(s, sep), sep) == s
    decreases |s|
  {
    var f := Find(s, sep);
    if f.Some? {
      var i := f.value;
      var head, rest := s[..i], s[i + |sep|..];
      var tail := Split(rest, sep);
      assert Split(s, sep) == [head] + tail;
      assert Join(tail, sep) == rest by { SplitJoin(rest, sep); }
      assert Join([head] + tail, sep) == head + sep + Join(tail, sep) by { JoinCons(head, tail, sep); }
      assert s == head + sep + rest by {
        assert s[i..i + |sep|] == sep;
        assert s == s[..i] + s[i..i + |sep|] + s[i + |sep|..];
      }
    }
  }

  lemma SplitWithoutSeparator(s: string, sep: string)
    requires sep != [] && !Contains(s, sep)
    ensures Split(s, sep) == [s]
  {
  }

  /**
   * When the first character of `sep` occurs nowhere else in `sep`, an
   * occurrence-free `x` followed by `sep` is cut right after `x`.
   */
  lemma FindAfterFreePrefix(x: string, sep: string, y: string)
    requires sep != [] && sep[0] !in sep[1..]
    requires !Contains(x, sep)
    ensures Find(x + sep + y, sep) == Some(|x|)
  {
    var s := x + sep + y;
    assert OccursAt(s, sep, |x|) by { assert s[|x|..|x| + |sep|] == sep; }
    forall k | 0 <= k < |x|
      ensures !OccursAt(s, sep, k)
    {
      if k + |sep| <= |x| {
        assert s[k..k + |sep|] == x[k..k + |sep|];
        assert !OccursAt(x, sep, k);
      } else {
        var d := |x| - k;
        assert s[k..k + |sep|][d] == sep[0];
        assert sep[d] != sep[0] by { assert sep[d] == sep[1..][d - 1]; }
      }
    }
  }

  /**
   * The same cut when `x` ends in a character that does not occur in `sep`
   * (so no occurrence can straddle the end of `x`).
   */
  lemma FindAfterForeignEnd(x: string, sep: string, y: string)
    requires sep != [] && x != [] && x[|x| - 1] !in sep
    requires !Contains(x, sep)
    ensures Find(x + sep + y, sep) == Some(|x|)
  {
    var s := x + sep + y;
    assert OccursAt(s, sep, |x|) by { assert s[|x|..|x| + |sep|] == sep; }
    forall k | 0 <= k < |x|
      ensures !OccursAt(s, sep, k)
    {
      if k + |sep| <= |x| {
        assert s[k..k + |sep|] == x[k..k + |sep|];
        assert !OccursAt(x, sep, k);
      } else {
        var d := |x| - 1 - k;
        assert s[k..k + |sep|][d] == x[|x| - 1];
        assert sep[d] in sep;
      }
    }
  }

  /** A piece ending in a character foreign to the separator is split off whole. */
  lemma SplitAfterForeignEnd(x: string, sep: string, y: string)
    requires sep != [] && x != [] && x[|x| - 1] !in sep
    requires !Contains(x, sep)
    ensures Split(x + sep + y, sep) == [x] + Split(y, sep)
  {
    var s := x + sep + y;
    FindAfterForeignEnd(x, sep, y);
    assert s[..|x|] == x && s[|x| + |sep|..] == y;
  }

  lemma {:induction false} SplitAroundSeparator(x: string, sep: string, y: string)
    requires sep != [] && sep[0] !in sep[1..]
    requires !Contains(x, sep) && !Contains(y, sep)
    ensures Split(x + sep + y, sep) == [x, y]
  {
    var s := x + sep + y;
    FindAfterFreePrefix(x, sep, y);
    assert s[..|x|] == x;
    assert s[|x| + |sep|..] == y;
    SplitWithoutSeparator(y, sep);
  }

  /** A text without the first character of `pat` does not contain `pat`. */
  lemma FirstCharAbsent(s: string, pat: string)
    requires pat != [] && pat[0] !in s
    ensures !Contains(s, pat)
  {
    forall k: nat | k + |pat| <= |s|
      ensures !OccursAt(s, pat, k)
    {
      assert s[k..k + |pat|][0] == s[k];
    }
  }

  /** A string without the character `c` does not contain `[c]`. */
  lemma CharNotContained(s: string, c: char)
    requires c !in s
    ensures !Contains(s, [c])
  {
    FirstCharAbsent(s, [c]);
  }

  /** Joining on one character and splitting on it again gives the parts back. */
  lemma {:induction false} JoinSplitChar(parts: seq<string>, c: char)
    requires parts != []
    requires forall k :: 0 <= k < |parts| ==> c !in parts[k]
    ensures Split(Join(parts, [c]), [c]) == parts
  {
    CharNotContained(parts[0], c);
    if |parts| == 1 {
      SplitWithoutSeparator(parts[0], [c]);
    } else {
      var rest := Join(parts[1..], [c]);
      JoinSplitChar(parts[1..], c);
      FindAfterFreePrefix(parts[0], [c], rest);
      var s := parts[0] + [c] + rest;
      assert s[..|parts[0]|] == parts[0];
      assert s[|parts[0]| + 1..] == rest;
      assert parts == [parts[0]] + parts[1..];
    }
  }

  /** Python's `s.replace(pat, rep)` for a non-empty pattern. */
  function ReplaceAll(s: string, pat: string, rep: string): string
    requires pat != []
    decreases |s|
  {
    match Find(s, pat)
    case None => s
    case Some(i) => s[..i] + rep + ReplaceAll(s[i + |pat|..], pat, rep)
  }

  /** Removing a leading copy of `pat` from a string that has no other copy. */
  lemma ReplaceLeadingOnly(pat: string, q: string)
    requires pat != [] && !Contains(q, pat)
    ensures ReplaceAll(pat + q, pat, []) == q
  {
    var s := pat + q;
    assert OccursAt(s, pat, 0) by { assert s[..|pat|] == pat; }
    assert s[|pat|..] == q;
  }

  /** Python's `s[:n]` for any integer `n`. */
  function PyPrefix<T>(s: seq<T>, n: int): (r: seq<T>)
    ensures n >= 0 ==> |r| == if n < |s| then n else |s|
    ensures n < 0 ==> |r| == if |s| + n > 0 then |s| + n else 0
    ensures r <= s
  {
    if n >= 0 then (if n < |s| then s[..n] else s)
    else if |s| + n > 0 then s[..|s| + n] else []
  }
}
