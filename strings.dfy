/** The few pieces of Python's `str` behaviour the model relies on:
    `str(int)`, `sep.join`, `startswith`, `in`, `split`, `strip` and
    `rstrip` with one character, and the prefix a regular-expression
    character class `[^...]+` consumes. */
module Strings {
  import opened Wrappers

  /** The decimal digit for d. */
  function DigitChar(d: nat): (c: char)
    requires d < 10
    ensures '0' <= c <= '9'
  {
    "0123456789"[d]
  }

  /** `str(n)` for a non-negative integer: its decimal digits, no sign, no padding. */
  function NatToString(n: nat): (s: string)
    ensures |s| > 0
    ensures forall k :: 0 <= k < |s| ==> '0' <= s[k] <= '9'
    ensures n < 10 <==> |s| == 1
  {
    if n < 10 then [DigitChar(n)] else NatToString(n / 10) + [DigitChar(n % 10)]
  }

  /** `str(i)` for any integer: a '-' sign before the digits of a negative number. */
  function IntToString(i: int): (s: string)
    ensures |s| > 0
    ensures s[0] == '-' <==> i < 0
  {
    if i < 0 then "-" + NatToString(-i) else NatToString(i)
  }

  /** `sep.join(parts)`. */
  function Join(sep: string, parts: seq<string>): string
  {
    if |parts| == 0 then ""
    else if |parts| == 1 then parts[0]
    else parts[0] + sep + Join(sep, parts[1..])
  }

  /** `"".join(parts)`. */
  function Concat(parts: seq<string>): string
  {
    if parts == [] then "" else Concat(parts[..|parts| - 1]) + parts[|parts| - 1]
  }

  lemma {:induction false} ConcatAppend(a: seq<string>, b: seq<string>)
    ensures Concat(a + b) == Concat(a) + Concat(b)
    decreases |b|
  {
    if b == [] {
      assert a + b == a;
    } else {
      var b', x := b[..|b| - 1], b[|b| - 1];
      assert (a + b)[..|a + b| - 1] == a + b' && (a + b)[|a + b| - 1] == x;
      ConcatAppend(a, b');
      assert Concat(a + b) == Concat(a + b') + x;
      assert Concat(b) == Concat(b') + x;
    }
  }

  /** `".".join(str(i) for i in path)`: the dotted hierarchical index. */
  function JoinInts(path: seq<int>): string
  {
    if |path| == 0 then ""
    else if |path| == 1 then IntToString(path[0])
    else IntToString(path[0]) + "." + JoinInts(path[1..])
  }

  /** Appending a position to a non-empty path appends "." and its digits. */
  lemma {:induction false} JoinIntsSnoc(path: seq<int>, k: int)
    requires |path| > 0
    ensures JoinInts(path + [k]) == JoinInts(path) + "." + IntToString(k)
    decreases |path|
  {
    if |path| > 1 {
      assert (path + [k])[1..] == path[1..] + [k];
      JoinIntsSnoc(path[1..], k);
    } else {
      assert (path + [k])[1..] == [k];
    }
  }

  /** `unit * n` for the two-space indentation unit. */
  function Indent(n: nat): (s: string)
    ensures |s| == 2 * n
    ensures forall k :: 0 <= k < |s| ==> s[k] == ' '
  {
    if n == 0 then "" else "  " + Indent(n - 1)
  }

  /** `s.startswith(p)`. */
  predicate StartsWith(s: string, p: string)
  {
    |p| <= |s| && s[..|p|] == p
  }

  /** The rest of s after the prefix p, if s starts with p. */
  function DropPrefix(s: string, p: string): (r: Option<string>)
    ensures r.Some? <==> StartsWith(s, p)
    ensures r.Some? ==> s == p + r.value
  {
    if StartsWith(s, p) then
      assert s == s[..|p|] + s[|p|..];
      Some(s[|p|..])
    else None
  }

  /** Dropping a prefix that is there leaves the rest. */
  lemma DropPrefixAppend(p: string, rest: string)
    ensures DropPrefix(p + rest, p) == Some(rest)
  {
    assert (p + rest)[..|p|] == p;
    assert (p + rest)[|p|..] == rest;
  }

  /** A text whose first character differs from that of p does not start with p. */
  lemma DropPrefixMismatch(s: string, p: string)
    requires |s| > 0 && |p| > 0 && s[0] != p[0]
    ensures DropPrefix(s, p).None?
  {
  }

  /** `pat` occurs in `s` at position i. */
  predicate OccursAt(s: string, pat: string, i: nat)
  {
    i + |pat| <= |s| && s[i..i + |pat|] == pat
  }

  /** `s.find(pat)`: the first position where `pat` occurs, if any. */
  function IndexOf(s: string, pat: string): (r: Option<nat>)
    ensures r.Some? ==> OccursAt(s, pat, r.value)
    ensures r.Some? ==> forall j :: 0 <= j < r.value ==> !OccursAt(s, pat, j)
    ensures r.None? ==> forall j: nat :: !OccursAt(s, pat, j)
    decreases |s|
  {
    if |s| < |pat| then None
    else if s[..|pat|] == pat then Some(0)
    else
      assert !OccursAt(s, pat, 0) by { assert s[0..|pat|] == s[..|pat|]; }
      assert forall j: nat :: 1 <= j ==> (OccursAt(s, pat, j) <==> OccursAt(s[1..], pat, j - 1)) by {
        forall j: nat | 1 <= j ensures OccursAt(s, pat, j) <==> OccursAt(s[1..], pat, j - 1) {
          if j + |pat| <= |s| {
            assert s[1..][j - 1..j - 1 + |pat|] == s[j..j + |pat|];
          }
        }
      }
      match IndexOf(s[1..], pat)
      case None => None
      case Some(i) => Some(i + 1)
  }

  /** The first occurrence, named by its position. */
  lemma IndexOfAt(s: string, pat: string, i: nat)
    requires OccursAt(s, pat, i)
    requires forall j :: 0 <= j < i ==> !OccursAt(s, pat, j)
    ensures IndexOf(s, pat) == Some(i)
  {
  }

  /** `pat in s`. */
  predicate Contains(s: string, pat: string)
  {
    IndexOf(s, pat).Some?
  }

  /** `s.split(sep)[0]` (also `s.split(sep, 1)[0]`): the text before the first `sep`, or all of s. */
  function Before(s: string, sep: string): (r: string)
    ensures r <= s
    ensures Contains(s, sep) ==> |r| == IndexOf(s, sep).value
    ensures !Contains(s, sep) ==> r == s
  {
    match IndexOf(s, sep)
    case None => s
    case Some(i) => s[..i]
  }

  /** `s.split(sep, 1)[1]`: the text after the first `sep`. */
  function After(s: string, sep: string): (r: string)
    requires Contains(s, sep)
    ensures |r| == |s| - IndexOf(s, sep).value - |sep|
  {
    s[IndexOf(s, sep).value + |sep|..]
  }

  /** Cutting s at its first `sep` and gluing the two parts back around `sep` gives s. */
  lemma BeforeAfter(s: string, sep: string)
    requires |sep| > 0 && Contains(s, sep)
    ensures Before(s, sep) + sep + After(s, sep) == s
    ensures !Contains(Before(s, sep), sep)
  {
    var i := IndexOf(s, sep).value;
    assert OccursAt(s, sep, i);
    assert s == s[..i] + s[i..i + |sep|] + s[i + |sep|..];
    var head := s[..i];
    forall j: nat | OccursAt(head, sep, j) ensures false {
      assert j < i;
      assert s[j..j + |sep|] == head[j..j + |sep|];
      assert OccursAt(s, sep, j);
    }
  }

  /** `s.rstrip(c)` for one character c. */
  function RStrip(s: string, c: char): (r: string)
    ensures r <= s
    ensures r == [] || r[|r| - 1] != c
    ensures forall k :: |r| <= k < |s| ==> s[k] == c
    decreases |s|
  {
    if |s| > 0 && s[|s| - 1] == c then RStrip(s[..|s| - 1], c) else s
  }

  /** `s.lstrip(c)` for one character c. */
  function LStrip(s: string, c: char): (r: string)
    ensures |r| <= |s| && r == s[|s| - |r|..]
    ensures r == [] || r[0] != c
    ensures forall k :: 0 <= k < |s| - |r| ==> s[k] == c
    decreases |s|
  {
    if |s| > 0 && s[0] == c then LStrip(s[1..], c) else s
  }

  /** `s.strip(c)` for one character c: a piece of s with only c cut
      away at either end. */
  function Strip(s: string, c: char): (r: string)
    ensures r == [] || (r[0] != c && r[|r| - 1] != c)
    ensures exists i :: (0 <= i <= |s| && r <= s[i..]
      && (forall k :: 0 <= k < i ==> s[k] == c)
      && (forall k :: i + |r| <= k < |s| ==> s[k] == c))
  {
    var t := RStrip(s, c);
    var r := LStrip(t, c);
    StripPiece(s, c, t, r);
    assert r <= s[|t| - |r|..];
    r
  }

  /** A prefix t of s followed only by c, then a suffix r of t preceded
      only by c: r is a piece of s with only c around it. */
  lemma StripPiece(s: string, c: char, t: string, r: string)
    requires t <= s && forall k :: |t| <= k < |s| ==> s[k] == c
    requires |r| <= |t| && r == t[|t| - |r|..] && forall k :: 0 <= k < |t| - |r| ==> t[k] == c
    ensures var i := |t| - |r|;
      0 <= i <= |s| && r <= s[i..]
      && (forall k :: 0 <= k < i ==> s[k] == c)
      && (forall k :: i + |r| <= k < |s| ==> s[k] == c)
  {
    var i := |t| - |r|;
    assert r == s[i..|t|];
    forall k | 0 <= k < i ensures s[k] == c {
      assert s[k] == t[k];
    }
  }

  /** The longest prefix of s free of the characters in stop: what a
      greedy `[^...]+` consumes (the `+` asks for it to be non-empty). */
  function SpanNot(s: string, stop: set<char>): (r: string)
    ensures r <= s
    ensures forall k :: 0 <= k < |r| ==> r[k] !in stop
    ensures |r| == |s| || s[|r|] in stop
    decreases |s|
  {
    if |s| == 0 || s[0] in stop then "" else [s[0]] + SpanNot(s[1..], stop)
  }

  /** No character of s is in stop. */
  predicate FreeOf(s: string, stop: set<char>)
  {
    forall k :: 0 <= k < |s| ==> s[k] !in stop
  }

  /** s cut after its longest prefix free of the characters in stop. */
  function Span(s: string, stop: set<char>): (r: (string, string))
    ensures r.0 + r.1 == s
    ensures r.0 == SpanNot(s, stop) && FreeOf(r.0, stop)
    ensures r.1 == [] || r.1[0] in stop
  {
    var run := SpanNot(s, stop);
    assert s == run + s[|run|..];
    (run, s[|run|..])
  }

  /** The longest prefix free of stop is exactly a run free of stop that
      is followed by a character of stop or by the end. */
  lemma {:induction false} SpanExact(run: string, stop: set<char>, after: string)
    requires FreeOf(run, stop) && (after == [] || after[0] in stop)
    ensures Span(run + after, stop) == (run, after)
    decreases |run|
  {
    if run == [] {
      assert run + after == after;
    } else {
      assert (run + after)[0] == run[0];
      assert (run + after)[1..] == run[1..] + after;
      SpanExact(run[1..], stop, after);
      assert [run[0]] + run[1..] == run;
    }
  }
}
