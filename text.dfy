/**
 * The string operations of JavaScript that the extension uses, on Dafny
 * strings: `indexOf`, `slice`, `split` with a string separator, `trim`, and
 * `replace` with a literal pattern, either the first occurrence
 * (`s.replace('x', r)`) or every occurrence (`s.replace(/x/g, r)`).
 * Special `$` patterns in replacement strings are not interpreted.
 */
module Text {
  import opened Wrappers

  /** `p` occurs in `s` at index `k`. */
  predicate OccursAt(s: string, p: string, k: int)
  {
    0 <= k && k + |p| <= |s| && s[k..k + |p|] == p
  }

  predicate Contains(s: string, p: string)
  {
    exists k | 0 <= k <= |s| - |p| :: OccursAt(s, p, k)
  }

  /** `s.indexOf(p)`, with `None` for -1. */
  function IndexOf(s: string, p: string): (r: Option<nat>)
    ensures r.Some? ==> OccursAt(s, p, r.value) && forall k :: 0 <= k < r.value ==> !OccursAt(s, p, k)
    ensures r.None? ==> !Contains(s, p)
    decreases |s|
  {
    if p <= s then Some(0)
    else if |s| == 0 then None
    else
      OccursShifted(s, p);
      match IndexOf(s[1..], p)
      case None => None
      case Some(k) => Some(k + 1)
  }

  /** Past the first character, `p` occurs in `s` exactly where it occurs in `s[1..]`, one place later. */
  lemma OccursShifted(s: string, p: string)
    requires |s| > 0
    ensures forall k :: 1 <= k ==> (OccursAt(s, p, k) <==> OccursAt(s[1..], p, k - 1))
  {
    forall k | 1 <= k
      ensures OccursAt(s, p, k) <==> OccursAt(s[1..], p, k - 1)
    {
      if k + |p| <= |s| {
        var a, b := s[k..k + |p|], s[1..][k - 1..k - 1 + |p|];
        assert |a| == |b|;
        forall j | 0 <= j < |p| ensures a[j] == b[j] {
          assert a[j] == s[k + j] && b[j] == s[1..][k - 1 + j];
        }
        assert a == b;
      }
    }
  }

  /** `s.lastIndexOf(c)` for one character, with -1 when `c` is absent. */
  function LastIndexOf(s: string, c: char): (r: int)
    ensures -1 <= r < |s|
    ensures r >= 0 ==> s[r] == c
    ensures forall k :: r < k < |s| ==> s[k] != c
  {
    if |s| == 0 then -1
    else if s[|s| - 1] == c then |s| - 1
    else LastIndexOf(s[..|s| - 1], c)
  }

  /** The index that `slice` uses for an argument `x`: negative values count from the end, and the result is clamped to the string. */
  function SliceIndex(len: nat, x: int): (r: nat)
    ensures r <= len
  {
    if x < 0 then (if len + x < 0 then 0 else len + x)
    else if x > len then len else x
  }

  /** `s.slice(start, end)`. */
  function Slice(s: string, start: int, end: int): string
  {
    var from, to := SliceIndex(|s|, start), SliceIndex(|s|, end);
    if from < to then s[from..to] else ""
  }

  /** `s.slice(start)`. */
  function SliceFrom(s: string, start: int): string
  {
    s[SliceIndex(|s|, start)..]
  }

  /** `s.split(sep)` for a non-empty separator string. */
  function Split(s: string, sep: string): (parts: seq<string>)
    requires |sep| > 0
    ensures |parts| > 0
    decreases |s|
  {
    match IndexOf(s, sep)
    case None => [s]
    case Some(k) => [s[..k]] + Split(s[k + |sep|..], sep)
  }

  /** `parts.join(sep)`: the inverse of `Split`. */
  function JoinWith(parts: seq<string>, sep: string): string
  {
    if |parts| == 0 then ""
    else if |parts| == 1 then parts[0]
    else parts[0] + sep + JoinWith(parts[1..], sep)
  }

  lemma {:induction false} SplitJoin(s: string, sep: string)
    requires |sep| > 0
    ensures JoinWith(Split(s, sep), sep) == s
    decreases |s|
  {
    match IndexOf(s, sep)
    case None =>
    case Some(k) =>
      var rest := s[k + |sep|..];
      SplitJoin(rest, sep);
      assert s == s[..k] + sep + rest;
  }

  /** The text before the first occurrence holds no occurrence. */
  lemma BeforeFirst(s: string, sep: string)
    requires |sep| > 0 && IndexOf(s, sep).Some?
    ensures !Contains(s[..IndexOf(s, sep).value], sep)
  {
    var k := IndexOf(s, sep).value;
    forall j | 0 <= j <= k - |sep| ensures !OccursAt(s[..k], sep, j) {
      assert !OccursAt(s, sep, j);
      assert s[j..j + |sep|] == s[..k][j..j + |sep|];
    }
  }

  /** No part of a split holds the separator. */
  lemma {:induction false} SplitPartsFree(s: string, sep: string)
    requires |sep| > 0
    ensures forall i :: 0 <= i < |Split(s, sep)| ==> !Contains(Split(s, sep)[i], sep)
    decreases |s|
  {
    match IndexOf(s, sep)
    case None =>
    case Some(k) =>
      var rest := s[k + |sep|..];
      SplitPartsFree(rest, sep);
      BeforeFirst(s, sep);
      var parts := Split(s, sep);
      assert parts == [s[..k]] + Split(rest, sep);
      forall i | 1 <= i < |parts| ensures !Contains(parts[i], sep) {
        assert parts[i] == Split(rest, sep)[i - 1];
      }
  }

  /** The single characters `String.prototype.trim` removes, besides the range U+2000 to U+200A. */
  const SPACE_CHARS: set<char> := {
    ' ', '\t', '\n', '\r', '\U{000B}', '\U{000C}', '\U{00A0}', '\U{1680}',
    '\U{2028}', '\U{2029}', '\U{202F}', '\U{205F}', '\U{3000}', '\U{FEFF}'
  }

  /** The characters `String.prototype.trim` removes: white space and line terminators. */
  predicate IsSpace(c: char)
  {
    c in SPACE_CHARS || ('\U{2000}' <= c <= '\U{200A}')
  }

  function TrimStart(s: string): (r: string)
    ensures |r| <= |s| && r == s[|s| - |r|..]
    ensures r == [] || !IsSpace(r[0])
    ensures forall i :: 0 <= i < |s| - |r| ==> IsSpace(s[i])
  {
    if |s| > 0 && IsSpace(s[0]) then TrimStart(s[1..]) else s
  }

  function TrimEnd(s: string): (r: string)
    ensures |r| <= |s| && r == s[..|r|]
    ensures r == [] || !IsSpace(r[|r| - 1])
    ensures forall i :: |r| <= i < |s| ==> IsSpace(s[i])
  {
    if |s| > 0 && IsSpace(s[|s| - 1]) then TrimEnd(s[..|s| - 1]) else s
  }

  /** `s.trim()`. */
  function Trim(s: string): (r: string)
  {
    TrimEnd(TrimStart(s))
  }

  /** `r` sits in `s` at index `i`, with only white space before and after it. */
  predicate PaddedAt(s: string, i: int, r: string)
  {
    && 0 <= i && i + |r| <= |s| && s[i..i + |r|] == r
    && (forall k :: 0 <= k < i ==> IsSpace(s[k]))
    && (forall k :: i + |r| <= k < |s| ==> IsSpace(s[k]))
  }

  /** What `trim` keeps: a contiguous piece of the input that neither starts nor ends with white space, with only white space cut off around it. */
  lemma TrimSpec(s: string)
    ensures Trim(s) == [] || Trimmed(Trim(s))
    ensures PaddedAt(s, |s| - |TrimStart(s)|, Trim(s))
  {
    InnerPiece(s, TrimStart(s), Trim(s));
  }

  /**
   * A start `t` of `s` after white space only, which does not begin with
   * white space, cut after its last character that is not white space to
   * `r`, is `r` padded with white space.
   */
  lemma InnerPiece(s: string, t: string, r: string)
    requires |t| <= |s| && t == s[|s| - |t|..] && (t == [] || !IsSpace(t[0]))
    requires forall k :: 0 <= k < |s| - |t| ==> IsSpace(s[k])
    requires |r| <= |t| && r == t[..|r|] && (r == [] || !IsSpace(r[|r| - 1]))
    requires forall k :: |r| <= k < |t| ==> IsSpace(t[k])
    ensures r == [] || Trimmed(r)
    ensures PaddedAt(s, |s| - |t|, r)
  {
    var i := |s| - |t|;
    assert s[i..][..|r|] == s[i..i + |r|];
    if r != [] {
      assert r[0] == t[0];
    }
    forall k | i + |r| <= k < |s| ensures IsSpace(s[k]) {
      assert s[k] == t[k - i];
    }
  }

  lemma TrimIdempotent(s: string)
    ensures Trim(Trim(s)) == Trim(s)
  {
  }

  /** `s.replace(pat, rep)` with a string pattern: only the first occurrence is replaced. */
  function ReplaceFirst(s: string, pat: string, rep: string): (r: string)
    requires |pat| > 0
    ensures IndexOf(s, pat).None? ==> r == s
    ensures IndexOf(s, pat).Some? ==>
      var k := IndexOf(s, pat).value; r == s[..k] + rep + s[k + |pat|..]
  {
    match IndexOf(s, pat)
    case None => s
    case Some(k) => s[..k] + rep + s[k + |pat|..]
  }

  /** `s.replace(/pat/g, rep)` for a literal pattern: leftmost, non-overlapping occurrences are replaced. */
  function ReplaceAll(s: string, pat: string, rep: string): string
    requires |pat| > 0
    decreases |s|
  {
    if pat <= s then rep + ReplaceAll(s[|pat|..], pat, rep)
    else if |s| == 0 then ""
    else [s[0]] + ReplaceAll(s[1..], pat, rep)
  }

  /** A pattern absent from a string is absent from its tail. */
  lemma AbsentFromTail(s: string, pat: string)
    requires |s| > 0 && !Contains(s, pat)
    ensures !Contains(s[1..], pat)
  {
    forall k | 0 <= k <= |s| - 1 - |pat| ensures !OccursAt(s[1..], pat, k) {
      var u, v := s[1..][k..k + |pat|], s[k + 1..k + 1 + |pat|];
      forall j | 0 <= j < |pat| ensures u[j] == v[j] {}
      assert u == v;
      assert !OccursAt(s, pat, k + 1);
    }
  }

  /** A string without the pattern comes back unchanged. */
  lemma {:induction false} ReplaceAllAbsent(s: string, pat: string, rep: string)
    requires |pat| > 0 && !Contains(s, pat)
    ensures ReplaceAll(s, pat, rep) == s
    decreases |s|
  {
    if |s| > 0 {
      assert !OccursAt(s, pat, 0);
      assert !(pat <= s);
      AbsentFromTail(s, pat);
      ReplaceAllAbsent(s[1..], pat, rep);
    }
  }

  /** A leading occurrence is replaced. */
  lemma ReplaceAllHit(pat: string, rep: string, y: string)
    requires |pat| > 0
    ensures ReplaceAll(pat + y, pat, rep) == rep + ReplaceAll(y, pat, rep)
  {
    assert (pat + y)[|pat|..] == y;
  }

  /** A leading piece free of the pattern's first character is copied. */
  lemma {:induction false} ReplaceAllSkip(x: string, pat: string, rep: string, y: string)
    requires |pat| > 0 && pat[0] !in x
    ensures ReplaceAll(x + y, pat, rep) == x + ReplaceAll(y, pat, rep)
    decreases |x|
  {
    if |x| > 0 {
      var s := x + y;
      assert s[0] == x[0] && !(pat <= s);
      assert s[1..] == x[1..] + y;
      ReplaceAllSkip(x[1..], pat, rep, y);
      assert x == [x[0]] + x[1..];
    } else {
      assert x + y == y;
    }
  }

  /** A leading character that starts no occurrence is copied. */
  lemma ReplaceAllMiss(c: char, pat: string, rep: string, y: string)
    requires |pat| > 0 && !(pat <= [c] + y)
    ensures ReplaceAll([c] + y, pat, rep) == [c] + ReplaceAll(y, pat, rep)
  {
    assert ([c] + y)[1..] == y;
  }

  /** Replacing the first placeholder of a message whose head has no character of the placeholder's first kind. */
  lemma ReplaceFirstAfter(head: string, pat: string, tail: string, rep: string)
    requires |pat| > 0 && pat[0] !in head
    ensures ReplaceFirst(head + pat + tail, pat, rep) == head + rep + tail
  {
    var s := head + pat + tail;
    assert OccursAt(s, pat, |head|) by { assert s[|head|..|head| + |pat|] == pat; }
    assert forall k :: 0 <= k < |head| ==> !OccursAt(s, pat, k) by {
      forall k | 0 <= k < |head| ensures !OccursAt(s, pat, k) {
        assert s[k] == head[k];
      }
    }
    assert s[|head| + |pat|..] == tail;
  }

  /** Only white space. */
  predicate Spaces(s: string)
  {
    forall i :: 0 <= i < |s| ==> IsSpace(s[i])
  }

  /** Text that neither starts nor ends with white space. */
  predicate Trimmed(s: string)
  {
    s != [] && !IsSpace(s[0]) && !IsSpace(s[|s| - 1])
  }

  lemma {:induction false} TrimStartPadded(pre: string, x: string)
    requires Spaces(pre) && Trimmed(x)
    ensures TrimStart(pre + x) == x
    decreases |pre|
  {
    if pre == [] {
      assert pre + x == x;
    } else {
      assert (pre + x)[1..] == pre[1..] + x;
      TrimStartPadded(pre[1..], x);
    }
  }

  lemma {:induction false} TrimEndPadded(x: string, post: string)
    requires Spaces(post) && Trimmed(x)
    ensures TrimEnd(x + post) == x
    decreases |post|
  {
    if post == [] {
      assert x + post == x;
    } else {
      var s := x + post;
      assert s[|s| - 1] == post[|post| - 1];
      assert s[..|s| - 1] == x + post[..|post| - 1];
      TrimEndPadded(x, post[..|post| - 1]);
    }
  }

  /** Trimming cuts exactly the white-space padding around trimmed text. */
  lemma TrimPadded(pre: string, x: string, post: string)
    requires Spaces(pre) && Spaces(post) && Trimmed(x)
    ensures Trim(pre + x + post) == x
  {
    assert pre + x + post == pre + (x + post);
    assert Trimmed(x + post) || post != [] by {
      if post == [] { assert x + post == x; }
    }
    TrimEndPadded(x, post);
    var t := x + post;
    if post == [] {
      assert t == x;
      TrimStartPadded(pre, x);
    } else {
      TrimStartPaddedLoose(pre, t);
    }
  }

  /** Leading padding goes when what follows starts with a character that is not white space. */
  lemma {:induction false} TrimStartPaddedLoose(pre: string, t: string)
    requires Spaces(pre) && t != [] && !IsSpace(t[0])
    ensures TrimStart(pre + t) == t
    decreases |pre|
  {
    if pre == [] {
      assert pre + t == t;
    } else {
      assert (pre + t)[1..] == pre[1..] + t;
      TrimStartPaddedLoose(pre[1..], t);
    }
  }
}
