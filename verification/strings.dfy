/** The pieces of Python's string and path behaviour the tray script relies on:
    `str.strip()`, `str.split(sep)`, slicing a prefix, and `os.path.join` with
    two components on POSIX. */
module Strings {
  /** `str.isspace()` for one character: the code points Python treats as whitespace. */
  predicate IsSpace(c: char) {
    var n := c as int;
    (0x09 <= n <= 0x0D) || (0x1C <= n <= 0x20) || n == 0x85 || n == 0xA0 || n == 0x1680
    || (0x2000 <= n <= 0x200A) || n == 0x2028 || n == 0x2029 || n == 0x202F || n == 0x205F
    || n == 0x3000
  }

  predicate AllSpace(s: string) {
    forall i :: 0 <= i < |s| ==> IsSpace(s[i])
  }

  /** `s[i..j]` is what remains of `s` once the whitespace on both ends is cut
      away: everything outside it is whitespace and it neither starts nor ends with any. */
  predicate StrippedAt(s: string, i: int, j: int) {
    && 0 <= i <= j <= |s|
    && (forall k :: 0 <= k < i ==> IsSpace(s[k]))
    && (forall k :: j <= k < |s| ==> IsSpace(s[k]))
    && (i == j || (!IsSpace(s[i]) && !IsSpace(s[j - 1])))
  }

  /** What `s.strip()` must be. */
  ghost predicate IsStripOf(s: string, r: string) {
    exists i, j :: StrippedAt(s, i, j) && r == s[i..j]
  }

  /** The first index at or after `i` that does not hold whitespace, or `|s|`. */
  function SkipSpaceForward(s: string, i: nat): (n: nat)
    requires i <= |s|
    ensures i <= n <= |s|
    ensures forall k :: i <= k < n ==> IsSpace(s[k])
    ensures n == |s| || !IsSpace(s[n])
    decreases |s| - i
  {
    if i < |s| && IsSpace(s[i]) then SkipSpaceForward(s, i + 1) else i
  }

  /** The end of `s[lo..j]` once the whitespace at its end is cut away. */
  function SkipSpaceBackward(s: string, lo: nat, j: nat): (n: nat)
    requires lo <= j <= |s|
    ensures lo <= n <= j
    ensures forall k :: n <= k < j ==> IsSpace(s[k])
    ensures n == lo || !IsSpace(s[n - 1])
  {
    if lo < j && IsSpace(s[j - 1]) then SkipSpaceBackward(s, lo, j - 1) else j
  }

  /** `s.strip()` with no argument. */
  function Strip(s: string): (r: string)
    ensures IsStripOf(s, r)
    ensures r != [] ==> !IsSpace(r[0]) && !IsSpace(r[|r| - 1])
  {
    var i := SkipSpaceForward(s, 0);
    var j := SkipSpaceBackward(s, i, |s|);
    assert StrippedAt(s, i, j);
    s[i..j]
  }

  /** The cut points of a strip are determined by the string. */
  lemma StrippedAtUnique(s: string, i1: int, j1: int, i2: int, j2: int)
    requires StrippedAt(s, i1, j1) && StrippedAt(s, i2, j2)
    ensures s[i1..j1] == s[i2..j2]
  {
    if i1 != j1 && i2 != j2 {
      assert i1 == i2 && j1 == j2;
    } else {
      assert i1 == j1 && i2 == j2;
    }
  }

  /** There is only one way to strip a string: the characterisation determines it. */
  lemma StripUnique(s: string, r1: string, r2: string)
    requires IsStripOf(s, r1) && IsStripOf(s, r2)
    ensures r1 == r2
  {
    var i1, j1 :| StrippedAt(s, i1, j1) && r1 == s[i1..j1];
    var i2, j2 :| StrippedAt(s, i2, j2) && r2 == s[i2..j2];
    StrippedAtUnique(s, i1, j1, i2, j2);
  }

  /** Whitespace padding on either side of a clean token is exactly what `strip` removes. */
  lemma StripPadded(left: string, token: string, right: string)
    requires AllSpace(left) && AllSpace(right)
    requires token == [] || (!IsSpace(token[0]) && !IsSpace(token[|token| - 1]))
    ensures Strip(left + token + right) == token
  {
    var s := left + token + right;
    assert token == s[|left|..|left| + |token|];
    assert s[..|left|] == left && s[|left| + |token|..] == right;
    assert token != [] ==> s[|left|] == token[0] && s[|left| + |token| - 1] == token[|token| - 1];
    assert StrippedAt(s, |left|, |left| + |token|);
    StripUnique(s, Strip(s), token);
  }

  /** Stripping leaves nothing exactly when the string is all whitespace. */
  lemma StripEmptyIffAllSpace(s: string)
    ensures Strip(s) == [] <==> AllSpace(s)
  {
    var r := Strip(s);
    var i, j :| StrippedAt(s, i, j) && r == s[i..j];
    if r == [] {
      forall k | 0 <= k < |s| ensures IsSpace(s[k]) {
        if k < i { assert s[..i][k] == s[k]; } else { assert s[j..][k - j] == s[k]; }
      }
    }
    if AllSpace(s) {
      assert s[..0] == [] && s[0..] == s && StrippedAt(s, 0, 0);
      StripUnique(s, r, s[0..0]);
    }
  }

  /** `s.split(sep)`: the pieces between consecutive separators, always at least one. */
  function Split(s: string, sep: char): (parts: seq<string>)
    ensures |parts| >= 1
    ensures forall k :: 0 <= k < |parts| ==> sep !in parts[k]
    decreases |s|
  {
    if s == [] then [""]
    else
      var rest := Split(s[1..], sep);
      if s[0] == sep then [""] + rest else [[s[0]] + rest[0]] + rest[1..]
  }

  /** `sep.join(parts)`. */
  function JoinWith(parts: seq<string>, sep: char): string
    requires |parts| >= 1
  {
    if |parts| == 1 then parts[0] else parts[0] + [sep] + JoinWith(parts[1..], sep)
  }

  /** Splitting loses nothing: joining the pieces back gives the original string. */
  lemma {:induction false} SplitJoin(s: string, sep: char)
    ensures JoinWith(Split(s, sep), sep) == s
    decreases |s|
  {
    if s != [] {
      var rest := Split(s[1..], sep);
      SplitJoin(s[1..], sep);
      if s[0] == sep {
        assert ([""] + rest)[1..] == rest;
      } else {
        var parts := [[s[0]] + rest[0]] + rest[1..];
        if |rest| == 1 {
          assert parts == [[s[0]] + rest[0]];
        } else {
          assert parts[1..] == rest[1..];
          assert JoinWith(rest, sep) == rest[0] + [sep] + JoinWith(rest[1..], sep);
        }
      }
    }
  }

  /** `os.path.join(a, b)` on POSIX: an absolute `b` replaces `a`; otherwise one
      slash is inserted unless `a` is empty or already ends with one. */
  function PathJoin(a: string, b: string): (r: string)
    ensures |b| <= |r| <= |a| + 1 + |b|
  {
    if b != [] && b[0] == '/' then b
    else if a == [] || a[|a| - 1] == '/' then a + b
    else a + "/" + b
  }

  /** The joined path ends with the name; a relative name is placed under the directory,
      an absolute one stands alone. */
  lemma PathJoinPlacesName(a: string, b: string)
    ensures |b| <= |PathJoin(a, b)| && PathJoin(a, b)[|PathJoin(a, b)| - |b|..] == b
    ensures b != [] && b[0] == '/' ==> PathJoin(a, b) == b
    ensures (b == [] || b[0] != '/') ==> a <= PathJoin(a, b)
  {
    var r := PathJoin(a, b);
    if b == [] || b[0] != '/' {
      if a == [] || a[|a| - 1] == '/' {
        assert r == a + b;
      } else {
        assert r == (a + "/") + b;
      }
    }
  }

  /** `s[:n]`: at most the first `n` characters. */
  function Prefix(s: string, n: nat): (r: string)
    ensures |r| == if |s| < n then |s| else n
    ensures r <= s
  {
    if |s| <= n then s else s[..n]
  }
}
