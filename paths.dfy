/**
 * File-system paths as the batch driver uses them: an absolute, normalised
 * path is its list of segments; `path.join`, `path.relative`, `path.extname`
 * and `path.basename` are modelled on that list with POSIX semantics.
 */
module Paths {
  import opened Text

  /** The segments of an absolute path, root first (the root itself is `[]`). */
  type Path = seq<string>

  /** A segment that a normalised path may hold. */
  predicate IsName(x: string) {
    x != "" && x != "." && x != ".." && '/' !in x
  }

  predicate IsNormal(p: seq<string>) {
    forall i :: 0 <= i < |p| ==> IsName(p[i])
  }

  function Last(p: Path): string {
    if p == [] then "" else p[|p| - 1]
  }

  // ---------------------------------------------------------------------------
  // join

  /** The number of leading characters of `s` up to the first `/`. */
  function SegmentLength(s: string): (n: nat)
    ensures n <= |s|
    ensures forall i :: 0 <= i < n ==> s[i] != '/'
    ensures n < |s| ==> s[n] == '/'
  {
    if s == [] || s[0] == '/' then 0 else 1 + SegmentLength(s[1..])
  }

  /** The non-empty pieces of `s` between slashes, in order. */
  function Split(s: string): (segs: seq<string>)
    decreases |s|
    ensures forall i :: 0 <= i < |segs| ==> segs[i] != "" && '/' !in segs[i]
  {
    if s == [] then []
    else if s[0] == '/' then Split(s[1..])
    else
      var n := SegmentLength(s);
      assert forall c :: c in s[..n] ==> c != '/';
      [s[..n]] + Split(s[n..])
  }

  /** `s` has its first segment ending at `n`. */
  lemma SegmentLengthIs(s: string, n: nat)
    requires n <= |s| && (forall i :: 0 <= i < n ==> s[i] != '/') && (n < |s| ==> s[n] == '/')
    ensures SegmentLength(s) == n
  {}

  /** Splitting at a `/` splits the segment list: `x/y` has the segments of `x`, then those of `y`. */
  lemma {:induction false} SplitAppend(x: string, y: string)
    decreases |x|
    ensures Split(x + "/" + y) == Split(x) + Split(y)
  {
    var s := x + "/" + y;
    if x == [] {
      assert s[1..] == y;
    } else if x[0] == '/' {
      assert s[1..] == x[1..] + "/" + y;
      SplitAppend(x[1..], y);
    } else {
      var n := FirstSegmentOfAppend(x, y);
      SplitAppend(x[n..], y);
    }
  }

  /** The first segment of `x/y` is that of `x` when `x` starts with one. */
  lemma FirstSegmentOfAppend(x: string, y: string) returns (n: nat)
    requires x != [] && x[0] != '/'
    ensures 0 < n <= |x|
    ensures Split(x) == [x[..n]] + Split(x[n..])
    ensures Split(x + "/" + y) == [x[..n]] + Split(x[n..] + "/" + y)
  {
    var s := x + "/" + y;
    n := SegmentLength(x);
    assert s[n] == '/' by {
      if n < |x| { assert s[n] == x[n]; }
    }
    SegmentLengthIs(s, n);
    assert s[..n] == x[..n];
    assert s[n..] == x[n..] + "/" + y;
  }

  /** A single name is one segment. */
  lemma SplitName(name: string)
    requires name != "" && '/' !in name
    ensures Split(name) == [name]
  {
    var n := SegmentLength(name);
    assert name[0] in name;
    assert n == |name|;
    assert name[..n] == name && name[n..] == [];
  }

  /** Apply one segment of a relative path: `.` and empty stay, `..` goes up (not above the root). */
  function Step(base: Path, x: string): Path {
    if x == "" || x == "." then base
    else if x == ".." then (if base == [] then [] else base[..|base| - 1])
    else base + [x]
  }

  /** `path.join(base, ...)` followed by normalisation, on an already split relative path. */
  function Resolve(base: Path, rel: seq<string>): Path
    decreases |rel|
  {
    if rel == [] then base else Resolve(Step(base, rel[0]), rel[1..])
  }

  /** `path.join(base, s)`: an absolute `s` is still taken relative to `base`, as `join` does. */
  function Join(base: Path, s: string): Path {
    Resolve(base, Split(s))
  }

  lemma {:induction false} ResolveAppend(base: Path, x: seq<string>, y: seq<string>)
    ensures Resolve(base, x + y) == Resolve(Resolve(base, x), y)
    decreases |x|
  {
    if x != [] {
      assert (x + y)[1..] == x[1..] + y;
      ResolveAppend(Step(base, x[0]), x[1..], y);
    } else {
      assert x + y == y;
    }
  }

  /** Normal segments are appended as they are. */
  lemma {:induction false} ResolveNormal(base: Path, y: seq<string>)
    requires IsNormal(y)
    ensures Resolve(base, y) == base + y
    decreases |y|
  {
    if y != [] {
      ResolveNormal(base + [y[0]], y[1..]);
      assert base + [y[0]] + y[1..] == base + y;
    }
  }

  function Ups(n: nat): (r: seq<string>)
    ensures |r| == n && forall i :: 0 <= i < n ==> r[i] == ".."
  {
    if n == 0 then [] else [".."] + Ups(n - 1)
  }

  /** `n` segments of `..` remove the last `n` segments. */
  lemma {:induction false} ResolveUps(base: Path, n: nat)
    requires n <= |base|
    ensures Resolve(base, Ups(n)) == base[..|base| - n]
    decreases n
  {
    if n > 0 {
      assert Ups(n)[1..] == Ups(n - 1);
      ResolveUps(base[..|base| - 1], n - 1);
      assert base[..|base| - 1][..|base| - 1 - (n - 1)] == base[..|base| - n];
    }
  }

  // ---------------------------------------------------------------------------
  // relative

  /** The length of the longest common prefix of `a` and `b`. */
  function CommonPrefix(a: Path, b: Path): (c: nat)
    ensures c <= |a| && c <= |b|
    ensures a[..c] == b[..c]
    ensures c < |a| && c < |b| ==> a[c] != b[c]
  {
    if a == [] || b == [] || a[0] != b[0] then 0
    else
      var c := 1 + CommonPrefix(a[1..], b[1..]);
      assert a[..c] == [a[0]] + a[1..][..c - 1];
      assert b[..c] == [b[0]] + b[1..][..c - 1];
      c
  }

  /** `path.relative(from, to)` on absolute normalised paths, as a list of segments. */
  function Relative(from: Path, to: Path): seq<string> {
    var c := CommonPrefix(from, to);
    Ups(|from| - c) + to[c..]
  }

  /** Joining `from` with `relative(from, to)` gets back to `to`. */
  lemma ResolveRelative(from: Path, to: Path)
    requires IsNormal(to)
    ensures Resolve(from, Relative(from, to)) == to
  {
    ResolveThroughPrefix(from, to, CommonPrefix(from, to));
  }

  /** Going up from `from` to a common prefix of length `c` and then down to `to`. */
  lemma ResolveThroughPrefix(from: Path, to: Path, c: nat)
    requires c <= |from| && c <= |to| && from[..c] == to[..c] && IsNormal(to)
    ensures Resolve(from, Ups(|from| - c) + to[c..]) == to
  {
    var ups, rest := Ups(|from| - c), to[c..];
    assert Resolve(from, ups) == to[..c] by {
      ResolveUps(from, |from| - c);
    }
    assert Resolve(to[..c], rest) == to by {
      assert IsNormal(rest);
      ResolveNormal(to[..c], rest);
      assert to[..c] + rest == to;
    }
    ResolveAppend(from, ups, rest);
  }

  // ---------------------------------------------------------------------------
  // extname and basename of a single name

  /** The index of the last `.` in `s`, or -1. */
  function LastDot(s: string): (k: int)
    ensures -1 <= k < |s|
    ensures k >= 0 ==> s[k] == '.'
    ensures forall i :: k < i < |s| ==> s[i] != '.'
  {
    if s == [] then -1
    else if s[|s| - 1] == '.' then |s| - 1
    else LastDot(s[..|s| - 1])
  }

  /**
   * `path.extname(name)` for a name without `/`: from the last `.` to the end,
   * or empty when there is no `.`, when it is the first character, or for `..`.
   */
  function Extname(name: string): (e: string)
    ensures e == "" || (e[0] == '.' && EndsWith(name, e) && |e| < |name| && '.' !in e[1..])
    ensures e != "" <==> name != ".." && exists i :: 0 < i < |name| && name[i] == '.'
  {
    var k := LastDot(name);
    if name == ".." || k <= 0 then "" else name[k..]
  }

  /** `path.basename(name, ext)` for a name without `/`: `ext` removed from the end if it is there. */
  function Basename(name: string, ext: string): string {
    if ext == "" || |ext| > |name| then name
    else if ext == name then ""
    else if EndsWith(name, ext) then name[..|name| - |ext|]
    else name
  }

  /** A name with an extension is its stem, never empty, followed by its extension. */
  lemma StemAndExtension(name: string)
    requires Extname(name) != ""
    ensures var e := Extname(name);
      Basename(name, e) != "" && name == Basename(name, e) + e
  {
    var e := Extname(name);
    assert name == name[..|name| - |e|] + e;
  }

  /** The extension of `stem + ".wav"` is `.wav`, so its stem is `stem` again. */
  lemma WavNameStem(stem: string)
    requires stem != ""
    ensures Extname(stem + ".wav") == ".wav"
    ensures Basename(stem + ".wav", Extname(stem + ".wav")) == stem
  {
    var n := stem + ".wav";
    assert n[|n| - 1] == 'v' && n[|n| - 4] == '.';
    assert n[..|n| - 1][..|n| - 2] == n[..|n| - 2];
    assert n[..|n| - 2][..|n| - 3] == n[..|n| - 3];
    assert LastDot(n) == LastDot(n[..|n| - 1]) == LastDot(n[..|n| - 2]) == LastDot(n[..|n| - 3]) == |stem|;
    assert n[|stem|..] == ".wav";
    assert n[..|n| - 4] == stem;
  }
}
