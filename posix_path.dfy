/**
 * Lexical POSIX path handling as done by Python's `posixpath` module:
 * `join`, `normpath` and `abspath`.  Nothing here looks at a file system;
 * in particular symbolic links are never resolved.
 */
module PosixPath {

  /** `s.startswith(prefix)` */
  predicate StartsWith(s: string, prefix: string) {
    |prefix| <= |s| && s[..|prefix|] == prefix
  }

  /** `s.endswith(suffix)` */
  predicate EndsWith(s: string, suffix: string) {
    |suffix| <= |s| && s[|s| - |suffix|..] == suffix
  }

  /** `posixpath.isabs`: a path is absolute when it starts with a slash. */
  predicate IsAbs(p: string) {
    |p| > 0 && p[0] == '/'
  }

  /** `posixpath.join(a, b)` for two arguments. */
  function Join(a: string, b: string): (r: string)
    ensures IsAbs(b) ==> r == b
    ensures !IsAbs(b) ==> StartsWith(r, a) && EndsWith(r, b)
  {
    if IsAbs(b) then b
    else if a == "" || a[|a| - 1] == '/' then a + b
    else a + "/" + b
  }

  // ---------------------------------------------------------------------
  // Segments: `s.split('/')` and `'/'.join(segs)`
  // ---------------------------------------------------------------------

  /** A segment is a piece of a path between two separators. */
  predicate NoSep(seg: string) {
    '/' !in seg
  }

  predicate AllNoSep(segs: seq<string>) {
    forall i :: 0 <= i < |segs| ==> NoSep(segs[i])
  }

  /** The number of separators in `s`. */
  function SepCount(s: string): nat
    decreases |s|
  {
    if s == "" then 0 else (if s[0] == '/' then 1 else 0) + SepCount(s[1..])
  }

  /** `s.split('/')`: at least one segment, none holding a separator. */
  function Split(s: string): (r: seq<string>)
    ensures |r| >= 1 && AllNoSep(r)
    decreases |s|
  {
    if s == "" then [""]
    else
      var rest := Split(s[1..]);
      if s[0] == '/' then [""] + rest
      else [[s[0]] + rest[0]] + rest[1..]
  }

  /** `split('/')` gives one segment more than there are separators. */
  lemma {:induction false} SplitCount(s: string)
    ensures |Split(s)| == SepCount(s) + 1
    decreases |s|
  {
    if s != "" {
      SplitCount(s[1..]);
    }
  }

  /** `'/'.join(segs)` */
  function JoinSegments(segs: seq<string>): string {
    if |segs| == 0 then ""
    else if |segs| == 1 then segs[0]
    else segs[0] + "/" + JoinSegments(segs[1..])
  }

  /** Joining the pieces of a split gives the string back. */
  lemma {:induction false} JoinSplit(s: string)
    ensures JoinSegments(Split(s)) == s
    decreases |s|
  {
    if s != "" {
      JoinSplit(s[1..]);
      var rest := Split(s[1..]);
      if s[0] == '/' {
        assert s == "" + "/" + s[1..];
      } else if |rest| == 1 {
        assert s == [s[0]] + s[1..];
      } else {
        assert JoinSegments(rest) == rest[0] + "/" + JoinSegments(rest[1..]);
        assert s == [s[0]] + s[1..];
      }
    }
  }

  /** A leading separator splits off an empty segment. */
  lemma {:induction false} SplitSep(t: string)
    ensures Split("/" + t) == [""] + Split(t)
  {
    assert ("/" + t)[0] == '/' && ("/" + t)[1..] == t;
  }

  /** Any other leading character joins the first segment. */
  lemma {:induction false} SplitChar(c: char, t: string)
    requires c != '/'
    ensures Split([c] + t) == [[c] + Split(t)[0]] + Split(t)[1..]
  {
    assert ([c] + t)[0] == c && ([c] + t)[1..] == t;
  }

  /** Splitting across a separator survives a separator put in front. */
  lemma {:induction false} SplitAroundSep(u: string, b: string)
    requires Split(u + "/" + b) == Split(u) + Split(b)
    ensures Split(("/" + u) + "/" + b) == Split("/" + u) + Split(b)
  {
    var t := u + "/" + b;
    assert ("/" + u) + "/" + b == "/" + t;
    SplitSep(t);
    SplitSep(u);
    assert ([""] + Split(u)) + Split(b) == [""] + (Split(u) + Split(b));
  }

  /** Prepending a character to the first segment commutes with appending more segments. */
  lemma {:induction false} PrependToFirst(c: char, xs: seq<string>, ys: seq<string>)
    requires |xs| >= 1
    ensures [[c] + (xs + ys)[0]] + (xs + ys)[1..] == ([[c] + xs[0]] + xs[1..]) + ys
  {
    assert (xs + ys)[0] == xs[0];
    assert (xs + ys)[1..] == xs[1..] + ys;
  }

  /** Splitting across a separator survives another character put in front. */
  lemma {:induction false} SplitAroundChar(c: char, u: string, b: string)
    requires c != '/'
    requires Split(u + "/" + b) == Split(u) + Split(b)
    ensures Split(([c] + u) + "/" + b) == Split([c] + u) + Split(b)
  {
    var t := u + "/" + b;
    assert ([c] + u) + "/" + b == [c] + t;
    SplitChar(c, t);
    SplitChar(c, u);
    PrependToFirst(c, Split(u), Split(b));
  }

  /** A split across a separator splits each side. */
  lemma {:induction false} SplitAround(a: string, b: string)
    ensures Split(a + "/" + b) == Split(a) + Split(b)
    decreases |a|
  {
    if a == "" {
      assert a + "/" + b == "/" + b;
      SplitSep(b);
    } else {
      SplitAround(a[1..], b);
      if a[0] == '/' {
        SplitAroundSep(a[1..], b);
        assert a == "/" + a[1..];
      } else {
        SplitAroundChar(a[0], a[1..], b);
        assert a == [a[0]] + a[1..];
      }
    }
  }

  /** A string without separators is a single segment. */
  lemma {:induction false} SplitNoSep(a: string)
    requires NoSep(a)
    ensures Split(a) == [a]
    decreases |a|
  {
    if a != "" {
      assert NoSep(a[1..]) by {
        forall i | 0 <= i < |a[1..]| ensures a[1..][i] != '/' { assert a[1..][i] == a[i + 1]; }
      }
      SplitNoSep(a[1..]);
      assert a == [a[0]] + a[1..];
    }
  }

  /** Splitting what was joined from separator-free segments gives them back. */
  lemma {:induction false} SplitJoin(segs: seq<string>)
    requires |segs| >= 1 && AllNoSep(segs)
    ensures Split(JoinSegments(segs)) == segs
    decreases |segs|
  {
    if |segs| == 1 {
      SplitNoSep(segs[0]);
    } else {
      SplitAround(segs[0], JoinSegments(segs[1..]));
      SplitNoSep(segs[0]);
      SplitJoin(segs[1..]);
      assert segs == [segs[0]] + segs[1..];
    }
  }

  // ---------------------------------------------------------------------
  // normpath
  // ---------------------------------------------------------------------

  /** One turn of `normpath`'s loop over the components. */
  function Push(rooted: bool, acc: seq<string>, c: string): seq<string> {
    if c == "" || c == "." then acc
    else if c != ".." || (!rooted && acc == []) || (acc != [] && acc[|acc| - 1] == "..") then acc + [c]
    else if acc != [] then acc[..|acc| - 1]
    else acc
  }

  /** `normpath`'s loop: fold the components into a stack, left to right. */
  function Fold(rooted: bool, acc: seq<string>, comps: seq<string>): seq<string>
    decreases |comps|
  {
    if comps == [] then acc else Fold(rooted, Push(rooted, acc, comps[0]), comps[1..])
  }

  /**
   * The shape of `normpath`'s component list: no empty, `.` or separator-holding
   * component; no `..` at all under a root; otherwise every `..` before every name.
   */
  ghost predicate Canonical(rooted: bool, comps: seq<string>) {
    (forall i :: 0 <= i < |comps| ==> comps[i] != "" && comps[i] != "." && NoSep(comps[i])) &&
    (rooted ==> forall i :: 0 <= i < |comps| ==> comps[i] != "..") &&
    (forall i, j :: 0 <= i < j < |comps| && comps[j] == ".." ==> comps[i] == "..")
  }

  /** How many leading slashes `normpath` keeps: POSIX keeps exactly two, and folds three or more into one. */
  function RootSlashes(p: string): (k: nat)
    ensures k <= 2
    ensures k > 0 <==> IsAbs(p)
  {
    if !StartsWith(p, "/") then 0
    else if StartsWith(p, "//") && !StartsWith(p, "///") then 2
    else 1
  }

  function Slashes(k: nat): (r: string)
    ensures |r| == k && forall i :: 0 <= i < k ==> r[i] == '/'
  {
    if k == 0 then "" else "/" + Slashes(k - 1)
  }

  /** The path `normpath` writes out for a root of `k` slashes and the components `comps`. */
  function Render(k: nat, comps: seq<string>): string {
    var r := Slashes(k) + JoinSegments(comps);
    if r == "" then "." else r
  }

  /** `posixpath.normpath(p)` */
  function NormPath(p: string): string {
    if p == "" then "."
    else
      var k := RootSlashes(p);
      Render(k, Fold(k > 0, [], Split(p)))
  }

  /** `posixpath.abspath(p)` with `cwd` standing for `os.getcwd()`. */
  function AbsPath(cwd: string, p: string): string {
    NormPath(if IsAbs(p) then p else Join(cwd, p))
  }

  // ---------------------------------------------------------------------
  // What normpath guarantees
  // ---------------------------------------------------------------------

  /** One turn of the loop keeps the stack canonical. */
  lemma PushCanonical(rooted: bool, acc: seq<string>, c: string)
    requires Canonical(rooted, acc) && NoSep(c)
    ensures Canonical(rooted, Push(rooted, acc, c))
  {
    if c == "" || c == "." {
    } else if c != ".." {
    } else if !rooted && acc == [] {
    } else if acc != [] && acc[|acc| - 1] == ".." {
      assert !rooted;
    } else if acc != [] {
      assert Push(rooted, acc, c) == acc[..|acc| - 1];
    }
  }

  /** The loop leaves a canonical stack. */
  lemma {:induction false} FoldCanonical(rooted: bool, acc: seq<string>, comps: seq<string>)
    requires Canonical(rooted, acc) && AllNoSep(comps)
    ensures Canonical(rooted, Fold(rooted, acc, comps))
    decreases |comps|
  {
    if comps != [] {
      PushCanonical(rooted, acc, comps[0]);
      FoldCanonical(rooted, Push(rooted, acc, comps[0]), comps[1..]);
    }
  }

  /** On components that are already canonical the loop changes nothing. */
  lemma {:induction false} FoldCanonicalUnchanged(rooted: bool, acc: seq<string>, comps: seq<string>)
    requires Canonical(rooted, acc + comps)
    ensures Fold(rooted, acc, comps) == acc + comps
    decreases |comps|
  {
    if comps != [] {
      var c := comps[0];
      assert c == (acc + comps)[|acc|];
      if c == ".." && acc != [] {
        assert acc[|acc| - 1] == (acc + comps)[|acc| - 1];
      }
      assert Push(rooted, acc, c) == acc + [c];
      assert acc + comps == (acc + [c]) + comps[1..];
      FoldCanonicalUnchanged(rooted, acc + [c], comps[1..]);
    }
  }

  /** The loop over a concatenation is the loop over each part in turn. */
  lemma {:induction false} FoldAppend(rooted: bool, acc: seq<string>, xs: seq<string>, ys: seq<string>)
    ensures Fold(rooted, acc, xs + ys) == Fold(rooted, Fold(rooted, acc, xs), ys)
    decreases |xs|
  {
    if xs == [] {
      assert xs + ys == ys;
    } else {
      assert (xs + ys)[0] == xs[0] && (xs + ys)[1..] == xs[1..] + ys;
      FoldAppend(rooted, Push(rooted, acc, xs[0]), xs[1..], ys);
    }
  }

  function Empties(k: nat): seq<string> {
    if k == 0 then [] else [""] + Empties(k - 1)
  }

  /** Empty components are skipped. */
  lemma {:induction false} FoldEmpties(rooted: bool, acc: seq<string>, k: nat)
    ensures Fold(rooted, acc, Empties(k)) == acc
    decreases k
  {
    if k > 0 {
      assert Empties(k)[0] == "" && Empties(k)[1..] == Empties(k - 1);
      FoldEmpties(rooted, acc, k - 1);
    }
  }

  /** Each leading slash splits off one empty component. */
  lemma {:induction false} SplitSlashes(k: nat, s: string)
    ensures Split(Slashes(k) + s) == Empties(k) + Split(s)
    decreases k
  {
    if k == 0 {
      assert Slashes(k) + s == s;
    } else {
      var t := Slashes(k - 1) + s;
      calc {
        Split(Slashes(k) + s);
        { assert Slashes(k) + s == "/" + t; }
        Split("/" + t);
        { SplitSep(t); }
        [""] + Split(t);
        { SplitSlashes(k - 1, s); }
        [""] + (Empties(k - 1) + Split(s));
        ([""] + Empties(k - 1)) + Split(s);
      }
    }
  }

  /** A canonical, non-empty component list is written out starting with a name, not a slash. */
  lemma JoinSegmentsHead(comps: seq<string>)
    requires comps != [] && comps[0] != "" && NoSep(comps[0])
    ensures JoinSegments(comps) != "" && JoinSegments(comps)[0] == comps[0][0] != '/'
  {
  }

  /** Writing out a canonical list keeps the number of root slashes that were asked for. */
  lemma RenderRootSlashes(k: nat, comps: seq<string>)
    requires k <= 2 && Canonical(k > 0, comps) && (k == 0 ==> comps != [])
    ensures RootSlashes(Slashes(k) + JoinSegments(comps)) == k
  {
    var r := Slashes(k) + JoinSegments(comps);
    if comps != [] {
      JoinSegmentsHead(comps);
      assert r[k] != '/';
    }
    if k == 1 {
      assert StartsWith(r, "/");
      if |r| >= 2 { assert r[..2] != "//"; }
    } else if k == 2 {
      assert r[..2] == "//";
      if |r| >= 3 { assert r[..3] != "///"; }
    } else {
      assert r[0] != '/';
    }
  }

  /** What `normpath` returns: its root slashes and a canonical component list written out. */
  lemma NormPathShape(p: string)
    requires p != ""
    ensures Canonical(RootSlashes(p) > 0, Fold(RootSlashes(p) > 0, [], Split(p)))
  {
    FoldCanonical(RootSlashes(p) > 0, [], Split(p));
  }

  /** `normpath` is idempotent: a normalised path normalises to itself. */
  lemma NormPathIdempotent(p: string)
    ensures NormPath(NormPath(p)) == NormPath(p)
  {
    var q := NormPath(p);
    if p == "" || q == "." {
      SplitNoSep(".");
      assert NormPath(".") == Render(0, Fold(false, [], ["."]));
    } else {
      var k := RootSlashes(p);
      var comps := Fold(k > 0, [], Split(p));
      NormPathShape(p);
      assert q == Slashes(k) + JoinSegments(comps);
      assert k == 0 ==> comps != [];
      RenderRootSlashes(k, comps);
      SplitSlashes(k, JoinSegments(comps));
      FoldAppend(k > 0, [], Empties(k), Split(JoinSegments(comps)));
      FoldEmpties(k > 0, [], k);
      if comps == [] {
        assert Split(JoinSegments(comps)) == [""];
      } else {
        SplitJoin(comps);
        FoldCanonicalUnchanged(k > 0, [], comps);
        assert [] + comps == comps;
      }
    }
  }

  // ---------------------------------------------------------------------
  // What abspath guarantees
  // ---------------------------------------------------------------------

  /** Under an absolute working directory `abspath` always gives an absolute path. */
  lemma AbsPathAbsolute(cwd: string, p: string)
    requires IsAbs(cwd)
    ensures IsAbs(AbsPath(cwd, p))
  {
    var x := if IsAbs(p) then p else Join(cwd, p);
    assert x[0] == '/';
    var k := RootSlashes(x);
    assert Slashes(k) != "" && Slashes(k)[0] == '/';
    assert (Slashes(k) + JoinSegments(Fold(true, [], Split(x))))[0] == '/';
  }

  /** `abspath` is idempotent under an absolute working directory. */
  lemma AbsPathIdempotent(cwd: string, p: string)
    requires IsAbs(cwd)
    ensures AbsPath(cwd, AbsPath(cwd, p)) == AbsPath(cwd, p)
  {
    AbsPathAbsolute(cwd, p);
    NormPathIdempotent(if IsAbs(p) then p else Join(cwd, p));
  }

  /** An absolute path replaces the directory it is joined to. */
  lemma AbsoluteReplacesBase(cwd: string, wd: string, p: string)
    requires IsAbs(p)
    ensures AbsPath(cwd, Join(wd, p)) == NormPath(p)
  {
  }

  /** The working directory without a trailing separator, so that joining adds one. */
  function Base(cwd: string): (b: string)
    requires cwd != ""
    ensures b + "/" == cwd || b == cwd
  {
    if cwd[|cwd| - 1] == '/' then cwd[..|cwd| - 1] else cwd
  }

  lemma JoinRelative(cwd: string, q: string)
    requires cwd != "" && !IsAbs(q)
    ensures Join(cwd, q) == Base(cwd) + "/" + q
  {
    if cwd[|cwd| - 1] == '/' {
      assert cwd == Base(cwd) + "/";
    }
  }

  /** The root slashes of `base/q` do not depend on a relative `q`. */
  lemma RootSlashesRelative(base: string, q1: string, q2: string)
    requires !IsAbs(q1) && !IsAbs(q2)
    ensures RootSlashes(base + "/" + q1) == RootSlashes(base + "/" + q2)
  {
    var s1, s2 := base + "/" + q1, base + "/" + q2;
    var n := |base| + 1;
    assert s1[..n] == s2[..n];
    assert |s1| > n ==> s1[n] != '/';
    assert |s2| > n ==> s2[n] != '/';
    if n >= 3 {
      assert s1[..3] == s2[..3];
      assert s1[..2] == s2[..2];
    } else if n == 2 {
      assert s1[..2] == s2[..2];
    }
  }

  /** Relative paths below an absolute working directory: the directory's components, then the path's. */
  lemma AbsPathRelative(cwd: string, q: string)
    requires IsAbs(cwd) && !IsAbs(q)
    ensures AbsPath(cwd, q) ==
      Render(RootSlashes(Base(cwd) + "/" + q), Fold(true, Fold(true, [], Split(Base(cwd))), Split(q)))
  {
    JoinRelative(cwd, q);
    SplitAround(Base(cwd), q);
    FoldAppend(true, [], Split(Base(cwd)), Split(q));
  }

  /** A leading `./` makes no difference. */
  lemma DotSegmentVanishes(cwd: string, p: string)
    requires IsAbs(cwd) && !IsAbs(p)
    ensures AbsPath(cwd, "./" + p) == AbsPath(cwd, p)
  {
    var q := "./" + p;
    assert q == "." + "/" + p;
    AbsPathRelative(cwd, q);
    AbsPathRelative(cwd, p);
    RootSlashesRelative(Base(cwd), q, p);
    SplitAround(".", p);
    SplitNoSep(".");
    FoldAppend(true, Fold(true, [], Split(Base(cwd))), ["."], Split(p));
  }

  /** Splitting `../p` */
  lemma {:induction false} SplitDotDot(p: string)
    ensures Split(".." + "/" + p) == [".."] + Split(p)
  {
    SplitNoSep("..");
    SplitAround("..", p);
  }

  /** Splitting `name/../p` */
  lemma {:induction false} SplitParent(name: string, p: string)
    requires NoSep(name)
    ensures Split(name + "/../" + p) == [name, ".."] + Split(p)
  {
    var tail := ".." + "/" + p;
    assert name + "/" + tail == name + "/../" + p;
    SplitDotDot(p);
    SplitNoSep(name);
    SplitAround(name, tail);
  }

  /** Under a root, a name followed by `..` leaves the stack as it was. */
  lemma FoldNameParent(acc: seq<string>, name: string, rest: seq<string>)
    requires name != "" && name != "." && name != ".."
    ensures Fold(true, acc, [name, ".."] + rest) == Fold(true, acc, rest)
  {
    FoldAppend(true, acc, [name, ".."], rest);
    assert Push(true, acc, name) == acc + [name];
    assert Push(true, acc + [name], "..") == acc;
    assert [name, ".."][1..] == [".."];
  }

  /** `name/..` folds away. */
  lemma ParentFolds(cwd: string, name: string, p: string)
    requires IsAbs(cwd) && !IsAbs(p)
    requires NoSep(name) && name != "" && name != "." && name != ".."
    ensures AbsPath(cwd, name + "/../" + p) == AbsPath(cwd, p)
  {
    var q := name + "/../" + p;
    assert q[0] == name[0];
    AbsPathRelative(cwd, q);
    AbsPathRelative(cwd, p);
    RootSlashesRelative(Base(cwd), q, p);
    SplitParent(name, p);
    FoldNameParent(Fold(true, [], Split(Base(cwd))), name, Split(p));
  }

  // ---------------------------------------------------------------------
  // Concrete shapes: a working directory one level below the root
  // ---------------------------------------------------------------------

  /** A single ordinary path component. */
  predicate IsName(n: string) {
    n != "" && n != "." && n != ".." && NoSep(n)
  }

  /** Splitting `a/b` */
  lemma SplitTwo(a: string, b: string)
    requires NoSep(a) && NoSep(b)
    ensures Split(a + "/" + b) == [a, b]
  {
    SplitAround(a, b);
    SplitNoSep(a);
    SplitNoSep(b);
  }

  /** Splitting `a/b/c` */
  lemma SplitThree(a: string, b: string, c: string)
    requires NoSep(a) && NoSep(b) && NoSep(c)
    ensures Split(a + "/" + b + "/" + c) == [a, b, c]
  {
    assert a + "/" + b + "/" + c == a + "/" + (b + "/" + c);
    SplitAround(a, b + "/" + c);
    SplitNoSep(a);
    SplitTwo(b, c);
  }

  /** `/d` has no trailing separator and splits into a root and `d`. */
  lemma BaseName(d: string)
    requires IsName(d)
    ensures Base("/" + d) == "/" + d && Split("/" + d) == ["", d]
  {
    var cwd := "/" + d;
    assert cwd[|cwd| - 1] == d[|d| - 1];
    SplitSep(d);
    SplitNoSep(d);
  }

  /** One unfolding of the loop. */
  lemma FoldCons(rooted: bool, acc: seq<string>, c: string, rest: seq<string>)
    ensures Fold(rooted, acc, [c] + rest) == Fold(rooted, Push(rooted, acc, c), rest)
  {
    assert ([c] + rest)[0] == c && ([c] + rest)[1..] == rest;
  }

  /** `/d` folds to the single component `d`. */
  lemma FoldRootName(d: string)
    requires IsName(d)
    ensures Fold(true, [], ["", d]) == [d]
  {
    FoldCons(true, [], "", [d]);
    FoldCons(true, [], d, []);
    assert ["", d] == [""] + [d] && [d] == [d] + [];
  }

  /** `abspath` of a relative path under the working directory `/d`. */
  lemma AbsPathOneLevel(d: string, q: string)
    requires IsName(d) && !IsAbs(q)
    ensures AbsPath("/" + d, q) == Render(RootSlashes("/" + d + "/" + q), Fold(true, [d], Split(q)))
  {
    BaseName(d);
    AbsPathRelative("/" + d, q);
    FoldRootName(d);
  }

  /** `/d/...` keeps one root slash. */
  lemma RootOne(d: string, q: string)
    requires IsName(d)
    ensures RootSlashes("/" + d + "/" + q) == 1
  {
    var w := "/" + d + "/" + q;
    assert w[0] == '/' && w[1] == d[0] && d[0] != '/';
    assert w[..2] != "//";
  }

  /** Under `d`, the components `.., s, f` fold to `s, f`. */
  lemma FoldSibling(d: string, s: string, f: string)
    requires IsName(d) && IsName(s) && IsName(f)
    ensures Fold(true, [d], ["..", s, f]) == [s, f]
  {
    FoldCons(true, [d], "..", [s, f]);
    assert Push(true, [d], "..") == [];
    FoldCons(true, [], s, [f]);
    FoldCons(true, [s], f, []);
    assert ["..", s, f] == [".."] + [s, f];
    assert [s, f] == [s] + [f];
    assert [f] == [f] + [];
  }

  /** Writing out two components under one root slash. */
  lemma RenderTwo(s: string, f: string)
    ensures Render(1, [s, f]) == "/" + s + "/" + f
  {
    assert JoinSegments([s, f]) == s + "/" + JoinSegments([f]);
  }

  /** The working directory `/d` itself. */
  lemma DotOneLevel(d: string)
    requires IsName(d)
    ensures AbsPath("/" + d, ".") == "/" + d
  {
    AbsPathOneLevel(d, ".");
    RootOne(d, ".");
    SplitNoSep(".");
    FoldCons(true, [d], ".", []);
    assert ["."] == ["."] + [];
    assert JoinSegments([d]) == d;
  }

  /** `./../<d+t>/f` under `/d` resolves to the sibling directory `/<d+t>`. */
  lemma SiblingPath(d: string, t: string, f: string)
    requires IsName(d) && t != "" && NoSep(t) && IsName(f)
    ensures AbsPath("/" + d, Join(".", "../" + (d + t) + "/" + f)) == "/" + (d + t) + "/" + f
  {
    var s := d + t;
    assert NoSep(s);
    assert |s| > |d| >= 1;
    if |d| == 1 {
      assert d == [d[0]] && d[0] != '.';
    }
    assert s[0] == d[0] && (|s| >= 3 || s[0] != '.');
    var fp := "../" + s + "/" + f;
    assert fp == ".." + "/" + s + "/" + f;
    assert fp[0] == '.';
    assert Join(".", fp) == "./" + fp;
    DotSegmentVanishes("/" + d, fp);
    AbsPathOneLevel(d, fp);
    RootOne(d, fp);
    SplitThree("..", s, f);
    FoldSibling(d, s, f);
    RenderTwo(s, f);
  }

  // ---------------------------------------------------------------------
  // Paths that never climb
  // ---------------------------------------------------------------------

  predicate NoParent(comps: seq<string>) {
    forall i :: 0 <= i < |comps| ==> comps[i] != ".."
  }

  /** Without `..`, the loop only ever pushes onto what is already there. */
  lemma {:induction false} FoldNoParent(acc: seq<string>, xs: seq<string>)
    requires NoParent(xs)
    ensures Fold(true, acc, xs) == acc + Fold(true, [], xs)
    decreases |xs|
  {
    if xs != [] {
      var c := xs[0];
      assert NoParent(xs[1..]);
      FoldNoParent(Push(true, acc, c), xs[1..]);
      FoldNoParent(Push(true, [], c), xs[1..]);
      assert Push(true, acc, c) == acc + Push(true, [], c);
    }
  }

  /** Written-out component lists extend one another as the lists do. */
  lemma {:induction false} JoinSegmentsPrefix(xs: seq<string>, ys: seq<string>)
    ensures StartsWith(JoinSegments(xs + ys), JoinSegments(xs))
    ensures xs != [] && ys != [] ==> JoinSegments(xs + ys) == JoinSegments(xs) + "/" + JoinSegments(ys)
    decreases |xs|
  {
    if xs == [] {
      assert xs + ys == ys;
    } else if |xs| == 1 {
      if ys != [] {
        assert (xs + ys)[0] == xs[0] && (xs + ys)[1..] == ys;
      } else {
        assert xs + ys == xs;
      }
    } else {
      JoinSegmentsPrefix(xs[1..], ys);
      assert (xs + ys)[0] == xs[0] && (xs + ys)[1..] == xs[1..] + ys;
    }
  }

  /** Under a root, rendering a longer component list extends the rendering of a shorter one. */
  lemma RenderExtends(k: nat, xs: seq<string>, ys: seq<string>)
    requires k > 0
    ensures StartsWith(Render(k, xs + ys), Render(k, xs))
  {
    JoinSegmentsPrefix(xs, ys);
    assert Slashes(k) != "";
    assert Render(k, xs) == Slashes(k) + JoinSegments(xs);
    assert Render(k, xs + ys) == Slashes(k) + JoinSegments(xs + ys);
  }

  /** The working directory itself, written `.`, is the rendered stack of the working directory. */
  lemma AbsPathDot(cwd: string)
    requires IsAbs(cwd)
    ensures AbsPath(cwd, ".") ==
      Render(RootSlashes(Base(cwd) + "/" + "."), Fold(true, [], Split(Base(cwd))))
  {
    AbsPathRelative(cwd, ".");
    SplitNoSep(".");
    FoldCons(true, Fold(true, [], Split(Base(cwd))), ".", []);
    assert ["."] == ["."] + [];
  }

  /** A relative path without `..` pushes its components onto the working directory's. */
  lemma AbsPathNoParent(cwd: string, fp: string)
    requires IsAbs(cwd) && !IsAbs(fp) && NoParent(Split(fp))
    ensures AbsPath(cwd, fp) ==
      Render(RootSlashes(Base(cwd) + "/" + "."), Fold(true, [], Split(Base(cwd))) + Fold(true, [], Split(fp)))
  {
    AbsPathRelative(cwd, fp);
    RootSlashesRelative(Base(cwd), ".", fp);
    FoldNoParent(Fold(true, [], Split(Base(cwd))), Split(fp));
  }

  /** A relative path with no `..` component resolves to a path that starts with the working directory. */
  lemma NoParentStaysBelow(cwd: string, fp: string)
    requires IsAbs(cwd) && !IsAbs(fp) && NoParent(Split(fp))
    ensures StartsWith(AbsPath(cwd, Join(".", fp)), AbsPath(cwd, "."))
  {
    assert Join(".", fp) == "./" + fp;
    DotSegmentVanishes(cwd, fp);
    AbsPathDot(cwd);
    AbsPathNoParent(cwd, fp);
    var base := Base(cwd);
    assert (base + "/" + ".")[0] == '/';
    RenderExtends(RootSlashes(base + "/" + "."), Fold(true, [], Split(base)), Fold(true, [], Split(fp)));
  }
}
