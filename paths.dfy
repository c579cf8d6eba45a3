/**
 * POSIX `path.resolve` of Node's path module, as the build and the
 * request-time module call it: the arguments from the last absolute one on
 * are joined with `/`, split into segments, normalised (empty and `.`
 * segments vanish, `..` drops the last kept segment and never climbs above
 * the root) and joined again under a leading `/`.
 */
module Paths {

  /** `s.split('/')`. */
  function Split(s: string): (r: seq<string>)
    decreases |s|
    ensures |r| >= 1
  {
    if |s| == 0 then [""]
    else
      var rest := Split(s[1..]);
      if s[0] == '/' then [""] + rest else [[s[0]] + rest[0]] + rest[1..]
  }

  /** No segment of a split contains `/`. */
  lemma {:induction false} SplitHasNoSlash(s: string)
    ensures forall i | 0 <= i < |Split(s)| :: '/' !in Split(s)[i]
    decreases |s|
  {
    if |s| > 0 {
      SplitHasNoSlash(s[1..]);
      var rest := Split(s[1..]);
      if s[0] != '/' {
        assert [s[0]] + rest[0] == Split(s)[0];
        assert forall i | 1 <= i < |Split(s)| :: Split(s)[i] == rest[i];
      }
    }
  }

  /** `segs.join('/')`. */
  function Unsplit(segs: seq<string>): string
    requires |segs| >= 1
    decreases |segs|
  {
    if |segs| == 1 then segs[0] else segs[0] + "/" + Unsplit(segs[1..])
  }

  /** A segment that normalisation keeps as it is. */
  predicate Ordinary(seg: string) {
    seg != "" && seg != "." && seg != ".."
  }

  /** Every segment is ordinary and free of `/`: the shape of a normalised path's segments. */
  predicate Plain(segs: seq<string>) {
    forall i | 0 <= i < |segs| :: Ordinary(segs[i]) && '/' !in segs[i]
  }

  /**
   * Normalisation of an absolute path's segments, appended to the segments
   * kept so far.
   */
  function Fold(kept: seq<string>, segs: seq<string>): (r: seq<string>)
    decreases |segs|
  {
    if |segs| == 0 then kept
    else if segs[0] == "" || segs[0] == "." then Fold(kept, segs[1..])
    else if segs[0] == ".." then Fold(if |kept| == 0 then kept else kept[..|kept| - 1], segs[1..])
    else Fold(kept + [segs[0]], segs[1..])
  }

  /** Normalising slash-free segments onto plain ones gives plain segments. */
  lemma {:induction false} FoldKeepsPlain(kept: seq<string>, segs: seq<string>)
    requires Plain(kept) && forall i | 0 <= i < |segs| :: '/' !in segs[i]
    ensures Plain(Fold(kept, segs))
    decreases |segs|
  {
    if |segs| > 0 {
      var k := if segs[0] == "" || segs[0] == "." then kept
               else if segs[0] == ".." then (if |kept| == 0 then kept else kept[..|kept| - 1])
               else kept + [segs[0]];
      assert forall i | 0 <= i < |segs[1..]| :: segs[1..][i] == segs[i + 1];
      FoldKeepsPlain(k, segs[1..]);
    }
  }

  /**
   * The path `resolve` normalises: the arguments from the last absolute one
   * on, joined with `/`. Every call modelled here starts from an absolute
   * directory, so the current working directory is never consulted.
   */
  function Joined(args: seq<string>): string
    decreases |args|
  {
    if |args| == 0 then ""
    else
      var last := args[|args| - 1];
      if |last| > 0 && last[0] == '/' then last
      else Joined(args[..|args| - 1]) + "/" + last
  }

  /** An absolute path from normalised segments; no segments is the root. */
  function Render(segs: seq<string>): string {
    if |segs| == 0 then "/" else "/" + Unsplit(segs)
  }

  /** `path.resolve(...args)`. */
  function Resolve(args: seq<string>): string {
    Render(Fold([], Split(Joined(args))))
  }

  /** `dir + "/" + name`: what `path.resolve(dir, name)` gives when both are already normal. */
  function Join(dir: string, name: string): string {
    dir + "/" + name
  }

  /** An absolute path with no empty, `.` or `..` segment and no trailing `/` (so not the root itself). */
  predicate PlainAbsolute(p: string) {
    |p| >= 1 && p[0] == '/' && Plain(Split(p[1..]))
  }

  /** A route path that `path.resolve` keeps as written: the root, or a plain absolute path. */
  predicate Canonical(p: string) {
    p == "/" || PlainAbsolute(p)
  }

  // ---------------------------------------------------------------------
  // Splitting and joining

  lemma {:induction false} SplitNoSlash(s: string)
    requires '/' !in s
    ensures Split(s) == [s]
    decreases |s|
  {
    if |s| > 0 {
      SplitNoSlash(s[1..]);
      assert s == [s[0]] + s[1..];
    }
  }

  /** The first segment is empty exactly when the string is empty or starts with `/`. */
  lemma SplitHead(s: string)
    ensures Split(s)[0] == "" <==> |s| == 0 || s[0] == '/'
  {
  }

  lemma {:induction false} SplitAppend(a: string, b: string)
    ensures Split(a + "/" + b) == Split(a) + Split(b)
    decreases |a|
  {
    if |a| == 0 {
      assert a + "/" + b == "/" + b;
      assert ("/" + b)[1..] == b;
    } else {
      assert (a + "/" + b)[1..] == a[1..] + "/" + b;
      SplitAppend(a[1..], b);
    }
  }

  lemma {:induction false} SplitRoundTrip(s: string)
    ensures Unsplit(Split(s)) == s
    decreases |s|
  {
    if |s| > 0 {
      var rest := Split(s[1..]);
      SplitRoundTrip(s[1..]);
      if s[0] == '/' {
        assert Split(s)[1..] == rest;
      } else {
        assert Split(s)[1..] == rest[1..];
        if |rest| > 1 {
          assert Unsplit(rest) == rest[0] + "/" + Unsplit(rest[1..]);
        }
      }
    }
  }

  lemma {:induction false} UnsplitRoundTrip(segs: seq<string>)
    requires |segs| >= 1 && forall i | 0 <= i < |segs| :: '/' !in segs[i]
    ensures Split(Unsplit(segs)) == segs
    decreases |segs|
  {
    SplitNoSlash(segs[0]);
    if |segs| > 1 {
      UnsplitRoundTrip(segs[1..]);
      SplitAppend(segs[0], Unsplit(segs[1..]));
    }
  }

  /** The last segment of a join. */
  lemma {:induction false} UnsplitSnoc(segs: seq<string>, s: string)
    ensures |segs| == 0 ==> Unsplit(segs + [s]) == s
    ensures |segs| > 0 ==> Unsplit(segs + [s]) == Unsplit(segs) + "/" + s
    decreases |segs|
  {
    if |segs| > 1 {
      assert (segs + [s])[1..] == segs[1..] + [s];
      UnsplitSnoc(segs[1..], s);
    } else if |segs| == 1 {
      assert (segs + [s])[1..] == [s];
    }
  }

  // ---------------------------------------------------------------------
  // Normalisation

  lemma {:induction false} FoldAppend(kept: seq<string>, x: seq<string>, y: seq<string>)
    ensures Fold(kept, x + y) == Fold(Fold(kept, x), y)
    decreases |x|
  {
    if |x| > 0 {
      assert (x + y)[0] == x[0] && (x + y)[1..] == x[1..] + y;
      var k := if x[0] == "" || x[0] == "." then kept
               else if x[0] == ".." then (if |kept| == 0 then kept else kept[..|kept| - 1])
               else kept + [x[0]];
      FoldAppend(k, x[1..], y);
    } else {
      assert x + y == y;
    }
  }

  /** Ordinary segments are kept as they come. */
  lemma {:induction false} FoldOrdinary(kept: seq<string>, segs: seq<string>)
    requires forall i | 0 <= i < |segs| :: Ordinary(segs[i])
    ensures Fold(kept, segs) == kept + segs
    decreases |segs|
  {
    if |segs| > 0 {
      FoldOrdinary(kept + [segs[0]], segs[1..]);
      assert kept + [segs[0]] + segs[1..] == kept + segs;
    }
  }

  /** A path starting with `/` splits into an empty segment and the segments of the rest. */
  lemma SplitAbsolute(p: string)
    requires |p| >= 1 && p[0] == '/'
    ensures Split(p) == [""] + Split(p[1..])
  {
  }

  /** The segments of a rendered path: an empty one for the leading `/`, then the kept ones. */
  lemma SplitRender(segs: seq<string>)
    requires Plain(segs)
    ensures Fold([], Split(Render(segs))) == segs
  {
    if |segs| == 0 {
      assert Render(segs) == "/" && "/"[1..] == "";
      SplitAbsolute("/");
      assert Split("/") == ["", ""];
      assert Fold([], [""]) == [];
    } else {
      SplitAbsolute(Render(segs));
      assert Render(segs)[1..] == Unsplit(segs);
      UnsplitRoundTrip(segs);
      assert ([""] + segs)[1..] == segs;
      FoldOrdinary([], segs);
    }
  }

  // ---------------------------------------------------------------------
  // Resolution

  /** The string `resolve(dir, rel)` normalises, for an absolute `dir` and a relative `rel`. */
  lemma JoinedPair(dir: string, rel: string)
    requires |rel| > 0 && rel[0] != '/'
    requires |dir| > 0 && dir[0] == '/'
    ensures Joined([dir, rel]) == dir + "/" + rel
  {
    assert [dir, rel][..1] == [dir];
  }

  /**
   * Resolving a plain relative path against a plain absolute directory only
   * joins the two with `/`, and the result is plain absolute again.
   */
  lemma ResolvePlain(dir: string, rel: string)
    requires PlainAbsolute(dir) && Plain(Split(rel))
    ensures Resolve([dir, rel]) == Join(dir, rel)
    ensures PlainAbsolute(Join(dir, rel))
  {
    SplitHead(rel);
    JoinedPair(dir, rel);
    var j := dir + "/" + rel;
    var m := dir[1..] + "/" + rel;
    assert j[1..] == m;
    SplitAbsolute(j);
    SplitAppend(dir[1..], rel);
    var z := Split(m);
    assert Plain(z);
    assert ([""] + z)[1..] == z;
    assert Fold([], [""] + z) == Fold([], z);
    FoldOrdinary([], z);
    assert [] + z == z;
    assert Split(j) == [""] + z;
    SplitRoundTrip(m);
    assert Resolve([dir, rel]) == Render(z) == "/" + m;
    assert dir == "/" + dir[1..];
  }

  /** A path rendered from segments ending in `name` names that file. */
  lemma RenderSnoc(segs: seq<string>, name: string)
    ensures EndsInFile(Render(segs + [name]), name)
  {
    UnsplitSnoc(segs, name);
    if |segs| > 0 {
      assert Render(segs + [name]) == ("/" + Unsplit(segs)) + ("/" + name);
    } else {
      assert Render(segs + [name]) == "/" + name;
    }
  }

  /** A relative name without `/` that normalisation keeps ends the resolved path, after a `/`. */
  lemma ResolveLeaf(args: seq<string>, name: string)
    requires Ordinary(name) && '/' !in name
    ensures EndsInFile(Resolve(args + [name]), name)
  {
    assert (args + [name])[..|args|] == args;
    assert Joined(args + [name]) == Joined(args) + "/" + name;
    SplitAppend(Joined(args), name);
    SplitNoSlash(name);
    var k := Fold([], Split(Joined(args)));
    FoldAppend([], Split(Joined(args)), [name]);
    FoldOrdinary(k, [name]);
    RenderSnoc(k, name);
  }

  /** `resolve(resolve(a, b), c)` is `resolve(a, b, c)` for a relative `c`. */
  lemma ResolveNested(a: string, b: string, c: string)
    requires |c| > 0 && c[0] != '/'
    ensures Resolve([Resolve([a, b]), c]) == Resolve([a, b, c])
  {
    var j := Joined([a, b]);
    var k := Fold([], Split(j));
    SplitHasNoSlash(j);
    FoldKeepsPlain([], Split(j));
    var r := Render(k);
    assert [r, c][..1] == [r];
    assert Joined([r, c]) == r + "/" + c;
    SplitAppend(r, c);
    FoldAppend([], Split(r), Split(c));
    SplitRender(k);
    assert [a, b, c][..2] == [a, b];
    assert Joined([a, b, c]) == j + "/" + c;
    SplitAppend(j, c);
    FoldAppend([], Split(j), Split(c));
  }

  /**
   * A file name (one ordinary segment) resolved in a directory: the result
   * ends with `/` and the name, and for a plain absolute directory it is
   * just the directory, `/` and the name.
   */
  lemma ResolveName(dir: string, name: string)
    requires Ordinary(name) && '/' !in name
    ensures EndsInFile(Resolve([dir, name]), name)
    ensures PlainAbsolute(dir) ==> Resolve([dir, name]) == Join(dir, name)
  {
    assert [dir] + [name] == [dir, name];
    ResolveLeaf([dir], name);
    SplitNoSlash(name);
    if PlainAbsolute(dir) {
      ResolvePlain(dir, name);
    }
  }

  /** A trailing `/` on the relative part does not change what `resolve` gives. */
  lemma ResolveIgnoresTrailingSlash(dir: string, rel: string)
    requires |rel| > 0 && rel[0] != '/'
    ensures Resolve([dir, rel + "/"]) == Resolve([dir, rel])
  {
    assert [dir, rel][..1] == [dir] && [dir, rel + "/"][..1] == [dir];
    var j := Joined([dir, rel]);
    assert Joined([dir, rel + "/"]) == j + "/" + "";
    SplitAppend(j, "");
    FoldAppend([], Split(j), [""]);
    assert Fold(Fold([], Split(j)), [""]) == Fold(Fold([], Split(j)), []);
  }

  /** The segments `resolve` keeps of a single directory argument. */
  function Segments(dir: string): (r: seq<string>)
    ensures Plain(r)
  {
    SplitHasNoSlash(Joined([dir]));
    FoldKeepsPlain([], Split(Joined([dir])));
    Fold([], Split(Joined([dir])))
  }

  /** A single segment splits into itself; two segments joined by `/` split back into the two. */
  lemma SplitTwo(a: string, b: string)
    requires '/' !in a && '/' !in b
    ensures Split(a + "/" + b) == [a, b]
  {
    SplitAppend(a, b);
    SplitNoSlash(a);
    SplitNoSlash(b);
  }

  /** `resolve(dir, rel)` for a relative `rel`: the directory's segments, then `rel`'s, normalised. */
  lemma ResolveRelative(dir: string, rel: string)
    requires |rel| > 0 && rel[0] != '/'
    ensures Resolve([dir, rel]) == Render(Fold(Segments(dir), Split(rel)))
  {
    assert [dir, rel][..1] == [dir];
    SplitAppend(Joined([dir]), rel);
    FoldAppend([], Split(Joined([dir])), Split(rel));
  }

  /** An already resolved path, resolved again, keeps its segments. */
  lemma SegmentsOfRender(segs: seq<string>)
    requires Plain(segs)
    ensures Segments(Render(segs)) == segs
  {
    SplitRender(segs);
  }

  /** `resolve(dir, 'a/b')` for ordinary segments `a` and `b`: the directory's segments, then `a` and `b`. */
  lemma ResolveTwo(dir: string, a: string, b: string)
    requires Ordinary(a) && Ordinary(b) && '/' !in a && '/' !in b
    ensures Resolve([dir, a + "/" + b]) == Render(Segments(dir) + [a, b])
  {
    ResolveRelative(dir, a + "/" + b);
    SplitTwo(a, b);
    FoldOrdinary(Segments(dir), [a, b]);
  }

  /** `..` drops the last kept segment. */
  lemma FoldUp(kept: seq<string>, a: string, b: string, c: string)
    requires Ordinary(c)
    ensures Fold(kept + [a, b], ["..", c]) == kept + [a, c]
  {
    assert (kept + [a, b])[..|kept| + 1] == kept + [a];
    assert ["..", c][1..] == [c];
    FoldOrdinary(kept + [a], [c]);
  }

  /**
   * `resolve(resolve(dir, 'a/b'), '../c')` is `resolve(dir, 'a/c')` for
   * ordinary segments `a`, `b` and `c`.
   */
  lemma ResolveUp(dir: string, a: string, b: string, c: string)
    requires Ordinary(a) && Ordinary(b) && Ordinary(c)
    requires '/' !in a && '/' !in b && '/' !in c
    ensures Resolve([Resolve([dir, a + "/" + b]), ".." + "/" + c]) == Resolve([dir, a + "/" + c])
  {
    var k := Segments(dir);
    ResolveTwo(dir, a, b);
    ResolveTwo(dir, a, c);
    ResolveRelative(Resolve([dir, a + "/" + b]), ".." + "/" + c);
    SegmentsOfRender(k + [a, b]);
    SplitTwo("..", c);
    FoldUp(k, a, b, c);
  }

  /** `resolve(dir, './name')` is `resolve(dir, name)` for an ordinary segment `name`. */
  lemma ResolveDot(dir: string, name: string)
    requires Ordinary(name) && '/' !in name
    ensures Resolve([dir, "." + "/" + name]) == Resolve([dir, name])
  {
    ResolveRelative(dir, "." + "/" + name);
    ResolveRelative(dir, name);
    SplitTwo(".", name);
    SplitNoSlash(name);
  }

  /** `r` names a file called `name`: it ends with `/` and the name. */
  predicate EndsInFile(r: string, name: string) {
    |name| < |r| && r[|r| - |name| - 1..] == "/" + name
  }

  /** `resolve(dir, name)` for a file name (one ordinary segment) names that file. */
  function FileIn(dir: string, name: string): (r: string)
    requires Ordinary(name) && '/' !in name
    ensures EndsInFile(r, name)
  {
    ResolveName(dir, name);
    Resolve([dir, name])
  }

  /** The directory part of a join is determined by the join and the name. */
  lemma JoinInjective(x: string, y: string, name: string)
    requires Join(x, name) == Join(y, name)
    ensures x == y
  {
    assert x == Join(x, name)[..|x|];
    assert y == Join(y, name)[..|y|];
  }

  /** Files whose names end in different characters are different paths. */
  lemma LastCharsDiffer(r: string, a: string, s: string, b: string)
    requires EndsInFile(r, a) && EndsInFile(s, b)
    requires |a| > 0 && |b| > 0 && a[|a| - 1] != b[|b| - 1]
    ensures r != s
  {
    assert r[|r| - 1] == ("/" + a)[|a|];
    assert s[|s| - 1] == ("/" + b)[|b|];
  }

  /**
   * A file whose name is longer than `b` and has no `/` where `b`'s leading
   * `/` would fall is not a file called `b`.
   */
  lemma LongerNameDiffers(r: string, a: string, s: string, b: string)
    requires EndsInFile(r, a) && EndsInFile(s, b)
    requires |b| < |a| && a[|a| - |b| - 1] != '/'
    ensures r != s
  {
    assert r[|r| - |b| - 1] == ("/" + a)[|a| - |b|];
    assert s[|s| - |b| - 1] == ("/" + b)[0];
  }
}
