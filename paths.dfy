/** The parts of Python's `posixpath` that the file tools use to place a path
    inside the session's codebase directory: `join`, `abspath` (on absolute
    paths, where it is `normpath`) and `relpath`. */
module PosixPath {
  import opened PyStr

  predicate IsAbs(p: string) {
    p != [] && p[0] == '/'
  }

  /** `posixpath.join(a, b)`: an absolute `b` replaces `a`. */
  function PathJoin(a: string, b: string): (r: string)
    ensures IsAbs(a) ==> IsAbs(r)
  {
    if IsAbs(b) then b
    else if a == [] || a[|a| - 1] == '/' then a + b
    else a + "/" + b
  }

  /** A component that a normalised absolute path can hold. */
  predicate Plain(x: string) {
    x != [] && x != "." && x != ".." && '/' !in x
  }

  predicate AllPlain(xs: seq<string>) {
    forall k :: 0 <= k < |xs| ==> Plain(xs[k])
  }

  /** The component loop of `normpath` for an absolute path: empty and "."
      components are dropped, ".." removes the last kept component and is
      dropped at the root. */
  function Resolve(kept: seq<string>, comps: seq<string>): (r: seq<string>)
    ensures AllPlain(kept) && (forall k :: 0 <= k < |comps| ==> '/' !in comps[k]) ==> AllPlain(r)
    decreases |comps|
  {
    if comps == [] then kept
    else
      var c := comps[0];
      var next :=
        if c == "" || c == "." then kept
        else if c == ".." then (if kept == [] then [] else kept[..|kept| - 1])
        else kept + [c];
      Resolve(next, comps[1..])
  }

  /** `normpath` keeps exactly two leading slashes and folds any other number
      into one. */
  function Root(p: string): string
    requires IsAbs(p)
  {
    if |p| >= 2 && p[1] == '/' && (|p| == 2 || p[2] != '/') then "//" else "/"
  }

  /** The components of `abspath(p)`. */
  function AbsParts(p: string): (r: seq<string>)
    ensures AllPlain(r)
  {
    Resolve([], SplitChar(p, '/'))
  }

  /** `os.path.abspath(p)` for an absolute `p`. */
  function AbsPath(p: string): (r: string)
    requires IsAbs(p)
    ensures IsAbs(r)
  {
    Root(p) + Join("/", AbsParts(p))
  }

  /** The non-empty strings of `xs`, in order. */
  function NonEmpty(xs: seq<string>): (r: seq<string>)
    ensures forall k :: 0 <= k < |r| ==> r[k] != []
    ensures |r| <= |xs|
  {
    if xs == [] then []
    else if xs[0] == [] then NonEmpty(xs[1..])
    else [xs[0]] + NonEmpty(xs[1..])
  }

  /** The length of the longest common prefix of `a` and `b`. */
  function CommonPrefix(a: seq<string>, b: seq<string>): (n: nat)
    ensures n <= |a| && n <= |b| && a[..n] == b[..n]
    ensures n < |a| && n < |b| ==> a[n] != b[n]
  {
    if a == [] || b == [] || a[0] != b[0] then 0
    else
      var m := CommonPrefix(a[1..], b[1..]);
      assert a[..m + 1] == [a[0]] + a[1..][..m] && b[..m + 1] == [b[0]] + b[1..][..m];
      m + 1
  }

  function Ups(n: nat): (r: seq<string>)
    ensures |r| == n && forall k :: 0 <= k < n ==> r[k] == ".."
  {
    if n == 0 then [] else Ups(n - 1) + [".."]
  }

  /** `os.path.relpath(path, start)` for absolute paths: climb out of what
      `start` does not share with `path`, then descend into the rest of
      `path`. */
  function RelPath(path: string, start: string): string
    requires IsAbs(path) && IsAbs(start)
  {
    var s := NonEmpty(SplitChar(AbsPath(start), '/'));
    var p := NonEmpty(SplitChar(AbsPath(path), '/'));
    var i := CommonPrefix(s, p);
    var rel := Ups(|s| - i) + p[i..];
    if rel == [] then "." else Join("/", rel)
  }

  // ---------------------------------------------------------------------------
  // Normalised paths

  /** The text of the normalised absolute path with components `xs`. */
  function Render(xs: seq<string>): (r: string)
    ensures IsAbs(r)
  {
    "/" + Join("/", xs)
  }

  /** Plain components are kept as they come. */
  lemma {:induction false} ResolvePlain(kept: seq<string>, xs: seq<string>)
    requires AllPlain(kept) && AllPlain(xs)
    ensures Resolve(kept, xs) == kept + xs
    decreases |xs|
  {
    if xs != [] {
      ResolvePlain(kept + [xs[0]], xs[1..]);
      assert kept + [xs[0]] + xs[1..] == kept + xs;
    }
  }

  /** The slash-separated fields of a rendered path: one empty field for the
      root, then the components. */
  lemma RenderFields(xs: seq<string>)
    requires AllPlain(xs)
    ensures SplitChar(Render(xs), '/') == [""] + (if xs == [] then [""] else xs)
  {
    assert Render(xs) == [] + ['/'] + Join("/", xs);
    SplitCharAppend([], '/', Join("/", xs));
    if xs != [] {
      SplitCharJoin(xs, '/');
    }
  }

  lemma {:induction false} NonEmptyPlain(xs: seq<string>)
    requires AllPlain(xs)
    ensures NonEmpty(xs) == xs
    decreases |xs|
  {
    if xs != [] {
      NonEmptyPlain(xs[1..]);
      assert [xs[0]] + xs[1..] == xs;
    }
  }

  lemma {:induction false} NonEmptyAppend(a: seq<string>, b: seq<string>)
    ensures NonEmpty(a + b) == NonEmpty(a) + NonEmpty(b)
    decreases |a|
  {
    if a == [] {
      assert a + b == b;
    } else {
      assert (a + b)[1..] == a[1..] + b;
      NonEmptyAppend(a[1..], b);
    }
  }

  /** The components of a rendered path, as `relpath` reads them. */
  lemma RenderComponents(xs: seq<string>)
    requires AllPlain(xs)
    ensures NonEmpty(SplitChar(Render(xs), '/')) == xs
  {
    RenderFields(xs);
    if xs == [] {
      assert NonEmpty([""] + [""]) == [];
    } else {
      NonEmptyAppend([""], xs);
      NonEmptyPlain(xs);
    }
  }

  /** Components are resolved one after the other. */
  lemma {:induction false} ResolveAppend(kept: seq<string>, a: seq<string>, b: seq<string>)
    ensures Resolve(kept, a + b) == Resolve(Resolve(kept, a), b)
    decreases |a|
  {
    if a == [] {
      assert a + b == b;
    } else {
      var c := a[0];
      var next :=
        if c == "" || c == "." then kept
        else if c == ".." then (if kept == [] then [] else kept[..|kept| - 1])
        else kept + [c];
      assert (a + b)[0] == c && (a + b)[1..] == a[1..] + b;
      ResolveAppend(next, a[1..], b);
    }
  }

  /** A rendered path with components does not end with a slash. */
  lemma RenderLast(q: seq<string>)
    requires AllPlain(q) && q != []
    ensures var p := Render(q); p[|p| - 1] != '/'
  {
    var last := q[|q| - 1];
    JoinSnoc("/", q[..|q| - 1], last);
    assert q[..|q| - 1] + [last] == q;
    assert last[|last| - 1] in last;
  }

  /** A normalised path normalises to itself. */
  lemma AbsPathRendered(xs: seq<string>)
    requires AllPlain(xs)
    ensures AbsPath(Render(xs)) == Render(xs)
  {
    var p := Render(xs);
    RenderFields(xs);
    if xs == [] {
      assert ([""] + [""])[1..] == [""];
      assert Resolve([], [""]) == [];
      assert Resolve([], [""] + [""]) == [];
    } else {
      assert Join("/", xs)[..|xs[0]|] == xs[0];
      assert p[1] == xs[0][0] && xs[0][0] in xs[0];
      assert Root(p) == "/";
      ResolvePlain([], xs);
      assert ([""] + xs)[1..] == xs;
      assert AbsParts(p) == Resolve([], [""] + xs) == Resolve([], xs) == xs;
    }
  }

  /** `abspath` of any absolute path is a root followed by plain components. */
  lemma AbsPathShape(p: string)
    requires IsAbs(p)
    ensures AbsPath(p) == Root(p) + Join("/", AbsParts(p)) && AllPlain(AbsParts(p))
  {
  }

  lemma {:induction false} CommonPrefixOf(a: seq<string>, b: seq<string>)
    ensures CommonPrefix(a, a + b) == |a|
    decreases |a|
  {
    if a != [] {
      assert (a + b)[1..] == a[1..] + b;
      CommonPrefixOf(a[1..], b);
    }
  }

  /** Joining components below a directory. */
  lemma RenderAppend(q: seq<string>, p: seq<string>)
    requires q != [] && p != []
    ensures Render(q + p) == Render(q) + "/" + Join("/", p)
  {
    JoinAppend("/", q, p);
  }

  /** `relpath` of a path below `start` is the rest of the path. */
  lemma RelPathBelow(q: seq<string>, p: seq<string>)
    requires AllPlain(q) && AllPlain(p)
    ensures RelPath(Render(q + p), Render(q)) == if p == [] then "." else Join("/", p)
  {
    AbsPathRendered(q);
    AbsPathRendered(q + p);
    RenderComponents(q);
    RenderComponents(q + p);
    CommonPrefixOf(q, p);
    assert (q + p)[|q|..] == p;
    assert Ups(0) + p == p;
  }
}
