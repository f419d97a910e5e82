/** The path checks of the `create_file` tool (src/tools/create_file_tool.py):
    a new file must land inside one of the repositories of the session's
    codebase directory. The checks run in order and the first that fails
    answers; only a request that passes them all writes the file. */
module CreateFileTool {
  import opened PyStr
  import opened PosixPath
  import opened Workspace

  /** The dictionary the tool returns: `{"success": ...}` or `{"error": ...}`. */
  datatype Reply = Success(success: string) | Error(error: string)

  /** The decision, with the file to write when there is one. */
  datatype Decision = Write(path: string, content: string, reply: Reply) | Refuse(reply: Reply)

  function NotInRepository(listing: seq<string>): string {
    "The file is not created because you should place the file inside one of the provided repositories in the codebase. "
    + StrListRepr(listing)
  }

  function OutsideCodebase(listing: seq<string>): string {
    "File path is outside the codebase directory. You should place the file inside one of the provided repositories in the codebase. "
    + StrListRepr(listing)
  }

  /** `codebase_dir`: the session's codebase directory, made absolute. */
  function CodebaseDir(toolsDir: string, sessionId: string): (r: string)
    requires IsAbs(toolsDir)
    ensures IsAbs(r)
  {
    AbsPath(SessionCodebase(toolsDir, sessionId))
  }

  /** `os.path.relpath(target, dir).split(os.sep)` */
  function RelParts(target: string, dir: string): (r: seq<string>)
    requires IsAbs(target) && IsAbs(dir)
    ensures |r| >= 1
  {
    SplitChar(RelPath(target, dir), '/')
  }

  /** The checks on the normalised target, as the source has them: it must
      start with the codebase directory as text and must not sit directly in
      the codebase directory. */
  function PlaceAsWritten(dir: string, listing: seq<string>, target: string, content: string): Decision
    requires IsAbs(dir) && IsAbs(target)
  {
    if !(dir <= target) then Refuse(Error(OutsideCodebase(listing)))
    else if |RelParts(target, dir)| == 1 then Refuse(Error(NotInRepository(listing)))
    else Write(target, content, Success("File created at " + target))
  }

  /** `create_file` as the source has it: the first '/'-segment of the request
      must name an entry of the codebase listing, then the target is checked. */
  function CreateFileAsWritten(dir: string, listing: seq<string>, filePath: string, content: string): Decision
    requires IsAbs(dir)
  {
    if SplitChar(filePath, '/')[0] !in listing then Refuse(Error(NotInRepository(listing)))
    else PlaceAsWritten(dir, listing, AbsPath(PathJoin(dir, filePath)), content)
  }

  /** The checks on the normalised target with the containment test made a
      path test (the target is the directory itself or lies below
      `dir + "/"`) and the repository test made on the target's first
      component below the directory. */
  function Place(dir: string, listing: seq<string>, target: string, content: string): Decision
    requires IsAbs(dir) && IsAbs(target)
  {
    if !(target == dir || dir + "/" <= target) then Refuse(Error(OutsideCodebase(listing)))
    else if |RelParts(target, dir)| == 1 then Refuse(Error(NotInRepository(listing)))
    else if RelParts(target, dir)[0] !in listing then Refuse(Error(NotInRepository(listing)))
    else Write(target, content, Success("File created at " + target))
  }

  /** `create_file` with the corrected checks. */
  function CreateFile(dir: string, listing: seq<string>, filePath: string, content: string): Decision
    requires IsAbs(dir)
  {
    if SplitChar(filePath, '/')[0] !in listing then Refuse(Error(NotInRepository(listing)))
    else Place(dir, listing, AbsPath(PathJoin(dir, filePath)), content)
  }

  // ---------------------------------------------------------------------------
  // The corrected checks keep every file inside a repository

  /** A normalised path that starts with `Render(q) + "/"` lies below `q`. */
  lemma BelowDir(q: seq<string>, a: seq<string>)
    requires AllPlain(q) && AllPlain(a) && q != []
    requires Render(q) + "/" <= Render(a)
    ensures |a| > |q| && a[..|q|] == q
  {
    var dir := Render(q);
    var target := Render(a);
    var rest := target[|dir| + 1..];
    assert target == dir + ['/'] + rest;
    SplitCharAppend(dir, '/', rest);
    RenderComponents(q);
    RenderComponents(a);
    NonEmptyAppend(SplitChar(dir, '/'), SplitChar(rest, '/'));
    var p := NonEmpty(SplitChar(rest, '/'));
    assert a == q + p;
    assert |target| > |dir|;
    assert p == [] ==> a == q;
    assert p == [] ==> target == dir;
    assert a[..|q|] == q;
  }

  /** The codebase directory itself is one part deep. */
  lemma DirDepth(q: seq<string>)
    requires AllPlain(q)
    ensures RelParts(Render(q), Render(q)) == ["."]
  {
    RelPathBelow(q, []);
    assert q + [] == q;
    SplitCharNone(".", '/');
  }

  /** Below the directory, the relative path splits into the components
      below it. */
  lemma BelowParts(q: seq<string>, p: seq<string>)
    requires AllPlain(q) && AllPlain(p) && p != []
    ensures RelParts(Render(q + p), Render(q)) == p
  {
    RelPathBelow(q, p);
    SplitCharJoin(p, '/');
  }

  /** What the corrected checks require of a target they accept. */
  lemma PlaceWrites(dir: string, listing: seq<string>, target: string, content: string)
    requires IsAbs(dir) && IsAbs(target) && Place(dir, listing, target, content).Write?
    ensures target == dir || dir + "/" <= target
    ensures |RelParts(target, dir)| != 1 && RelParts(target, dir)[0] in listing
  {
  }

  lemma ContainedParts(q: seq<string>, a: seq<string>, listing: seq<string>)
    requires AllPlain(q) && q != [] && AllPlain(a)
    requires Render(q) + "/" <= Render(a)
    requires |RelParts(Render(a), Render(q))| != 1 && RelParts(Render(a), Render(q))[0] in listing
    ensures |a| >= |q| + 2 && a[..|q|] == q && a[|q|] in listing
    ensures Render(a) == Render(q) + "/" + Join("/", a[|q|..])
  {
    BelowDir(q, a);
    var p := a[|q|..];
    assert a == q + p;
    BelowParts(q, p);
    RenderAppend(q, p);
  }

  /** A normalised target that the corrected checks accept is the codebase
      directory, a "/", a repository of the listing, and at least one more
      component. */
  lemma PlaceContained(q: seq<string>, a: seq<string>, listing: seq<string>, content: string)
    requires AllPlain(q) && q != [] && AllPlain(a)
    ensures Place(Render(q), listing, Render(a), content).Write? ==>
      |a| >= |q| + 2 && a[..|q|] == q && a[|q|] in listing && Render(a) == Render(q) + "/" + Join("/", a[|q|..])
  {
    var dir := Render(q);
    var target := Render(a);
    if Place(dir, listing, target, content).Write? {
      PlaceWrites(dir, listing, target, content);
      DirDepth(q);
      ContainedParts(q, a, listing);
    }
  }

  /** A target with two leading slashes is never below a directory with one. */
  lemma PlaceDoubleRoot(q: seq<string>, t: string, listing: seq<string>, content: string)
    requires AllPlain(q) && q != [] && |t| >= 2 && t[..2] == "//"
    ensures Place(Render(q), listing, t, content).Refuse?
  {
    var dir := Render(q);
    assert Join("/", q)[..|q[0]|] == q[0];
    assert dir[1] == q[0][0] && q[0][0] in q[0];
    assert t[1] == '/' && |dir| >= 2;
    assert t != dir;
    assert (dir + "/")[1] == dir[1];
    assert !(dir + "/" <= t);
  }

  /** The target of a request that `create_file` accepts, once corrected, is
      inside a repository of the codebase. */
  lemma CreateFileContained(q: seq<string>, listing: seq<string>, filePath: string, content: string)
    requires AllPlain(q) && q != []
    ensures var a := AbsParts(PathJoin(Render(q), filePath));
      CreateFile(Render(q), listing, filePath, content).Write? ==>
      |a| >= |q| + 2 && a[..|q|] == q && a[|q|] in listing
      && CreateFile(Render(q), listing, filePath, content).path == Render(q) + "/" + Join("/", a[|q|..])
  {
    var joined := PathJoin(Render(q), filePath);
    var a := AbsParts(joined);
    var target := AbsPath(joined);
    if SplitChar(filePath, '/')[0] in listing {
      CreateFilePlaces(Render(q), listing, filePath, content, target);
      if Root(joined) == "//" {
        PlaceDoubleRoot(q, target, listing, content);
      } else {
        assert target == Render(a);
        PlaceContained(q, a, listing, content);
      }
    }
  }

  /** A request whose first segment names a repository is decided by the
      checks on its normalised target. */
  lemma CreateFilePlaces(dir: string, listing: seq<string>, filePath: string, content: string, target: string)
    requires IsAbs(dir) && SplitChar(filePath, '/')[0] in listing && AbsPath(PathJoin(dir, filePath)) == target
    ensures IsAbs(target)
    ensures CreateFile(dir, listing, filePath, content) == Place(dir, listing, target, content)
  {
  }

  lemma CreateFilePlacesAsWritten(dir: string, listing: seq<string>, filePath: string, content: string, target: string)
    requires IsAbs(dir) && SplitChar(filePath, '/')[0] in listing && AbsPath(PathJoin(dir, filePath)) == target
    ensures IsAbs(target)
    ensures CreateFileAsWritten(dir, listing, filePath, content) == PlaceAsWritten(dir, listing, target, content)
  {
  }

  // ---------------------------------------------------------------------------
  // The checks as written let a request out of the codebase and into a
  // folder that is not a repository

  lemma ResolveStep(kept: seq<string>, c: string, rest: seq<string>)
    ensures Resolve(kept, [c] + rest) == Resolve(
      if c == "" || c == "." then kept
      else if c == ".." then (if kept == [] then [] else kept[..|kept| - 1])
      else kept + [c], rest)
  {
    assert ([c] + rest)[0] == c && ([c] + rest)[1..] == rest;
  }

  lemma JoinCons(x: string, xs: seq<string>)
    requires xs != []
    ensures Join("/", [x] + xs) == x + "/" + Join("/", xs)
  {
    assert ([x] + xs)[1..] == xs;
  }

  /** The request joined below "/<c>" is the join of the root field, `c` and
      the request's own fields. */
  lemma EscapeJoined(c: string, rest: seq<string>)
    requires Plain(c) && rest != [] && rest[0] != [] && '/' !in rest[0]
    ensures var all := [""] + ([c] + rest); PathJoin(Render([c]), Join("/", rest)) == Join("/", all)
  {
    JoinCons(c, rest);
    JoinCons("", [c] + rest);
    assert Join("/", rest)[..|rest[0]|] == rest[0];
    assert rest[0][0] in rest[0];
  }

  lemma EscapeFields(c: string, rest: seq<string>)
    requires Plain(c) && forall k :: 0 <= k < |rest| ==> '/' !in rest[k]
    ensures var all := [""] + ([c] + rest); SplitChar(Join("/", all), '/') == all
  {
    var all := [""] + ([c] + rest);
    forall k | 0 <= k < |all| ensures '/' !in all[k] {
      if k >= 2 {
        assert all[k] == rest[k - 2];
      }
    }
    SplitCharJoin(all, '/');
  }

  lemma EscapeClimb(c: string, r: string, x: string, f: string)
    requires Plain(c) && Plain(r) && Plain(x) && Plain(f)
    ensures var tail := [".."] + ([".."] + [x, f]); Resolve([c, r], tail) == [x, f]
  {
    ResolvePlain([], [x, f]);
    ResolveStep([c], "..", [x, f]);
    assert [c][..0] == [];
    ResolveStep([c, r], "..", [".."] + [x, f]);
    assert [c, r][..1] == [c];
  }

  lemma EscapeResolved(c: string, r: string, x: string, f: string)
    requires Plain(c) && Plain(r) && Plain(x) && Plain(f)
    ensures var all := [""] + ([c] + ([r] + ([".."] + ([".."] + [x, f])))); Resolve([], all) == [x, f]
  {
    EscapeClimb(c, r, x, f);
    var s2 := [".."] + ([".."] + [x, f]);
    ResolveStep([c], r, s2);
    assert [c] + [r] == [c, r];
    ResolveStep([], c, [r] + s2);
    assert [] + [c] == [c];
    ResolveStep([], "", [c] + ([r] + s2));
  }

  /** The request "<r>/../../<x>/<f>" below "/<c>" normalises to "/<x>/<f>". */
  lemma EscapeTarget(c: string, r: string, x: string, f: string)
    requires Plain(c) && Plain(r) && Plain(x) && Plain(f)
    ensures var rest := [r] + ([".."] + ([".."] + [x, f]));
      AbsPath(PathJoin(Render([c]), Join("/", rest))) == Render([x, f])
  {
    var rest := [r] + ([".."] + ([".."] + [x, f]));
    var all := [""] + ([c] + rest);
    EscapeJoined(c, rest);
    forall k | 0 <= k < |rest| ensures '/' !in rest[k] {
      if k >= 3 {
        assert rest[k] == [x, f][k - 3];
      }
    }
    EscapeFields(c, rest);
    EscapeResolved(c, r, x, f);
    var joined := PathJoin(Render([c]), Join("/", rest));
    assert joined == Join("/", all);
    JoinCons("", [c] + rest);
    assert joined[1] == c[0];
  }

  /** The target "/<x>/<f>" passes the textual test and is three parts deep
      from "/<c>" ("../<x>/<f>"), but it is not below "/<c>/". */
  lemma EscapeChecks(c: string, x: string, f: string)
    requires Plain(c) && Plain(x) && Plain(f) && c < x
    ensures Render([c]) <= Render([x, f]) && !(Render([c]) + "/" <= Render([x, f]))
    ensures |RelParts(Render([x, f]), Render([c]))| == 3
  {
    JoinCons(x, [f]);
    assert Render([x, f]) == "/" + x + "/" + f;
    assert Render([c]) == "/" + c;
    var t := Render([x, f]);
    var d := Render([c]) + "/";
    assert |d| == |c| + 2 && d[|c| + 1] == '/';
    assert t[|c| + 1] == x[|c|] && x[|c|] in x;
    EscapeDepth(c, x, f);
  }

  lemma EscapeDepth(c: string, x: string, f: string)
    requires Plain(c) && Plain(x) && Plain(f) && c != x
    ensures |RelParts(Render([x, f]), Render([c]))| == 3
  {
    AbsPathRendered([c]);
    AbsPathRendered([x, f]);
    RenderComponents([c]);
    RenderComponents([x, f]);
    assert CommonPrefix([c], [x, f]) == 0;
    assert Ups(1) + [x, f][0..] == ["..", x, f];
    SplitCharJoin(["..", x, f], '/');
  }

  /** For a codebase "/<c>" holding the repository `r` and any sibling `x` of
      the codebase directory whose name extends `c`, the request
      "<r>/../../<x>/<f>" passes every check and writes "/<x>/<f>", which is
      not below "/<c>/". */
  lemma EscapesCodebase(c: string, r: string, x: string, f: string, content: string)
    requires Plain(c) && Plain(r) && Plain(x) && Plain(f) && c < x
    ensures var request := Join("/", [r] + ([".."] + ([".."] + [x, f])));
      CreateFileAsWritten(Render([c]), [r], request, content)
        == Write(Render([x, f]), content, Success("File created at " + Render([x, f])))
    ensures !(Render([c]) + "/" <= Render([x, f]))
  {
    var rest := [r] + ([".."] + ([".."] + [x, f]));
    JoinCons(r, [".."] + ([".."] + [x, f]));
    SplitCharAppend(r, '/', Join("/", [".."] + ([".."] + [x, f])));
    SplitCharNone(r, '/');
    assert Join("/", rest) == r + ['/'] + Join("/", [".."] + ([".."] + [x, f]));
    EscapeTarget(c, r, x, f);
    EscapeChecks(c, x, f);
  }

  /** A relative request joined below a normalised directory is the join of
      the root field, the directory's components and the request's fields. */
  lemma RequestJoined(q: seq<string>, rest: seq<string>)
    requires AllPlain(q) && q != [] && rest != [] && rest[0] != [] && '/' !in rest[0]
    ensures var all := [""] + (q + rest); PathJoin(Render(q), Join("/", rest)) == Join("/", all)
  {
    var b := Join("/", rest);
    RenderLast(q);
    assert b[..|rest[0]|] == rest[0];
    assert rest[0][0] in rest[0];
    assert !IsAbs(b);
    assert PathJoin(Render(q), b) == "/" + Join("/", q) + "/" + b;
    JoinAppend("/", q, rest);
    JoinCons("", q + rest);
  }

  lemma RequestFields(q: seq<string>, rest: seq<string>)
    requires AllPlain(q) && forall k :: 0 <= k < |rest| ==> '/' !in rest[k]
    ensures var all := [""] + (q + rest); SplitChar(Join("/", all), '/') == all
  {
    var all := [""] + (q + rest);
    forall k | 0 <= k < |all| ensures '/' !in all[k] {
      if 1 <= k <= |q| {
        assert all[k] == q[k - 1];
      } else if k > |q| {
        assert all[k] == rest[k - 1 - |q|];
      }
    }
    SplitCharJoin(all, '/');
  }

  lemma SiblingResolved(q: seq<string>, r: string, n: string, f: string)
    requires AllPlain(q) && Plain(r) && Plain(n) && Plain(f)
    ensures var all := [""] + (q + ([r] + ([".."] + [n, f]))); Resolve([], all) == q + [n, f]
  {
    var rest := [r] + ([".."] + [n, f]);
    ResolveStep([], "", q + rest);
    ResolveAppend([], q, rest);
    ResolvePlain([], q);
    assert [] + q == q;
    ResolveStep(q, r, [".."] + [n, f]);
    ResolveStep(q + [r], "..", [n, f]);
    assert (q + [r])[..|q|] == q;
    ResolvePlain(q, [n, f]);
  }

  /** The request "<r>/../<n>/<f>" below a normalised directory `q` lands in
      "<q>/<n>/<f>". */
  lemma SiblingTarget(q: seq<string>, r: string, n: string, f: string)
    requires AllPlain(q) && q != [] && Plain(r) && Plain(n) && Plain(f)
    ensures var request := Join("/", [r] + ([".."] + [n, f]));
      AbsPath(PathJoin(Render(q), request)) == Render(q + [n, f])
  {
    var rest := [r] + ([".."] + [n, f]);
    var all := [""] + (q + rest);
    forall k | 0 <= k < |rest| ensures '/' !in rest[k] {
      if k >= 2 {
        assert rest[k] == [n, f][k - 2];
      }
    }
    RequestJoined(q, rest);
    RequestFields(q, rest);
    SiblingResolved(q, r, n, f);
    var joined := Join("/", all);
    JoinCons("", q + rest);
    assert Join("/", q + rest)[..|q[0]|] == q[0];
    assert joined[1] == q[0][0] && q[0][0] in q[0];
  }

  /** The first '/'-segment of "<r>/..." is `r`. */
  lemma FirstSegment(r: string, rest: seq<string>)
    requires Plain(r) && rest != []
    ensures SplitChar(Join("/", [r] + rest), '/')[0] == r
  {
    JoinCons(r, rest);
    assert Join("/", [r] + rest) == r + ['/'] + Join("/", rest);
    SplitCharAppend(r, '/', Join("/", rest));
    SplitCharNone(r, '/');
  }

  /** A normalised target at least two components below the directory passes
      both checks as written. */
  lemma PlaceBelowAsWritten(q: seq<string>, p: seq<string>, listing: seq<string>, content: string)
    requires AllPlain(q) && q != [] && AllPlain(p) && |p| >= 2
    ensures var target := Render(q + p);
      PlaceAsWritten(Render(q), listing, target, content) == Write(target, content, Success("File created at " + target))
  {
    var dir := Render(q);
    var target := Render(q + p);
    RenderAppend(q, p);
    assert target == dir + "/" + Join("/", p);
    assert dir <= target && dir + "/" <= target;
    BelowParts(q, p);
    assert RelParts(target, dir) == p;
  }

  /** The corrected checks also look at the first component below the
      directory. */
  lemma PlaceBelow(q: seq<string>, p: seq<string>, listing: seq<string>, content: string)
    requires AllPlain(q) && q != [] && AllPlain(p) && |p| >= 2
    ensures var target := Render(q + p);
      Place(Render(q), listing, target, content)
        == if p[0] in listing then Write(target, content, Success("File created at " + target))
           else Refuse(Error(NotInRepository(listing)))
  {
    var dir := Render(q);
    var target := Render(q + p);
    RenderAppend(q, p);
    assert target == dir + "/" + Join("/", p);
    assert dir <= target && dir + "/" <= target;
    BelowParts(q, p);
    assert RelParts(target, dir) == p;
  }

  /** For any repository `r` of the listing and any name `n`, the request
      "<r>/../<n>/<f>" passes every check as written and writes
      "<q>/<n>/<f>", in the folder `n` whether or not it is a repository. */
  lemma IntoOtherFolder(q: seq<string>, listing: seq<string>, r: string, n: string, f: string, content: string)
    requires AllPlain(q) && q != [] && Plain(r) && Plain(n) && Plain(f) && r in listing
    ensures var request := Join("/", [r] + ([".."] + [n, f])); var target := Render(q + [n, f]);
      CreateFileAsWritten(Render(q), listing, request, content) == Write(target, content, Success("File created at " + target))
  {
    var request := Join("/", [r] + ([".."] + [n, f]));
    assert AllPlain([n, f]) by {
      forall k | 0 <= k < 2 ensures Plain([n, f][k]) {
        if k == 1 { assert [n, f][k] == f; }
      }
    }
    FirstSegment(r, [".."] + [n, f]);
    SiblingTarget(q, r, n, f);
    CreateFilePlacesAsWritten(Render(q), listing, request, content, Render(q + [n, f]));
    PlaceBelowAsWritten(q, [n, f], listing, content);
  }

  /** The corrected checks refuse that request when `n` is not in the listing. */
  lemma OtherFolderRefused(q: seq<string>, listing: seq<string>, r: string, n: string, f: string, content: string)
    requires AllPlain(q) && q != [] && Plain(r) && Plain(n) && Plain(f) && r in listing && n !in listing
    ensures var request := Join("/", [r] + ([".."] + [n, f]));
      CreateFile(Render(q), listing, request, content) == Refuse(Error(NotInRepository(listing)))
  {
    var request := Join("/", [r] + ([".."] + [n, f]));
    assert AllPlain([n, f]) by {
      forall k | 0 <= k < 2 ensures Plain([n, f][k]) {
        if k == 1 { assert [n, f][k] == f; }
      }
    }
    FirstSegment(r, [".."] + [n, f]);
    SiblingTarget(q, r, n, f);
    CreateFilePlaces(Render(q), listing, request, content, Render(q + [n, f]));
    PlaceBelow(q, [n, f], listing, content);
    assert [n, f][0] == n;
  }
}
