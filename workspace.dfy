/** The session's files as the file tools see them: where a tool path lands
    on disk, how a file is read back as lines, and Python's clamping of slice
    bounds. */
module Workspace {
  import opened PyStr
  import opened PosixPath

  /** The files on disk, by absolute normalised path. */
  class FileSystem {
    var files: map<string, string>

    constructor(files: map<string, string>)
      ensures this.files == files
    {
      this.files := files;
    }
  }

  /** `os.path.join(current_dir, "..", "tmp", session_id, "codebase")`, where
      `toolsDir` is the directory of the tool's source file. */
  function SessionCodebase(toolsDir: string, sessionId: string): (r: string)
    requires IsAbs(toolsDir)
    ensures IsAbs(r)
  {
    PathJoin(PathJoin(PathJoin(PathJoin(toolsDir, ".."), "tmp"), sessionId), "codebase")
  }

  /** The absolute path a tool opens for `filePath`, given relative to the
      session's codebase. */
  function FullPath(toolsDir: string, sessionId: string, filePath: string): (r: string)
    requires IsAbs(toolsDir)
    ensures IsAbs(r)
  {
    AbsPath(PathJoin(SessionCodebase(toolsDir, sessionId), filePath))
  }

  /** `os.path.abspath(os.path.join(current_dir, "..", "tmp", session_id,
      "sa_key.json"))`: the service-account key of the session. */
  function SaKeyPath(toolsDir: string, sessionId: string): (r: string)
    requires IsAbs(toolsDir)
    ensures IsAbs(r)
  {
    AbsPath(PathJoin(PathJoin(PathJoin(PathJoin(toolsDir, ".."), "tmp"), sessionId), "sa_key.json"))
  }

  /** The message of the `FileNotFoundError` that `open` raises. */
  function NoSuchFile(path: string): string {
    "[Errno 2] No such file or directory: " + StrRepr(path)
  }

  /** Reading in text mode turns "\r\n" and a lone "\r" into "\n". */
  function ReadText(content: string): (r: string)
    ensures '\r' !in r
  {
    var once := Replace(content, "\r\n", "\n");
    ReplaceRemoves(once, '\r', "\n");
    Replace(once, "\r", "\n")
  }

  /** The length of the first line of `s`, its "\n" included. */
  function LineLength(s: string): (n: nat)
    requires s != []
    ensures 1 <= n <= |s|
    ensures forall i :: 0 <= i < n - 1 ==> s[i] != '\n'
    ensures s[n - 1] == '\n' || n == |s|
  {
    if s[0] == '\n' || |s| == 1 then 1 else 1 + LineLength(s[1..])
  }

  /** `readlines()` on text: every line keeps its "\n"; only the last one may
      lack it. Joining the lines gives the text back. */
  function Lines(text: string): (r: seq<string>)
    ensures Concat(r) == text
    ensures forall k :: 0 <= k < |r| ==> r[k] != []
    ensures forall k :: 0 <= k < |r| - 1 ==> r[k][|r[k]| - 1] == '\n'
    ensures forall k, m :: 0 <= k < |r| && 0 <= m < |r[k]| - 1 ==> r[k][m] != '\n'
    decreases |text|
  {
    if text == [] then []
    else
      var n := LineLength(text);
      var rest := Lines(text[n..]);
      assert text[..n] + text[n..] == text;
      [text[..n]] + rest
  }

  /** The lines of a file as the tools read them. */
  function ReadLines(content: string): seq<string> {
    Lines(ReadText(content))
  }

  /** Where Python clamps a slice bound `i` on a sequence of length `n`: a
      negative bound counts from the end, and both ends stay in range. */
  function SliceIndex(n: nat, i: int): (r: nat)
    ensures r <= n
    ensures 0 <= i <= n ==> r == i
    ensures i > n ==> r == n
    ensures i < 0 ==> r == if i + n < 0 then 0 else i + n
  {
    if i < 0 then (if i + n < 0 then 0 else i + n) else if i > n then n else i
  }

  /** `xs[i:j]` */
  function Slice<T>(xs: seq<T>, i: int, j: int): (r: seq<T>)
    ensures var lo := SliceIndex(|xs|, i); var hi := SliceIndex(|xs|, j);
      r == if hi <= lo then [] else xs[lo..hi]
  {
    var lo := SliceIndex(|xs|, i);
    var hi := SliceIndex(|xs|, j);
    if hi <= lo then [] else xs[lo..hi]
  }

  /** Python's slice rules: in-range bounds take the subsequence, bounds past
      the end are cut to the length, a negative bound counts from the end and
      one below minus the length is cut to 0, and an empty range gives []. */
  lemma SliceRules<T>(xs: seq<T>, i: int, j: int)
    ensures 0 <= i <= j <= |xs| ==> Slice(xs, i, j) == xs[i..j]
    ensures 0 <= j <= i ==> Slice(xs, i, j) == []
    ensures i >= |xs| ==> Slice(xs, i, j) == []
    ensures j > |xs| ==> Slice(xs, i, j) == Slice(xs, i, |xs|)
    ensures -|xs| <= i < 0 ==> Slice(xs, i, j) == Slice(xs, i + |xs|, j)
    ensures -|xs| <= j < 0 ==> Slice(xs, i, j) == Slice(xs, i, j + |xs|)
    ensures i < -|xs| ==> Slice(xs, i, j) == Slice(xs, 0, j)
    ensures j < -|xs| ==> Slice(xs, i, j) == []
  {
  }
}
