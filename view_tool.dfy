/** The `view` tool (src/tools/view_tool.py): a window of a codebase file's
    lines, numbered from 1 within the window, between a count of the lines
    above and a count of the lines below. */
module ViewTool {
  import opened PyStr
  import opened PosixPath
  import opened Workspace
  import opened AgentState

  const StartError := "Starting line must be greater than 0"

  /** A window line with its number in the window. */
  function NumberedLine(k: nat, line: string): string {
    NatToString(k) + ": " + line
  }

  /** Every line of the window numbered, the first as 1. */
  function Numbered(window: seq<string>): (r: seq<string>)
    ensures |r| == |window|
    ensures forall k :: 0 <= k < |window| ==> r[k] == NumberedLine(k + 1, window[k])
  {
    seq(|window|, k requires 0 <= k < |window| => NumberedLine(k + 1, window[k]))
  }

  function Header(above: nat): string {
    "There's " + NatToString(above) + " lines above\n"
  }

  function Footer(below: nat): string {
    "\nThere's " + NatToString(below) + " lines below\n"
  }

  /** The lines below the window: the file length minus the ending line, and
      0 when that is not positive. */
  function Below(n: nat, end: int): (r: nat)
    ensures r == 0 || r == n - end
    ensures n - end <= 0 <==> r == 0
  {
    if n - end <= 0 then 0 else n - end
  }

  /** What `view` returns for the lines of a file. */
  function ViewText(lines: seq<string>, start: int, end: int): string {
    if start > 0 then
      Header(start - 1) + Concat(Numbered(Slice(lines, start - 1, end))) + Footer(Below(|lines|, end))
    else StartError
  }

  /** The loop that prefixes each window line with its number, in place. */
  method NumberLines(window: seq<string>) returns (numbered: seq<string>)
    ensures numbered == Numbered(window)
  {
    numbered := window;
    for i := 0 to |numbered|
      invariant |numbered| == |window|
      invariant numbered[..i] == Numbered(window)[..i]
      invariant numbered[i..] == window[i..]
    {
      numbered := numbered[i := NumberedLine(i + 1, numbered[i])];
    }
  }

  lemma FramedText(header: string, body: seq<string>, footer: string)
    ensures Concat([header] + body + [footer]) == header + Concat(body) + footer
  {
    ConcatAppend([header] + body, [footer]);
    ConcatAppend([header], body);
    assert Concat([header]) == header + Concat([]);
    assert Concat([footer]) == footer + Concat([]);
  }

  lemma ViewTextFramed(lines: seq<string>, start: int, end: int)
    requires start > 0
    ensures ViewText(lines, start, end)
      == Concat([Header(start - 1)] + Numbered(Slice(lines, start - 1, end)) + [Footer(Below(|lines|, end))])
  {
    FramedText(Header(start - 1), Numbered(Slice(lines, start - 1, end)), Footer(Below(|lines|, end)));
  }

  /** `view`: the file is read first, so a missing file raises whatever the
      line numbers are; the starting line is checked next. */
  method View(fs: FileSystem, toolsDir: string, sessionId: string, filePath: string,
              startingLine: int, endingLine: int) returns (outcome: Result<string, string>)
    requires IsAbs(toolsDir)
    ensures var path := FullPath(toolsDir, sessionId, filePath);
      outcome == if path in fs.files then Success(ViewText(ReadLines(fs.files[path]), startingLine, endingLine))
                 else Failure(NoSuchFile(path))
  {
    var path := FullPath(toolsDir, sessionId, filePath);
    if path !in fs.files {
      return Failure(NoSuchFile(path));
    }
    var lines := ReadLines(fs.files[path]);
    if startingLine > 0 {
      var aboveCount: nat := startingLine - 1;
      var belowCount := |lines| - endingLine;
      if belowCount <= 0 {
        belowCount := 0;
      }
      var window := NumberLines(Slice(lines, startingLine - 1, endingLine));
      window := [Header(aboveCount)] + window;
      window := window + [Footer(belowCount)];
      assert belowCount == Below(|lines|, endingLine);
      ViewTextFramed(lines, startingLine, endingLine);
      return Success(Concat(window));
    } else {
      return Success(StartError);
    }
  }

  // ---------------------------------------------------------------------------
  // Properties

  /** The window is the file's lines `start` to `end` that exist: clamped to
      the file, and empty when the ending line comes before the starting
      line. */
  lemma WindowLines(lines: seq<string>, start: int, end: int)
    requires start >= 1 && end >= 0
    ensures var w := Slice(lines, start - 1, end);
      var lo := if start - 1 <= |lines| then start - 1 else |lines|;
      && (end < start ==> w == [])
      && (start <= end ==> w == lines[lo..if end <= |lines| then end else |lines|])
  {
  }

  /** The `k`-th line of the window is file line `start + k`, shown with the
      number `k + 1`, not its line number in the file. */
  lemma RelativeNumbering(lines: seq<string>, start: int, end: int, k: nat)
    requires start >= 1 && start <= end && start - 1 + k < |lines| && start + k <= end
    ensures var w := Numbered(Slice(lines, start - 1, end));
      k < |w| && w[k] == NumberedLine(k + 1, lines[start - 1 + k])
  {
    WindowLines(lines, start, end);
  }

  /** The output is the count of lines above (not clamped to the file), the
      numbered window, and the count of lines below (never negative). */
  lemma ViewLayout(lines: seq<string>, start: int, end: int)
    requires start >= 1
    ensures ViewText(lines, start, end)
      == "There's " + NatToString(start - 1) + " lines above\n"
       + Concat(Numbered(Slice(lines, start - 1, end)))
       + "\nThere's " + NatToString(if end >= |lines| then 0 else |lines| - end) + " lines below\n"
  {
    var body := Header(start - 1) + Concat(Numbered(Slice(lines, start - 1, end)));
    var below := NatToString(Below(|lines|, end));
    AppendAssoc(body, "\nThere's " + below, " lines below\n");
    AppendAssoc(body, "\nThere's ", below);
  }

  lemma NoneAboveOrBelow()
    ensures Header(0) == "There's 0 lines above\n" && Footer(0) == "\nThere's 0 lines below\n"
  {
    assert NatToString(0) == "0";
  }

  /** Viewing a whole file shows every line, with nothing above or below. */
  lemma WholeFile(lines: seq<string>)
    ensures ViewText(lines, 1, |lines|) == Header(0) + Concat(Numbered(lines)) + Footer(0)
  {
    assert lines[0..|lines|] == lines;
  }
}
