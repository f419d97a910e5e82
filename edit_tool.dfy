/** The `edit` tool (src/tools/edit_tool.py): replace lines `startingLine` to
    `endingLine` (1-based, inclusive) of a codebase file by one new line of
    code. */
module EditTool {
  import opened PyStr
  import opened PosixPath
  import opened Workspace

  const StartError := "Error: Starting line must be greater than 0."
  const Edited := "File edited successfully"

  function MissingFile(filePath: string): string {
    "Error: File '" + filePath + "' does not exist."
  }

  /** The replacement line: `newCode` with a "\n" added unless it ends with one. */
  function CodeLine(newCode: string): (r: string)
    ensures r != [] && r[|r| - 1] == '\n'
    ensures r == newCode || r == newCode + "\n"
    ensures r == newCode <==> newCode != [] && newCode[|newCode| - 1] == '\n'
  {
    if newCode != [] && newCode[|newCode| - 1] == '\n' then newCode else newCode + "\n"
  }

  /** `lines[start - 1:end] = [CodeLine(newCode)]` on a copy of `lines`. */
  function Spliced(lines: seq<string>, start: int, end: int, newCode: string): (r: seq<string>)
    requires start >= 1
  {
    var lo := SliceIndex(|lines|, start - 1);
    var hi := SliceIndex(|lines|, end);
    lines[..lo] + [CodeLine(newCode)] + lines[if hi < lo then lo else hi..]
  }

  /** `edit`: the file's existence is checked first, then the starting line;
      only a successful edit writes the file. */
  method Edit(fs: FileSystem, toolsDir: string, sessionId: string, filePath: string,
              newCode: string, startingLine: int, endingLine: int) returns (result: string)
    requires IsAbs(toolsDir)
    modifies fs
    ensures var path := FullPath(toolsDir, sessionId, filePath);
      if path !in old(fs.files) then
        result == MissingFile(filePath) && fs.files == old(fs.files)
      else if startingLine < 1 then
        result == StartError && fs.files == old(fs.files)
      else
        result == Edited &&
        fs.files == old(fs.files)[path := Concat(Spliced(ReadLines(old(fs.files)[path]), startingLine, endingLine, newCode))]
  {
    var fullPath := FullPath(toolsDir, sessionId, filePath);
    if fullPath !in fs.files {
      return MissingFile(filePath);
    }
    if startingLine < 1 {
      return StartError;
    }
    var lines := ReadLines(fs.files[fullPath]);
    var updatedLines := lines;
    var lo := SliceIndex(|updatedLines|, startingLine - 1);
    var hi := SliceIndex(|updatedLines|, endingLine);
    if hi < lo {
      hi := lo;
    }
    updatedLines := updatedLines[..lo] + [CodeLine(newCode)] + updatedLines[hi..];
    fs.files := fs.files[fullPath := Concat(updatedLines)];
    result := Edited;
  }

  // ---------------------------------------------------------------------------
  // Properties of the splice

  /** The lines before `start` are kept, the new code is one line, and the
      lines after `end` follow unchanged; exactly the lines `start..end` that
      exist are removed. */
  lemma SplicedLayout(lines: seq<string>, start: int, end: int, newCode: string)
    requires start >= 1 && end >= 0
    ensures var r := Spliced(lines, start, end, newCode);
      var lo := if start - 1 <= |lines| then start - 1 else |lines|;
      var hi := if end < lo then lo else if end <= |lines| then end else |lines|;
      && r[..lo] == lines[..lo]
      && r[lo] == CodeLine(newCode)
      && r[lo + 1..] == lines[hi..]
      && |r| == |lines| - (hi - lo) + 1
  {
    var lo := SliceIndex(|lines|, start - 1);
    var hi := SliceIndex(|lines|, end);
    var r := Spliced(lines, start, end, newCode);
    assert r == lines[..lo] + [CodeLine(newCode)] + lines[if hi < lo then lo else hi..];
    assert r[..lo] == lines[..lo];
    assert r[lo + 1..] == lines[if hi < lo then lo else hi..];
  }

  /** An ending line past the end of the file replaces everything from the
      starting line on. */
  lemma EndPastFile(lines: seq<string>, start: int, end: int, newCode: string)
    requires 1 <= start <= |lines| + 1 && end >= |lines|
    ensures Spliced(lines, start, end, newCode) == lines[..start - 1] + [CodeLine(newCode)]
  {
    assert lines[|lines|..] == [];
  }

  /** An ending line before the starting line removes nothing: the new code is
      inserted before the starting line. */
  lemma EndBeforeStart(lines: seq<string>, start: int, end: int, newCode: string)
    requires 1 <= start <= |lines| + 1 && 0 <= end < start
    ensures Spliced(lines, start, end, newCode) == lines[..start - 1] + [CodeLine(newCode)] + lines[start - 1..]
  {
  }

  /** A starting line past the end of the file appends the new code. */
  lemma StartPastFile(lines: seq<string>, start: int, end: int, newCode: string)
    requires start > |lines| + 1
    ensures Spliced(lines, start, end, newCode) == lines + [CodeLine(newCode)]
  {
    assert lines[..|lines|] == lines && lines[|lines|..] == [];
  }

  /** The edited file is the old text before the starting line, the new code
      line, and the old text after the ending line. */
  lemma EditedText(lines: seq<string>, start: int, end: int, newCode: string)
    requires start >= 1 && end >= 0
    ensures var lo := if start - 1 <= |lines| then start - 1 else |lines|;
      var hi := if end < lo then lo else if end <= |lines| then end else |lines|;
      Concat(Spliced(lines, start, end, newCode)) == Concat(lines[..lo]) + CodeLine(newCode) + Concat(lines[hi..])
  {
    var lo := SliceIndex(|lines|, start - 1);
    var hi := if end < lo then lo else SliceIndex(|lines|, end);
    var code := CodeLine(newCode);
    assert Spliced(lines, start, end, newCode) == lines[..lo] + [code] + lines[hi..];
    ConcatAppend(lines[..lo] + [code], lines[hi..]);
    ConcatAppend(lines[..lo], [code]);
    assert Concat([code]) == code + Concat([]);
  }
}
