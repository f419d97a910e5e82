/** The current branch as the pull-request tool reads it from the output of
    `git branch` (src/tools/pr_tool.py, `extract_current_branch`). */
module GitBranch {
  import opened PyStr
  import opened AgentState

  /** The message of the `IndexError` that indexing past the end of a list
      raises. */
  const IndexOutOfRange := "list index out of range"

  /** A line that `git branch` marks as the checked-out branch. */
  predicate Starred(line: string) {
    var t := Strip(line);
    t != [] && t[0] == '*'
  }

  /** The first marked line at or after `from`. */
  function FirstStarredFrom(lines: seq<string>, from: nat): (r: Option<nat>)
    requires from <= |lines|
    ensures r.Some? ==> from <= r.value < |lines| && Starred(lines[r.value])
    ensures r.Some? ==> forall j :: from <= j < r.value ==> !Starred(lines[j])
    ensures r.None? ==> forall j :: from <= j < |lines| ==> !Starred(lines[j])
    decreases |lines| - from
  {
    if from == |lines| then None
    else if Starred(lines[from]) then Some(from)
    else FirstStarredFrom(lines, from + 1)
  }

  /** The first marked line. */
  function FirstStarred(lines: seq<string>): (r: Option<nat>)
    ensures r.Some? ==> r.value < |lines| && Starred(lines[r.value])
    ensures r.Some? ==> forall j :: 0 <= j < r.value ==> !Starred(lines[j])
    ensures r.None? ==> forall j :: 0 <= j < |lines| ==> !Starred(lines[j])
  {
    FirstStarredFrom(lines, 0)
  }

  /** The first marked line is determined by the marks. */
  lemma FirstStarredAt(lines: seq<string>, i: nat)
    requires i < |lines| && Starred(lines[i]) && forall j :: 0 <= j < i ==> !Starred(lines[j])
    ensures FirstStarred(lines) == Some(i)
  {
    var r := FirstStarred(lines);
    assert r.Some?;
    assert r.value >= i;
  }

  /** The second word of the first marked line; an `IndexError` when that line
      has one word; `None` when no line is marked. */
  function CurrentBranch(lines: seq<string>): Result<Option<string>, string> {
    match FirstStarred(lines)
    case None => Success(None)
    case Some(k) =>
      var words := SplitWhitespace(Strip(lines[k]));
      if |words| < 2 then Failure(IndexOutOfRange) else Success(Some(words[1]))
  }

  /** `extract_current_branch` */
  method ExtractCurrentBranch(gitStdout: string) returns (r: Result<Option<string>, string>)
    ensures r == CurrentBranch(SplitLines(gitStdout))
  {
    var lines := SplitLines(gitStdout);
    for i := 0 to |lines|
      invariant forall j :: 0 <= j < i ==> !Starred(lines[j])
    {
      var line := Strip(lines[i]);
      if "*" <= line {
        assert Starred(lines[i]);
        FirstStarredAt(lines, i);
        var words := SplitWhitespace(line);
        if |words| < 2 {
          return Failure(IndexOutOfRange);
        }
        return Success(Some(words[1]));
      }
    }
    return Success(None);
  }

  /** One non-space character, one whitespace character and a word make two
      words. */
  lemma TwoWords(m: char, sp: char, b: string)
    requires !IsSpace(m) && IsSpace(sp)
    requires b != [] && forall i :: 0 <= i < |b| ==> !IsSpace(b[i])
    ensures SplitWhitespace([m] + ([sp] + b)) == [[m], b]
  {
    calc {
      SplitWhitespace([m] + ([sp] + b));
      { WordsCons([m], [sp] + b); }
      [[m]] + SplitWhitespace([sp] + b);
      { WordsSpace(sp, b); }
      [[m]] + SplitWhitespace(b);
      { WordsOne(b); }
      [[m]] + [b];
    }
  }

  /** The words of "* <b>" for a branch name without whitespace. */
  lemma MarkedLineWords(b: string)
    requires b != [] && forall i :: 0 <= i < |b| ==> !IsSpace(b[i])
    ensures SplitWhitespace("*" + (" " + b)) == ["*", b]
  {
    TwoWords('*', ' ', b);
  }

  /** "* <b>" is its own stripped form, and marked. */
  lemma MarkedLine(b: string)
    requires b != [] && forall i :: 0 <= i < |b| ==> !IsSpace(b[i])
    ensures Strip("*" + (" " + b)) == "*" + (" " + b) && Starred("*" + (" " + b))
  {
    var line := "*" + (" " + b);
    assert line[0] == '*';
    assert LStrip(line) == line;
    assert line[|line| - 1] == b[|b| - 1];
    assert RStrip(line) == line;
  }

  /** `git branch` marks the checked-out branch with "* ": the branch read
      back is the name on the first marked line, whatever lines come before
      unmarked or after. */
  lemma MarkedBranch(before: seq<string>, b: string, after: seq<string>)
    requires forall j :: 0 <= j < |before| ==> !Starred(before[j])
    requires b != [] && forall i :: 0 <= i < |b| ==> !IsSpace(b[i])
    ensures CurrentBranch(before + ["*" + (" " + b)] + after) == Success(Some(b))
  {
    var line := "*" + (" " + b);
    var lines := before + [line] + after;
    forall j | 0 <= j < |before| ensures !Starred(lines[j]) {
      assert lines[j] == before[j];
    }
    assert lines[|before|] == line;
    MarkedLine(b);
    FirstStarredAt(lines, |before|);
    MarkedLineWords(b);
  }

  /** Output with no marked line gives no branch. */
  lemma NoMarkedLine(lines: seq<string>)
    requires forall j :: 0 <= j < |lines| ==> !Starred(lines[j])
    ensures CurrentBranch(lines) == Success(None)
  {
  }
}
