/** The guard of the `terraform_command_executor` tool
    (src/tools/terraform_tool.py): which commands it runs, and the replies it
    gives. The shell run itself is a parameter. */
module TerraformTool {
  import opened PyStr
  import opened PosixPath
  import opened Workspace

  /** `valid_operations`, in the order the loop tries them. */
  const ValidOperations: seq<string> := ["init", "plan", "validate", "fmt", "show", "state list"]

  const BackendRequired := "To use init command you should always provide backend config file to get the state"

  function InvalidOperation(): string {
    "The operation in your command is not valid. Valid operations: " + StrListRepr(ValidOperations)
  }

  /** What the shell hands back. */
  datatype Captured = Captured(stdout: string, stderr: string)

  /** A shell run: the command line, its working directory and the value of
      GOOGLE_APPLICATION_CREDENTIALS. */
  datatype Invocation = Invocation(cmd: string, cwd: string, credentials: string)

  /** A plain message, or the dictionary `{'success', 'stdout', 'stderr'}`. */
  datatype Reply = Message(text: string) | Outcome(success: bool, stdout: string, stderr: string)

  /** What the handler returns when the command has no second token. */
  const Fallback := Outcome(true, "result.stdout", "result.stderr")

  /** Some allowed operation occurs in the command, anywhere. */
  predicate NamesOperation(command: string) {
    exists i :: 0 <= i < |ValidOperations| && Contains(command, ValidOperations[i])
  }

  /** The four ways the guard ends. */
  datatype Verdict = NoSecondToken | Invalid | NoBackend | Run

  /** The guard as written: the operation loop cannot fail, the apply check
      raises `IndexError` without a space, then the two rejections. */
  function Guard(command: string): Verdict {
    var fields := SplitChar(command, ' ');
    if |fields| < 2 then NoSecondToken
    else if !NamesOperation(command) || fields[1] == "apply" then Invalid
    else if Contains(command, "init") && !Contains(command, "-backend-config") then NoBackend
    else Run
  }

  /** The command line run from the tools directory. */
  function ShellCommand(sessionId: string, dirExecution: string, command: string): string {
    "cd .. && cd tmp && cd " + sessionId + " && cd codebase && cd " + dirExecution + " && " + command
  }

  /** The loop over `valid_operations` that stops at the first one found. */
  method FindValidOperation(command: string) returns (valid: bool)
    ensures valid == NamesOperation(command)
  {
    valid := false;
    var i := 0;
    while i < |ValidOperations|
      invariant 0 <= i <= |ValidOperations|
      invariant !valid
      invariant forall j :: 0 <= j < i ==> !Contains(command, ValidOperations[j])
    {
      if Contains(command, ValidOperations[i]) {
        valid := true;
        break;
      }
      i := i + 1;
    }
  }

  /** `terraform_command_executor`: `ran` is the shell run it makes, if any. */
  method TerraformCommandExecutor(toolsDir: string, sessionId: string, command: string, dirExecution: string,
                                  shell: Invocation -> Captured) returns (reply: Reply, ran: Option<Invocation>)
    requires IsAbs(toolsDir)
    ensures Guard(command) == NoSecondToken ==> reply == Fallback && ran == None
    ensures Guard(command) == Invalid ==> reply == Message(InvalidOperation()) && ran == None
    ensures Guard(command) == NoBackend ==> reply == Message(BackendRequired) && ran == None
    ensures Guard(command) == Run ==>
      var run := Invocation(ShellCommand(sessionId, dirExecution, command), toolsDir, SaKeyPath(toolsDir, sessionId));
      ran == Some(run) && reply == Outcome(true, shell(run).stdout, shell(run).stderr)
  {
    var validOperation := FindValidOperation(command);
    var fields := SplitChar(command, ' ');
    if |fields| < 2 {
      return Fallback, None;
    }
    if fields[1] == "apply" {
      validOperation := false;
    }
    if !validOperation {
      return Message(InvalidOperation()), None;
    }
    if Contains(command, "init") && !Contains(command, "-backend-config") {
      return Message(BackendRequired), None;
    }
    var run := Invocation(ShellCommand(sessionId, dirExecution, command), toolsDir, SaKeyPath(toolsDir, sessionId));
    var result := shell(run);
    return Outcome(true, result.stdout, result.stderr), Some(run);
  }

  // ---------------------------------------------------------------------------
  // Properties of the guard

  /** A command runs exactly when it has a second token other than "apply",
      names an allowed operation somewhere, and carries a backend config
      whenever it mentions init. */
  lemma RunsExactly(command: string)
    ensures Guard(command) == Run <==>
      var fields := SplitChar(command, ' ');
      && |fields| >= 2 && fields[1] != "apply"
      && NamesOperation(command)
      && (Contains(command, "init") ==> Contains(command, "-backend-config"))
  {
  }

  /** A command whose second token is "apply" never runs, whatever else it
      contains. */
  lemma ApplyRefused(command: string)
    requires |SplitChar(command, ' ')| >= 2 && SplitChar(command, ' ')[1] == "apply"
    ensures Guard(command) == Invalid
  {
  }

  /** A command without a space ends in the handler's fallback. */
  lemma NoSpaceFallback(command: string)
    requires ' ' !in command
    ensures Guard(command) == NoSecondToken
  {
    SplitCharNone(command, ' ');
  }

  /** Splitting a command at its first space. */
  lemma FirstSpace(head: string, tail: string)
    requires ' ' !in head
    ensures SplitChar(head + " " + tail, ' ') == [head] + SplitChar(tail, ' ')
  {
    assert head + " " + tail == head + [' '] + tail;
    SplitCharAppend(head, ' ', tail);
    SplitCharNone(head, ' ');
  }

  /** The second token of a command, when there is one, occurs in it. */
  lemma SecondTokenOccurs(command: string)
    requires |SplitChar(command, ' ')| >= 2
    ensures var fields := SplitChar(command, ' ');
      OccursAt(command, fields[1], |fields[0]| + 1)
  {
    var fields := SplitChar(command, ' ');
    JoinSplitChar(command, ' ');
    assert fields == [fields[0]] + fields[1..];
    var tail := Join(" ", fields[1..]);
    assert command == fields[0] + " " + tail;
    assert tail[..|fields[1]|] == fields[1];
  }

  /** "state list" split over the second and third tokens occurs in the
      command. */
  lemma StateListOccurs(command: string)
    requires |SplitChar(command, ' ')| >= 3
    requires SplitChar(command, ' ')[1] == "state" && SplitChar(command, ' ')[2] == "list"
    ensures Contains(command, "state list")
  {
    var fields := SplitChar(command, ' ');
    JoinSplitChar(command, ' ');
    assert fields == [fields[0]] + fields[1..];
    var tail := Join(" ", fields[1..]);
    assert command == fields[0] + " " + tail;
    assert fields[1..] == ["state"] + fields[2..];
    assert tail == "state" + " " + Join(" ", fields[2..]);
    assert Join(" ", fields[2..])[..4] == "list";
    assert command[|fields[0]| + 1..|fields[0]| + 11] == "state list";
    ContainsAt(command, "state list", |fields[0]| + 1);
  }

  // ---------------------------------------------------------------------------
  // The guard as intended

  /** A character that lets the shell run a second command. */
  predicate ChainsCommands(c: char) {
    c == ';' || c == '&' || c == '|' || c == '`' || c == '$' || c == '\n'
  }

  /** Some character of the command chains on a second command. */
  predicate Chained(command: string) {
    exists k :: 0 <= k < |command| && ChainsCommands(command[k])
  }

  /** The second token names an allowed operation ("state list" spans two
      tokens). */
  predicate OperationToken(fields: seq<string>) {
    |fields| >= 2 &&
    (fields[1] in ["init", "plan", "validate", "fmt", "show"]
     || (fields[1] == "state" && |fields| >= 3 && fields[2] == "list"))
  }

  /** The guard with the allowed operation required as the command's own
      operation, no second command chained on, and a one-word command
      refused. */
  function IntendedGuard(command: string): Verdict {
    var fields := SplitChar(command, ' ');
    if !OperationToken(fields) || Chained(command) then Invalid
    else if Contains(command, "init") && !Contains(command, "-backend-config") then NoBackend
    else Run
  }

  /** An operation named by the second token occurs in the command. */
  lemma TokenNamesOperation(command: string)
    requires OperationToken(SplitChar(command, ' '))
    ensures NamesOperation(command)
  {
    var fields := SplitChar(command, ' ');
    if fields[1] == "state" && |fields| >= 3 && fields[2] == "list" {
      StateListOccurs(command);
      assert ValidOperations[5] == "state list";
    } else {
      SecondTokenOccurs(command);
      ContainsAt(command, fields[1], |fields[0]| + 1);
      assert ValidOperations[..5] == ["init", "plan", "validate", "fmt", "show"];
      assert fields[1] in ValidOperations[..5];
    }
  }

  /** What the intended guard runs is the allowed operation itself, with no
      second command. */
  lemma IntendedRunsAllowed(command: string)
    requires IntendedGuard(command) == Run
    ensures OperationToken(SplitChar(command, ' '))
    ensures forall k :: 0 <= k < |command| ==> !ChainsCommands(command[k])
  {
  }

  /** The intended guard runs no command that the guard as written refuses. */
  lemma IntendedRunsLess(command: string)
    requires IntendedGuard(command) == Run
    ensures Guard(command) == Run
  {
    var fields := SplitChar(command, ' ');
    assert OperationToken(fields);
    assert fields[1] != "apply";
    assert Contains(command, "init") ==> Contains(command, "-backend-config");
    TokenNamesOperation(command);
    RunsExactly(command);
  }

  lemma InitToken(head: string, tail: string)
    requires ' ' !in head
    ensures var fields := SplitChar(head + " init -backend-config" + tail, ' ');
      |fields| >= 2 && fields[1] == "init"
  {
    var rest := "-backend-config" + tail;
    assert head + " init -backend-config" + tail == head + " " + ("init" + " " + rest);
    FirstSpace(head, "init" + " " + rest);
    FirstSpace("init", rest);
  }

  /** Any command whose second token is "init" followed by "-backend-config"
      runs under the guard as written, whatever follows: "&& terraform apply"
      included. */
  lemma InitThenAnythingRuns(head: string, tail: string)
    requires ' ' !in head
    ensures Guard(head + " init -backend-config" + tail) == Run
  {
    var command := head + " init -backend-config" + tail;
    InitToken(head, tail);
    var mid := " init -backend-config";
    assert command[|head|..|head| + 21] == mid;
    assert mid[1..5] == "init" && mid[6..] == "-backend-config";
    assert command[|head| + 1..|head| + 5] == mid[1..5];
    assert command[|head| + 6..|head| + 21] == mid[6..];
    ContainsAt(command, "init", |head| + 1);
    assert ValidOperations[0] == "init";
    ContainsAt(command, "-backend-config", |head| + 6);
    RunsExactly(command);
  }

  /** The intended guard refuses those commands as soon as a second command
      is chained on. */
  lemma InitThenChainRefused(head: string, tail: string, k: nat)
    requires k < |tail| && ChainsCommands(tail[k])
    ensures IntendedGuard(head + " init -backend-config" + tail) == Invalid
  {
    var command := head + " init -backend-config" + tail;
    assert command[|head| + 21 + k] == tail[k];
  }

  /** The guard as written answers a one-word command with the fallback
      dictionary; the intended guard refuses it. */
  lemma OneWordCommand()
    ensures Guard("terraform") == NoSecondToken && IntendedGuard("terraform") == Invalid
  {
    NoSpaceFallback("terraform");
  }
}
