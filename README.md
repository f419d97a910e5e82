# A verified model of the infrastructure-repair agent's workflow and tools

The agent takes a user's query about a set of infrastructure repositories.
A router sends the query either to a plain chatbot or to a planning loop:

- the **planner** writes the next step;
- the **executor** answers that step with language-model replies that may call tools;
- a **tool node** runs those calls;
- a **preplanner** writes the executor's transcript into the planner's history;
- a **summarizer** writes the final answer once the planner declares the work done.

The workflow keeps one session record (the LangGraph state). Two message lists in it are merged by the `add_messages` reducer; every other field is overwritten by what a node returns.

This project models that orchestration in Dafny:

- the state record and the reducer;
- every node as a method of a `Session` class;
- the edge table as a transition relation;
- the tool dispatcher;
- the transcript renderers;
- one planner round run to its end.

It also models the deterministic parts of the tools the executor calls:

- the plan-to-Markdown formatter;
- the line splice of `edit`;
- the numbered window of `view`;
- the command guard of `terraform_command_executor`;
- the path checks of `create_file`;
- the branch parsing, repository lookups, URL parsing and pull-request selection of `create_pull_request`;
- the entry collection and counting of `retrieve_logs`.

Inputs the model takes as parameters:

- **Language-model replies** are oracle inputs: a function from the transcript to a reply (text, tool calls, an opaque `additional_kwargs` payload and a usage pair).
- **Tools** are a function from a tool name and its arguments to an outcome.
- **The shell, git, the GitHub API, the token exchange and the logging client** are functions or values handed in. The model records the calls made on them.
- **The session's files** are a `FileSystem` object holding a map from absolute path to content.

Modules:

| module | file | models |
|---|---|---|
| `PyStr` | strings.dfy | the Python `str` operations the source relies on (`strip`, `lower`, `split`, `splitlines`, `join`, `replace`, `find`, `repr`) |
| `PosixPath` | paths.dfy | `os.path.join`, `abspath`/`normpath` and `relpath` on POSIX paths |
| `Workspace` | workspace.dfy | where a tool path lands on disk, `readlines()` in text mode, Python slice-bound clamping |
| `AgentState` | state.dfy | `src/workflow/state.py`: the `State` record, messages and the `add_messages` reducer |
| `Nodes` | nodes.dfy | `src/workflow/nodes.py`: router, planner decision and the `Session` class with one method per node |
| `Graph` | graph.dfy | `src/workflow/graph.py`: edges, `tools_condition_executor`, `custom_tool_node`, `messages_to_trajectory_string`, one planner round |
| `FormatPlan` | format_plan.dfy | `src/utlis/format_plan.py` |
| `EditTool`, `ViewTool`, `CreateFileTool`, `TerraformTool` | edit_tool.dfy, view_tool.dfy, create_file_tool.dfy, terraform_tool.dfy | the tools of the same names |
| `GitBranch`, `PullRequestTool` | git_branch.dfy, pr_tool.dfy | `src/tools/pr_tool.py` |
| `RetrieveLogTool` | retrieve_log_tool.dfy | `src/tools/retrieve_log_tool.py` |

The key theorem is `Graph.PlannerRound`. In every planner round, the executor⇄tools loop reaches the preplanner after at most `max_cycle_executor + 1` executor visits and at most `max_cycle_executor` model calls. The reason is that each executor visit spends one cycle of the budget the planner reset, and a spent budget yields a message without tool calls.

## Model

| member | source | states |
|---|---|---|
| AgentState.AppendOnly | src/workflow/state.py:21-22 | merging messages with fresh, distinct ids appends them: the list is the old list followed by the new messages |
| AgentState.ClearAndSeed | src/workflow/state.py:21-22 | removing every old message by id and adding fresh ones leaves exactly the fresh messages |
| AgentState.RemoveUnknownFails | src/workflow/state.py:21-22 | a removal whose id is not in the list makes the merge fail |
| AgentState.IndexOfId | src/workflow/state.py:21-22 | the position of a message with a given id is found exactly when the id occurs in the list |
| AgentState.Rendered | src/workflow/nodes.py:91-106 | the rendered entries of a transcript, at most one per message |
| AgentState.RenderedSnoc | src/workflow/nodes.py:91-106 | rendering one more message adds that message's entry, if any, at the end |
| Nodes.RouterPlannerExactly | src/workflow/nodes.py:70-75 | the router picks the planner if and only if the reply is whitespace, a word that lower-cases to "code", then whitespace; anything else goes to the chatbot |
| Nodes.IsCompletionExactly | src/workflow/nodes.py:195-200 | the completion pattern accepts exactly "reasoning:" + a non-empty middle + "step:" + whitespace + "done", in both directions |
| Nodes.PlannerDecisionEndsExactly | src/workflow/nodes.py:195-202 | `planner_decision` ends the workflow if and only if the stripped, lower-cased step has the completion shape |
| Nodes.PlannerDecisionContinueExample | src/workflow/nodes.py:195-202 | "Step: done" alone goes to the executor |
| Nodes.PreplannerTextShape | src/workflow/nodes.py:89-107 | the preplanner's text is its header followed by each AI/tool entry preceded by "\n---\n" |
| Nodes.RenderPreplanner | src/workflow/nodes.py:89-107 | the preplanner's loop builds exactly the specified text: system and human messages skipped, tool calls and tool-call ids shown only when present |
| Nodes.Session.constructor | src/workflow/graph.py:102-111 | the session starts with the query, the codebase and the credentials; empty transcripts, plans and history; zero cycle and tokens; a budget of 2 cycles |
| Nodes.Session.Chatbot | src/workflow/nodes.py:77-88 | the reply becomes the answer, its usage is added to the totals, and nothing else changes |
| Nodes.Session.Summarizer | src/workflow/nodes.py:203-214 | the same update as the chatbot, from the summary reply |
| Nodes.Session.AppendToBoth | src/workflow/graph.py:62 | the same fresh messages are appended to both transcripts, and ids stay distinct |
| Nodes.Session.SeedExecutor | src/workflow/nodes.py:138-144 | after the reducer has removed every old message and added the new ones, the executor transcript is exactly [directive, query] |
| Nodes.Session.Planner | src/workflow/nodes.py:108-150 | the planner update: executor transcript exactly [directive, query]; one more plan and one more "STEP: \n"+reply history entry; the step is the reply; the cycle is 0; usage is added; the evaluation transcript is untouched |
| Nodes.Session.Executor | src/workflow/nodes.py:152-183 | with the budget spent, no model call and the idle message; on stagnation (entry [-2] has the same payload), the idle message and no usage; otherwise the reply is appended to both transcripts and its usage added. Every path adds exactly one to the cycle |
| Nodes.Session.Emit | src/workflow/nodes.py:165-183 | the end of every executor path: one message to both transcripts, the cycle plus one, the given usage added |
| Nodes.Session.Preplanner | src/workflow/nodes.py:89-107 | exactly one entry is appended to `previous_steps_actions`: the rendered executor transcript |
| Nodes.MergeAppend | src/workflow/state.py:21-22 | the reducer appends fresh messages, and the merged list keeps distinct ids |
| Nodes.MergeReseed | src/workflow/nodes.py:142-144 | removing every old message and adding fresh ones gives exactly the fresh messages |
| Nodes.SeedFresh | src/workflow/nodes.py:142-144 | the clear-and-seed update succeeds whenever the new ids are fresh |
| Graph.RouterTarget | src/workflow/graph.py:90 | the router's path map: "planner" leads to the planner and "chatbot" to the chatbot, both successors of `initiate_state` |
| Graph.DecisionTarget | src/workflow/graph.py:93 | the planner's path map: the end route leads to the summarizer and the continue route to the executor, both successors of the planner |
| Graph.ExecutorTarget | src/workflow/graph.py:94 | the executor's path map: "tools" leads to the tool node and "__end__" to the preplanner, both successors of the executor |
| Graph.ToolsConditionExecutor | src/workflow/graph.py:64-72 | an error exactly on an empty transcript; "tools" if and only if the last message has tool calls |
| Graph.EveryCycleVisitsExecutor | src/workflow/graph.py:89-97 | every cycle of the graph passes through the executor |
| Graph.OnlySinkIsFinalState | src/workflow/graph.py:89-97 | `final_state` is the only node without successors |
| Graph.FindTool | src/workflow/graph.py:34-39 | the registry search finds a tool if and only if its name is registered |
| Graph.WithoutState | src/workflow/graph.py:44 | the arguments keep every pair except the model-supplied `state` |
| Graph.Answers | src/workflow/graph.py:30-59 | at most one result per call, each a tool message with a fresh id in order |
| Graph.AnswersPairCalls | src/workflow/graph.py:30-59 | when every call names a registered tool, the k-th result answers the k-th call with its id and the tool's outcome; a raising tool gives "Error executing <name>: <msg>" |
| Graph.UnknownToolsUnanswered | src/workflow/graph.py:34-39 | calls to unknown tools get no result message |
| Graph.AnswersFromCalls | src/workflow/graph.py:30-59 | every result answers a registered call of the list; no result is invented |
| Graph.AnswersDistinct | src/workflow/graph.py:30-59 | the result messages have distinct ids |
| Graph.RunCalls | src/workflow/graph.py:30-52 | the dispatch loop produces exactly the specified results |
| Graph.ToolNode | src/workflow/graph.py:17-62 | an empty update when the last message has no tool calls; otherwise the same results are appended to both transcripts |
| Graph.MessagesToTrajectoryString | src/workflow/graph.py:125-151 | the loop renders the evaluation transcript entry by entry: "AI: "/"TOOL: " prefixes, "<Type>: " for other kinds, joined by "\n---\n" |
| Graph.TrajectoryEntryCount | src/workflow/graph.py:125-151 | the trajectory has one entry per message that is not a system or human message |
| Graph.PreplannerTextIsHeaderAndTrajectory | src/workflow/graph.py:125-151 | without tool results, the preplanner's text is its header, the separator and the evaluation trajectory |
| Graph.PlannerRound | src/workflow/graph.py:93-96 | one planner round ends: at the summarizer exactly when the decision is done, otherwise back at the planner after at most `max_cycle_executor`+1 executor visits, one tool visit fewer, at most `max_cycle_executor` model calls |
| Graph.ExecutorLoop | src/workflow/graph.py:94-95 | the executor⇄tools loop from a fresh cycle counter ends within the budget bound, with one tool visit between consecutive executor visits |
| Graph.ExecutorThenTools | src/workflow/graph.py:94-95 | one executor visit and the tool node after it spend exactly one cycle; the loop continues only while the budget was not spent |
| FormatPlan.SkipSpace | src/utlis/format_plan.py:11-12 | `\s*`: the first non-whitespace position at or after j |
| FormatPlan.KeyColonExactly | src/utlis/format_plan.py:11-12 | `key\s*:` matches at position i, case-insensitively, if and only if the scanner reports a match there, and the end of that match is unique |
| FormatPlan.SearchKey | src/utlis/format_plan.py:11-12 | `re.search` finds the leftmost match of key + `\s*:` |
| FormatPlan.ReasoningEnd | src/utlis/format_plan.py:11 | the lazy reasoning group stops at the first newline, word-boundary "step" + `\s*:`, or the end |
| FormatPlan.LineStop | src/utlis/format_plan.py:12 | `(.*)` stops at the first newline |
| FormatPlan.BlocksAt | src/utlis/format_plan.py:6-18 | block i of the output is the formatted block of plan i |
| FormatPlan.FormatPlansToMarkdown | src/utlis/format_plan.py:3-20 | the loop's output is the blocks joined by "\n\n" ("" for no plans) |
| FormatPlan.ReasoningOneLine | src/utlis/format_plan.py:11-14 | the reasoning text never contains a newline |
| FormatPlan.StepOneLine | src/utlis/format_plan.py:12-15 | the step text never contains a newline |
| FormatPlan.BlockIsTwoLines | src/utlis/format_plan.py:17 | every block has exactly one newline: a reasoning line and a step line |
| FormatPlan.NormalizeDropsCarriageReturns | src/utlis/format_plan.py:8 | normalisation removes every '\r' |
| FormatPlan.NormalizeKeepsOut | src/utlis/format_plan.py:8 | normalisation introduces no character other than newline |
| FormatPlan.NoColonMeansNA | src/utlis/format_plan.py:11-17 | a plan without ':' renders both clauses as "N/A" |
| FormatPlan.WellFormedPlanRenders | src/utlis/format_plan.py:8-17 | "Reasoning: R Step: S", with plain R and S, renders R and S |
| FormatPlan.StepKeyAt | src/utlis/format_plan.py:12 | in a well-formed plan the step key is found right after the reasoning |
| FormatPlan.ReasoningOfWellFormed | src/utlis/format_plan.py:11 | the reasoning group of a well-formed plan is R (with the space before "Step") |
| FormatPlan.StepOfWellFormed | src/utlis/format_plan.py:12 | the step group of a well-formed plan is S |
| EditTool.CodeLine | src/tools/edit_tool.py:59 | the new code as one line: it always ends in "\n", and one is added only when missing |
| EditTool.Edit | src/tools/edit_tool.py:42-66 | a missing file gives the does-not-exist error and writes nothing; a start below 1 gives the start error and writes nothing; otherwise the file becomes the spliced lines and the reply is "File edited successfully" |
| EditTool.SplicedLayout | src/tools/edit_tool.py:58-59 | the lines before the start are kept, the new code is one line, the lines after the end follow, and exactly the existing lines start..end are removed |
| EditTool.EndPastFile | src/tools/edit_tool.py:59 | an end past the file replaces everything from the start on |
| EditTool.EndBeforeStart | src/tools/edit_tool.py:59 | an end before the start removes nothing: the code is inserted before the start line |
| EditTool.StartPastFile | src/tools/edit_tool.py:59 | a start past the end appends the code |
| EditTool.EditedText | src/tools/edit_tool.py:59-64 | the written text is the old text before the start, the code line, and the old text after the end |
| ViewTool.Below | src/tools/view_tool.py:38-40 | the lines-below count is the file length minus the end, and 0 exactly when that is not positive |
| ViewTool.NumberLines | src/tools/view_tool.py:41-42 | the in-place numbering loop gives the numbered window |
| ViewTool.View | src/tools/view_tool.py:30-47 | a missing file raises before the line check; a start ≤ 0 gives the start error; otherwise the header, the numbered window and the footer |
| ViewTool.WindowLines | src/tools/view_tool.py:36 | the window is the file's lines start..end clamped to the file, and empty when the end comes before the start |
| ViewTool.RelativeNumbering | src/tools/view_tool.py:41-42 | the k-th window line is file line start+k, shown with number k+1 |
| ViewTool.ViewLayout | src/tools/view_tool.py:37-45 | the output is "There's {start-1} lines above\n" (not clamped), the numbered lines, then "\nThere's {max(0, n-end)} lines below\n" |
| ViewTool.WholeFile | src/tools/view_tool.py:35-45 | viewing lines 1..n shows every line, with nothing above or below |
| TerraformTool.FindValidOperation | src/tools/terraform_tool.py:44-49 | the operation loop succeeds if and only if some allowed operation occurs anywhere in the command |
| TerraformTool.TerraformCommandExecutor | src/tools/terraform_tool.py:41-87 | with no second token, the literal fallback dictionary; an invalid operation or an "apply" second token gives the invalid message; init without backend config gives the backend message; none of these runs anything; otherwise exactly one run with the session's key, and 'success': True with its output |
| TerraformTool.ApplyRefused | src/tools/terraform_tool.py:50-53 | a second token "apply" is refused whatever else the command contains |
| TerraformTool.NoSpaceFallback | src/tools/terraform_tool.py:50-51 | a command without a space has no second token: the apply check raises `IndexError`, which ends in the fallback |
| TerraformTool.InitThenAnythingRuns | src/tools/terraform_tool.py:44-55 | "<x> init -backend-config" followed by anything runs, "&& terraform apply" included |
| TerraformTool.IntendedRunsAllowed | src/tools/terraform_tool.py:44-55 | the intended guard runs only an allowed operation, with no chaining character |
| TerraformTool.IntendedRunsLess | src/tools/terraform_tool.py:44-55 | the intended guard runs nothing that the guard as written refuses |
| TerraformTool.InitThenChainRefused | src/tools/terraform_tool.py:44-55 | the intended guard refuses those init commands once a second command is chained on |
| TerraformTool.OneWordCommand | src/tools/terraform_tool.py:81-87 | "terraform" alone gets the fallback as written and is refused by the intended guard |
| CreateFileTool.EscapesCodebase | src/tools/create_file_tool.py:41-50 | for a codebase "/c" and a sibling "/cX", the request "r/../../cX/f" passes every check and writes "/cX/f", outside the codebase |
| CreateFileTool.IntoOtherFolder | src/tools/create_file_tool.py:37-50 | "r/../n/f" passes every check and writes into folder n whether or not n is a repository |
| CreateFileTool.CreateFileContained | src/tools/create_file_tool.py:37-59 | every file the corrected checks write lies at least two components below the codebase, inside a listed repository |
| CreateFileTool.OtherFolderRefused | src/tools/create_file_tool.py:37-50 | the corrected checks refuse "r/../n/f" when n is not listed |
| GitBranch.FirstStarred | src/tools/pr_tool.py:63-64 | the first line whose stripped text starts with "*", or none |
| GitBranch.ExtractCurrentBranch | src/tools/pr_tool.py:62-66 | the loop gives the second word of the first marked line, an `IndexError` when that line has one word, and None when no line is marked |
| GitBranch.MarkedBranch | src/tools/pr_tool.py:62-66 | for a `git branch` listing whose first marked line is "* b", the branch is b |
| GitBranch.NoMarkedLine | src/tools/pr_tool.py:66 | with no marked line, the branch is None |
| PullRequestTool.FirstMatch | src/tools/pr_tool.py:93-96 | the first codebase entry whose URL contains the name |
| PullRequestTool.LastMatch | src/tools/pr_tool.py:124-127 | the last codebase entry whose URL contains the name |
| PullRequestTool.FindInstallationId | src/tools/pr_tool.py:93-96 | the loop with a break takes the installation id of the first match |
| PullRequestTool.FindRepository | src/tools/pr_tool.py:124-127 | the loop without a break takes the URL and branch of the last match |
| PullRequestTool.LastMatchExists | src/tools/pr_tool.py:93-127 | when there is a first match, a last match exists and does not come before it |
| PullRequestTool.RepoFullNameOf | src/tools/pr_tool.py:128-129 | the full name of "https://github.com/<name>.git" is the name |
| PullRequestTool.RepoFullNameNotGithub | src/tools/pr_tool.py:128 | a URL without the GitHub prefix raises an `IndexError` |
| PullRequestTool.FirstPr | src/tools/pr_tool.py:49-50 | the first open pull request with the agent branch as head and the base branch as base |
| PullRequestTool.CheckAndDeleteExistingPr | src/tools/pr_tool.py:33-60 | one list request, then the deletions |
| PullRequestTool.AtMostOneDeletion | src/tools/pr_tool.py:44-58 | at most one deletion, made if and only if the list succeeded and some pull request joins the same branches; it deletes the first one |
| PullRequestTool.NoBranchNoDeletion | src/tools/pr_tool.py:49-50 | without a current branch, nothing is deleted |
| PullRequestTool.RunGit | src/tools/pr_tool.py:101-121 | the branch query, then the commit, the push and, only when the push returns 1, the force push |
| PullRequestTool.ProceedRun | src/tools/pr_tool.py:98-155 | the run of the tool once the installation id is found |
| PullRequestTool.CreatePullRequest | src/tools/pr_tool.py:68-160 | the whole tool: lookups, git steps, full name, deletion and the reply |
| PullRequestTool.RepositoryNotFound | src/tools/pr_tool.py:93-97 | no matching entry means no installation id |
| PullRequestTool.EmptyInstallationId | src/tools/pr_tool.py:93-97 | an empty id on the first match counts as not found |
| PullRequestTool.FirstIdLastRepository | src/tools/pr_tool.py:93-127 | the id comes from the first match, the URL and branch from the last |
| PullRequestTool.NotFoundWithoutCalls | src/tools/pr_tool.py:156-157 | a repository not found gives "❌ Repository not found in codebase" with no git or network step |
| PullRequestTool.GitSteps | src/tools/pr_tool.py:101-121 | the first steps are branch, commit and push, then a force push exactly when the push returned 1; no later step is a git step |
| PullRequestTool.NotGithubUrl | src/tools/pr_tool.py:158-160 | a non-GitHub URL makes the split at line 128 raise `IndexError`: the tool ends after the git steps with the error reply |
| PullRequestTool.OpensPullRequest | src/tools/pr_tool.py:133-155 | the open pull requests are listed right after the git steps; the tool ends by opening one from the current branch into the entry's branch; the reply is "created" on status 201 and "failed <status>" otherwise |
| RetrieveLogTool.Parsed | src/tools/retrieve_log_tool.py:74-86 | the parsed entries, malformed ones skipped, no more than the raw entries |
| RetrieveLogTool.CollectEntries | src/tools/retrieve_log_tool.py:156-162 | the loop collects the parsed entries in order and stops as soon as their number reaches `max_entries` |
| RetrieveLogTool.CollectedBound | src/tools/retrieve_log_tool.py:156-162 | at most `max_entries` entries when it is ≥ 1, at most one otherwise, and every parsed entry when there are few enough |
| RetrieveLogTool.InsertByTime | src/tools/retrieve_log_tool.py:165 | inserting keeps the entries as a multiset plus the new one |
| RetrieveLogTool.SortSorted | src/tools/retrieve_log_tool.py:165 | the sort orders the entries by ascending timestamp |
| RetrieveLogTool.SortPermutes | src/tools/retrieve_log_tool.py:165 | the sort is a permutation |
| RetrieveLogTool.SortStable | src/tools/retrieve_log_tool.py:165 | the sort is stable: entries with equal timestamps keep their order |
| RetrieveLogTool.AnalyzeSeverityDistribution | src/tools/retrieve_log_tool.py:104-110 | the counting loop gives the tally of the severities |
| RetrieveLogTool.AnalyzeResourcesDistribution | src/tools/retrieve_log_tool.py:112-125 | no entries give an empty distribution; otherwise the counting loop gives the tally of the resources |
| RetrieveLogTool.SeverityDistribution | src/tools/retrieve_log_tool.py:104-110 | one key per distinct severity, each counting its entries, and the counts sum to the number of entries |
| RetrieveLogTool.ResourcesDistribution | src/tools/retrieve_log_tool.py:112-125 | empty exactly when there are no entries; one key per distinct resource; the counts sum to the number of entries |
| RetrieveLogTool.TalliedGet | src/tools/retrieve_log_tool.py:106-109 | the count of a key is its number of occurrences |
| RetrieveLogTool.TalliedKeys | src/tools/retrieve_log_tool.py:106-109 | keys are distinct and are exactly the values seen |
| RetrieveLogTool.PeriodSpans | src/tools/retrieve_log_tool.py:88-102 | for sorted entries: no logs exactly when empty, a single entry exactly when one, otherwise a first-to-last range that covers every entry |
| RetrieveLogTool.RawLogsSplit | src/tools/retrieve_log_tool.py:174-177 | the raw logs split at newlines give back the payloads, when the payloads have none |
| RetrieveLogTool.RetrieveLogs | src/tools/retrieve_log_tool.py:128-196 | a listing error maps to its message (permissions, invalid filter, anything else); otherwise the analysis of the sorted, collected entries |
| RetrieveLogTool.RetrieveLogsTool | src/tools/retrieve_log_tool.py:199-259 | an empty or blank filter, a missing key file and every error become the error dictionary; otherwise the client is asked with "timestamp desc" and a page size of min(max_entries, 1000), and the analysis is returned as a dictionary |
| RetrieveLogTool.OutputFacts | src/tools/retrieve_log_tool.py:245-259 | `total_entries` counts the collected entries, the severity counts sum to it, the resource counts are empty exactly when it is 0, the entries are sorted; the error dictionary has period "Error occurred", 0 entries, empty distributions and empty raw logs |
| Workspace.FullPath | src/tools/edit_tool.py:45 | the absolute path of a codebase file of the session |
| Workspace.SaKeyPath | src/tools/terraform_tool.py:59 | the absolute path of the session's service-account key |
| Workspace.Lines | src/tools/edit_tool.py:54-55 | `readlines()`: the lines are non-empty and join back to the text; every line but the last ends in a newline, and no line holds a newline before its last character |
| Workspace.SliceRules | src/tools/view_tool.py:36 | Python's slice rules: in-range bounds take the subsequence; a bound past the end is cut to the length; a negative bound counts from the end, and one below minus the length is cut to 0; a start at or past the end gives [] |

## Left out

- Language-model calls, prompt rendering with Jinja, and logging are not modelled. Each reply is an oracle input, and a prompt is a `directive` string parameter.
- The router call's usage is not added to the totals, as in the source: `Nodes.Router` reads only the reply text.
- Nodes.Session.Executor: the 10-second sleep before returning is not modelled; timing is not part of the state.
- Message ids are uuid4 values in the source. The model draws them from a counter (`Session.nextId`), which makes them fresh by construction.
- The `add_messages` reducer is LangGraph library code and is not part of this model. `AgentState.AddMessages` follows its documented behaviour for appends of fresh ids and removals by id. Replacing an existing id is kept, but no node relies on it.
- LangGraph machinery is not modelled: compilation, checkpointing, `invoke`, `get_state`. The recursion limit of 25 is recorded as a constant and not enforced on runs. `Graph.PlannerRound` proves that one round ends. The number of planner rounds in a session is bounded only by that limit.
- Graph.ToolsConditionExecutor: the error text on an empty transcript leaves out the rendering of the whole state that the source appends after the colon; Python's dictionary rendering is not modelled.
- `initiate_state` downloads the service-account key. That is I/O; only its edges are modelled.
- The HTTP service is not part of this model.
- Several tools are not part of this model: the search, gcloud, directory-listing and clone tools are shell or filesystem walks. They appear only as registered names in the dispatcher.
- Graph.ToolNode: a tool's result is its text (`str(result)`), and a tool is a function parameter. Injecting the real state into a tool is not modelled beyond dropping the model's `state` argument.
- FormatPlan.FormatPlansToMarkdown: the two regular expressions are modelled by scanners written for those two patterns, not by a regex engine. IGNORECASE folding and `\w` are ASCII only, so a match such as 'ſ' for 's' is lost. `\s` is modelled in full, as the Unicode whitespace set of `str.isspace`.
- PyStr.Lower: only ASCII letters are lower-cased; Unicode case mapping is not modelled.
- Nodes.IsCompletion: the IGNORECASE flag of the completion pattern also folds non-ASCII letters that `lower()` leaves alone, such as 'ſ' to 's' and 'ı' to 'i'. The model matches only the ASCII letters of the pattern, so a step such as "reaſoning: x step: done" ends the workflow in the source but goes to the executor in the model.
- PyStr.StrRepr: it quotes the text in single quotes with no escaping, which is Python's `repr` only for text without quotes, backslashes or control characters. Python switches to double quotes for text holding a single quote and escapes backslashes and newlines. Paths, names and tool-call arguments in error and rendering texts (`Workspace.NoSuchFile`, the repository listing of `create_file`, `AgentState.CallRepr`) are rendered this simpler way.
- EditTool.Edit: a path that names a directory is treated as a missing file. The source's existence check passes for a directory, and the later `open` raises IsADirectoryError. So the source checks the starting line first and, when that passes, answers with the "Error executing edit: [Errno 21] Is a directory" text of the tool node. The model's file system holds only files.
- ViewTool.View: a path that names a directory gives the "No such file or directory" failure, where the source's `open` raises IsADirectoryError ("[Errno 21] Is a directory"). The model's file system holds only files.
- TerraformTool.TerraformCommandExecutor: the shell run is a function parameter. Only the credentials variable of the copied environment is recorded.
- In `create_file`, `os.listdir` is the `listing` parameter. Creating directories and writing the file are returned as a `Write` decision, not applied to a file system. An exception raised by the write is not modelled.
- PullRequestTool.CreatePullRequest: git, the REST calls and the token exchange are inputs, and the calls are recorded as steps. The JWT and token values are opaque strings. A failed delete response only logs in the source and is not distinguished. The token exchange never fails in the model, and neither do the listing and opening POST calls or the decoding of their JSON. In the source, a failed exchange (`raise_for_status`), a raising request or an undecodable response ends the tool with "❌ Error creating pull request: <message>", before any git step when it is the exchange that fails.
- RetrieveLogTool.AnalyzeResourcesDistribution: it returns counts, not the rounded percentages (floating point). Its keys are each resource's text, standing for `json.dumps(resource, sort_keys=True)`.
- In the period text, `strftime` and the duration text are function parameters (`stamp`, `span`); timestamps are integers.
- RetrieveLogTool.RetrieveLogsTool: reading the key file as JSON and building the client are folded into the `client` parameter. Any failure there is a `SetupFailed` message.
- A `max_entries` of 0 or less still collects one entry when the first raw entry parses. `RetrieveLogTool.Collected` models this as the source does.

## Findings

| source | as written | input that shows it | evidently intended | confidence | as-written member | corrected member |
|---|---|---|---|---|---|---|
| src/tools/create_file_tool.py:44 | containment is tested with `abs_path.startswith(codebase_dir)`, a text prefix | codebase "/c", repository "r", request "r/../../cX/f": writes "/cX/f" | the file stays below "<codebase>/" | high (not executed) | CreateFileTool.EscapesCodebase | CreateFileTool.CreateFileContained |
| src/tools/create_file_tool.py:37-50 | the repository test looks at the first segment of the raw request, not of the normalised target | listed repository "r", request "r/../n/f" with "n" not listed: writes "<codebase>/n/f" | the file lands in a listed repository | high (not executed) | CreateFileTool.IntoOtherFolder | CreateFileTool.OtherFolderRefused |
| src/tools/terraform_tool.py:44-55 | allowed operations are found as substrings anywhere, and only the second token is compared with "apply" | "terraform init -backend-config=b && terraform apply" runs | only the allowed operation runs, with no chained command | high (not executed) | TerraformTool.InitThenAnythingRuns | TerraformTool.InitThenChainRefused |
| src/tools/terraform_tool.py:50-87 | a command without a space raises `IndexError`, and the handler reports success with the literal text "result.stdout" | "terraform" | the command is refused as invalid | high (not executed) | TerraformTool.NoSpaceFallback | TerraformTool.OneWordCommand |
