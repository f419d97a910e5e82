/** The workflow graph (graph.py): the edge table, the routing of the
    executor's output, the tool node, the trajectory renderer, and one planner
    round run to its end. */
module Graph {
  import opened PyStr
  import opened AgentState
  import opened Nodes

  /** `recursion_limit` of the run configuration. */
  const RecursionLimit: nat := 25

  datatype GraphNode =
    | StartNode | InitiateState | ChatbotNode | PreplannerNode | PlannerNode
    | ExecutorNode | ToolsNode | SummarizerNode | FinalState

  /** The edges of the compiled graph, fixed and conditional alike. */
  function Successors(n: GraphNode): set<GraphNode> {
    match n
    case StartNode => {InitiateState}
    case InitiateState => {PlannerNode, ChatbotNode}
    case ChatbotNode => {FinalState}
    case PlannerNode => {ExecutorNode, SummarizerNode}
    case ExecutorNode => {ToolsNode, PreplannerNode}
    case ToolsNode => {ExecutorNode}
    case PreplannerNode => {PlannerNode}
    case SummarizerNode => {FinalState}
    case FinalState => {}
  }

  /** The path maps of the three conditional edges. */
  function RouterTarget(r: RouterRoute): (n: GraphNode)
    ensures n in Successors(InitiateState)
    ensures n == PlannerNode <==> r == RoutePlanner
    ensures n == ChatbotNode <==> r == RouteChatbot
  {
    match r
    case RoutePlanner => PlannerNode
    case RouteChatbot => ChatbotNode
  }

  function DecisionTarget(r: PlannerRoute): (n: GraphNode)
    ensures n in Successors(PlannerNode)
    ensures n == ExecutorNode <==> r == RouteExecutor
    ensures n == SummarizerNode <==> r == RouteEnd
  {
    match r
    case RouteExecutor => ExecutorNode
    case RouteEnd => SummarizerNode
  }

  datatype ExecutorRoute = RouteTools | RoutePreplanner

  function ExecutorTarget(r: ExecutorRoute): (n: GraphNode)
    ensures n in Successors(ExecutorNode)
    ensures n == ToolsNode <==> r == RouteTools
    ensures n == PreplannerNode <==> r == RoutePreplanner
  {
    match r
    case RouteTools => ToolsNode
    case RoutePreplanner => PreplannerNode
  }

  /** `tools_condition_executor`: an empty transcript is an error; otherwise the
      tools run exactly when the last message calls tools. The error text
      leaves out the rendering of the whole state that the source appends. */
  function ToolsConditionExecutor(msgs: seq<Message>): (r: Result<ExecutorRoute, string>)
    ensures r.Failure? <==> msgs == []
    ensures r == Success(RouteTools) <==> msgs != [] && HasToolCalls(msgs[|msgs| - 1])
  {
    if msgs == [] then Failure("No messages found in input state to tool_edge")
    else if HasToolCalls(msgs[|msgs| - 1]) then Success(RouteTools)
    else Success(RoutePreplanner)
  }

  // ---------------------------------------------------------------------------
  // Cycles of the graph

  predicate IsPath(p: seq<GraphNode>) {
    forall i :: 0 <= i < |p| - 1 ==> p[i + 1] in Successors(p[i])
  }

  /** A potential that every edge lowers except the two leaving the executor. */
  function Rank(n: GraphNode): nat {
    match n
    case StartNode => 5
    case InitiateState => 4
    case PreplannerNode => 3
    case PlannerNode => 2
    case ToolsNode => 2
    case ExecutorNode => 1
    case ChatbotNode => 1
    case SummarizerNode => 1
    case FinalState => 0
  }

  lemma {:induction false} RankDecreases(p: seq<GraphNode>)
    requires IsPath(p) && |p| >= 2
    ensures ExecutorNode !in p[..|p| - 1] ==> Rank(p[|p| - 1]) < Rank(p[0])
  {
    if |p| > 2 && ExecutorNode !in p[..|p| - 1] {
      var q := p[..|p| - 1];
      assert q[..|q| - 1] == p[..|p| - 2];
      assert ExecutorNode !in q[..|q| - 1];
      RankDecreases(q);
      assert p[|p| - 2] in q;
    } else if |p| == 2 && ExecutorNode !in p[..1] {
      assert p[0] in p[..1];
    }
  }

  /** Every cycle of the graph passes through the executor, so the only loops
      a run can take are the executor-tools loop and the planner round. */
  lemma EveryCycleVisitsExecutor(p: seq<GraphNode>)
    requires IsPath(p) && |p| >= 2 && p[0] == p[|p| - 1]
    ensures ExecutorNode in p[..|p| - 1]
  {
    RankDecreases(p);
  }

  /** The final state is the only node without successors. */
  lemma OnlySinkIsFinalState(n: GraphNode)
    ensures Successors(n) == {} <==> n == FinalState
  {
    match n
    case StartNode => assert InitiateState in Successors(n);
    case InitiateState => assert PlannerNode in Successors(n);
    case ChatbotNode => assert FinalState in Successors(n);
    case PlannerNode => assert ExecutorNode in Successors(n);
    case ExecutorNode => assert ToolsNode in Successors(n);
    case ToolsNode => assert ExecutorNode in Successors(n);
    case PreplannerNode => assert PlannerNode in Successors(n);
    case SummarizerNode => assert FinalState in Successors(n);
    case FinalState =>
  }

  // ---------------------------------------------------------------------------
  // The tool node

  /** The `__name__`s of `Nodes().tools`, in order. */
  const ToolNames: seq<string> := ["edit", "create_pull_request", "view", "search",
    "terraform_command_executor", "create_file", "list_directory_contents",
    "clone_repository", "retrieve_logs", "run_gcloud_command"]

  /** What a tool call produces: `str(result)`, or the text of the exception it
      raised. */
  datatype ToolOutcome = Returned(text: string) | Raised(message: string)

  /** The registered tools, called with a tool name and the filtered arguments. */
  type Invoker = (string, seq<(string, string)>) -> ToolOutcome

  /** The registry search: the first tool whose name matches. */
  method FindTool(name: string) returns (found: bool)
    ensures found <==> name in ToolNames
  {
    found := false;
    var i := 0;
    while i < |ToolNames|
      invariant 0 <= i <= |ToolNames|
      invariant !found && name !in ToolNames[..i]
    {
      if ToolNames[i] == name {
        found := true;
        return;
      }
      assert ToolNames[..i + 1] == ToolNames[..i] + [ToolNames[i]];
      i := i + 1;
    }
    assert ToolNames[..i] == ToolNames;
  }

  /** The arguments without the injected `state` argument, in order. */
  function WithoutState(args: seq<(string, string)>): (r: seq<(string, string)>)
    ensures forall p :: p in r <==> p in args && p.0 != "state"
  {
    if args == [] then []
    else (if args[0].0 == "state" then [] else [args[0]]) + WithoutState(args[1..])
  }

  /** The content of the result message of one dispatched call. */
  function ToolContent(c: ToolCall, invoke: Invoker): string {
    match invoke(c.name, WithoutState(c.args))
    case Returned(text) => text
    case Raised(e) => "Error executing " + c.name + ": " + e
  }

  /** The result messages for a list of calls, ids drawn from `first` on; a call
      to an unregistered tool gets none. */
  function Answers(calls: seq<ToolCall>, invoke: Invoker, first: MessageId): (r: seq<Message>)
    ensures |r| <= |calls|
    ensures forall k :: 0 <= k < |r| ==> r[k].ToolMsg? && r[k].id == first + k
  {
    if calls == [] then []
    else
      var init := Answers(calls[..|calls| - 1], invoke, first);
      var c := calls[|calls| - 1];
      if c.name in ToolNames then init + [ToolMsg(first + |init|, ToolContent(c, invoke), c.id)]
      else init
  }

  /** The calls of the transcript's last message, if it is a reply. */
  function LastCalls(msgs: seq<Message>): seq<ToolCall> {
    if msgs != [] && msgs[|msgs| - 1].AIMsg? then msgs[|msgs| - 1].toolCalls else []
  }

  lemma AnswersSnoc(calls: seq<ToolCall>, c: ToolCall, invoke: Invoker, first: MessageId)
    ensures Answers(calls + [c], invoke, first) ==
            Answers(calls, invoke, first)
              + (if c.name in ToolNames
                 then [ToolMsg(first + |Answers(calls, invoke, first)|, ToolContent(c, invoke), c.id)]
                 else [])
  {
    var all := calls + [c];
    assert all[..|all| - 1] == calls && all[|all| - 1] == c;
  }

  /** When every call names a registered tool, the k-th result answers the k-th
      call, with that call's id and the tool's outcome. */
  lemma {:induction false} AnswersPairCalls(calls: seq<ToolCall>, invoke: Invoker, first: MessageId)
    requires forall c :: c in calls ==> c.name in ToolNames
    ensures |Answers(calls, invoke, first)| == |calls|
    ensures forall k :: 0 <= k < |calls| ==>
              Answers(calls, invoke, first)[k] == ToolMsg(first + k, ToolContent(calls[k], invoke), calls[k].id)
  {
    if calls != [] {
      var init := calls[..|calls| - 1];
      var c := calls[|calls| - 1];
      assert calls == init + [c];
      assert forall d :: d in init ==> d in calls;
      AnswersPairCalls(init, invoke, first);
      AnswersSnoc(init, c, invoke, first);
    }
  }

  /** Calls to unknown tools get no result at all. */
  lemma {:induction false} UnknownToolsUnanswered(calls: seq<ToolCall>, invoke: Invoker, first: MessageId)
    requires forall c :: c in calls ==> c.name !in ToolNames
    ensures Answers(calls, invoke, first) == []
  {
    if calls != [] {
      var init := calls[..|calls| - 1];
      assert forall c :: c in init ==> c in calls;
      UnknownToolsUnanswered(init, invoke, first);
    }
  }

  /** Every result answers some registered call of the list: none is invented. */
  lemma {:induction false} AnswersFromCalls(calls: seq<ToolCall>, invoke: Invoker, first: MessageId)
    ensures forall m :: m in Answers(calls, invoke, first) ==>
              exists c :: c in calls && c.name in ToolNames && m.toolCallId == c.id
                          && m.content == ToolContent(c, invoke)
  {
    if calls != [] {
      var init := calls[..|calls| - 1];
      var c := calls[|calls| - 1];
      AnswersFromCalls(init, invoke, first);
      assert calls == init + [c];
      forall m | m in Answers(calls, invoke, first)
        ensures exists c :: c in calls && c.name in ToolNames && m.toolCallId == c.id
                            && m.content == ToolContent(c, invoke)
      {
        if m in Answers(init, invoke, first) {
          var d :| d in init && d.name in ToolNames && m.toolCallId == d.id && m.content == ToolContent(d, invoke);
          assert d in calls;
        } else {
          assert c in calls;
        }
      }
    }
  }

  lemma AnswersDistinct(calls: seq<ToolCall>, invoke: Invoker, first: MessageId)
    ensures IdsDistinct(Answers(calls, invoke, first))
  {
  }

  /** The loop of `custom_tool_node` over the calls of the last message. */
  method RunCalls(calls: seq<ToolCall>, invoke: Invoker, first: MessageId) returns (out: seq<Message>)
    ensures out == Answers(calls, invoke, first)
  {
    out := [];
    var i := 0;
    while i < |calls|
      invariant 0 <= i <= |calls|
      invariant out == Answers(calls[..i], invoke, first)
    {
      var call := calls[i];
      AnswersSnoc(calls[..i], call, invoke, first);
      assert calls[..i + 1] == calls[..i] + [call];
      var found := FindTool(call.name);
      if found {
        var content;
        match invoke(call.name, WithoutState(call.args)) {
          case Returned(text) => content := text;
          case Raised(e) => content := "Error executing " + call.name + ": " + e;
        }
        out := out + [ToolMsg(first + |out|, content, call.id)];
      }
      i := i + 1;
    }
    assert calls[..i] == calls;
  }

  /** `custom_tool_node`: runs every call of the last executor message whose
      tool is registered, in order, and appends the results to both
      transcripts; a last message without calls changes nothing. */
  method ToolNode(s: Session, invoke: Invoker)
    requires s.Valid() && s.state.executorMessages != []
    modifies s
    ensures s.Valid()
    ensures var out := Answers(LastCalls(old(s.state.executorMessages)), invoke, old(s.nextId));
            && s.nextId == old(s.nextId) + |out|
            && s.state == old(s.state).(executorMessages := old(s.state.executorMessages) + out,
                                        messagesForEvaluation := old(s.state.messagesForEvaluation) + out)
  {
    var last := s.state.executorMessages[|s.state.executorMessages| - 1];
    if !HasToolCalls(last) {
      return;
    }
    var out := RunCalls(last.toolCalls, invoke, s.nextId);
    AnswersDistinct(last.toolCalls, invoke, s.nextId);
    s.AppendToBoth(out);
  }

  // ---------------------------------------------------------------------------
  // messages_to_trajectory_string

  /** The entry of the evaluation trajectory for one message. */
  function TrajectoryEntry(m: Message): Option<string> {
    match m
    case SystemMsg(_, _) => None
    case HumanMsg(_, _) => None
    case AIMsg(_, content, calls, _) =>
      Some(if calls != [] then "AI: " + content + "\n  Tool Calls: " + CallsRepr(calls) else "AI: " + content)
    case ToolMsg(_, content, callId) =>
      Some(if callId != "" then "TOOL: " + content + "\n  Tool Call ID: " + callId else "TOOL: " + content)
    case OtherMsg(_, typeName, content) => Some(typeName + ": " + content)
  }

  function TrajectoryText(msgs: seq<Message>): string {
    Join(EntrySeparator, Rendered(msgs, TrajectoryEntry))
  }

  method MessagesToTrajectoryString(s: Session) returns (text: string)
    ensures text == TrajectoryText(s.state.messagesForEvaluation)
  {
    var msgs := s.state.messagesForEvaluation;
    var trajectory: seq<string> := [];
    var i := 0;
    while i < |msgs|
      invariant 0 <= i <= |msgs|
      invariant trajectory == Rendered(msgs[..i], TrajectoryEntry)
    {
      var msg := msgs[i];
      RenderedSnoc(msgs[..i], msg, TrajectoryEntry);
      assert msgs[..i + 1] == msgs[..i] + [msg];
      match msg {
        case SystemMsg(_, _) =>
        case HumanMsg(_, _) =>
        case AIMsg(_, content, calls, _) =>
          var entry := "AI: " + content;
          if calls != [] {
            entry := entry + "\n  Tool Calls: " + CallsRepr(calls);
          }
          assert TrajectoryEntry(msg) == Some(entry);
          trajectory := trajectory + [entry];
        case ToolMsg(_, content, callId) =>
          var entry := "TOOL: " + content;
          if callId != "" {
            entry := entry + "\n  Tool Call ID: " + callId;
          }
          assert TrajectoryEntry(msg) == Some(entry);
          trajectory := trajectory + [entry];
        case OtherMsg(_, typeName, content) =>
          trajectory := trajectory + [typeName + ": " + content];
      }
      i := i + 1;
    }
    assert msgs[..i] == msgs;
    text := Join(EntrySeparator, trajectory);
  }

  /** The trajectory has one entry per message that is neither a system nor a
      human message. */
  lemma {:induction false} TrajectoryEntryCount(msgs: seq<Message>)
    ensures |Rendered(msgs, TrajectoryEntry)| == |msgs| - |Prompts(msgs)|
  {
    if msgs != [] {
      var init := msgs[..|msgs| - 1];
      TrajectoryEntryCount(init);
    }
  }

  /** The system and human messages of a transcript. */
  function Prompts(msgs: seq<Message>): (r: seq<Message>)
    ensures |r| <= |msgs|
  {
    if msgs == [] then []
    else
      var m := msgs[|msgs| - 1];
      Prompts(msgs[..|msgs| - 1]) + (if m.SystemMsg? || m.HumanMsg? then [m] else [])
  }

  /** The two renderers agree on transcripts of prompts and replies only. */
  lemma {:induction false} RenderersAgree(msgs: seq<Message>)
    requires forall m :: m in msgs ==> !m.ToolMsg? && !m.OtherMsg?
    ensures Rendered(msgs, PreplannerEntry) == Rendered(msgs, TrajectoryEntry)
  {
    if msgs != [] {
      var init := msgs[..|msgs| - 1];
      assert forall m :: m in init ==> m in msgs;
      RenderersAgree(init);
    }
  }

  /** Without tool results, the preplanner's text is its header, then the
      separator and the evaluation trajectory of the same messages. */
  lemma PreplannerTextIsHeaderAndTrajectory(msgs: seq<Message>)
    requires forall m :: m in msgs ==> !m.ToolMsg? && !m.OtherMsg?
    ensures PreplannerText(msgs) ==
            if Rendered(msgs, TrajectoryEntry) == [] then PreplannerHeader
            else PreplannerHeader + EntrySeparator + TrajectoryText(msgs)
  {
    RenderersAgree(msgs);
    var es := Rendered(msgs, TrajectoryEntry);
    if es != [] {
      assert ([PreplannerHeader] + es)[1..] == es;
    } else {
      assert [PreplannerHeader] + es == [PreplannerHeader];
    }
  }

  // ---------------------------------------------------------------------------
  // One planner round

  function Max(a: int, b: int): int {
    if a < b then b else a
  }

  /** One round from the planner to its end: the planner node, then, unless the
      planner declares completion, the executor and tool nodes alternating until
      the executor's last message calls no tools, then the preplanner, which
      hands back to the planner. Each executor visit spends one cycle of the
      budget the planner reset, so the model is called at most
      `max_cycle_executor` times and the loop always ends. */
  method PlannerRound(s: Session, plannerReply: Reply, directive: string, oracle: Oracle, invoke: Invoker)
    returns (next: GraphNode, executorVisits: nat, toolVisits: nat, oracleCalls: nat)
    requires s.Valid()
    modifies s
    ensures s.Valid()
    ensures s.state.maxCycleExecutor == old(s.state.maxCycleExecutor)
    ensures s.state.currentStep == plannerReply.content
    ensures next == DecisionTarget(PlannerDecision(plannerReply.content)) || next == PlannerNode
    ensures next == SummarizerNode <==> PlannerDecision(plannerReply.content) == RouteEnd
    ensures next == SummarizerNode ==> executorVisits == 0
    ensures next == PlannerNode ==> 1 <= executorVisits && toolVisits == executorVisits - 1
    ensures s.state.currentCycle == executorVisits
    ensures oracleCalls <= executorVisits && oracleCalls <= Max(s.state.maxCycleExecutor, 0)
    ensures executorVisits <= Max(s.state.maxCycleExecutor, 0) + 1
  {
    s.Planner(plannerReply, directive);
    if PlannerDecision(s.state.currentStep) == RouteEnd {
      return SummarizerNode, 0, 0, 0;
    }
    executorVisits, toolVisits, oracleCalls := ExecutorLoop(s, oracle, invoke);
    next := PlannerNode;
  }

  /** The executor and tool nodes alternating from a fresh cycle counter
      until the executor's last message calls no tools, the preplanner
      included. */
  method ExecutorLoop(s: Session, oracle: Oracle, invoke: Invoker)
    returns (executorVisits: nat, toolVisits: nat, oracleCalls: nat)
    requires s.Valid() && s.state.executorMessages != [] && s.state.currentCycle == 0
    modifies s
    ensures s.Valid()
    ensures s.state.maxCycleExecutor == old(s.state.maxCycleExecutor)
    ensures s.state.currentStep == old(s.state.currentStep)
    ensures 1 <= executorVisits && toolVisits == executorVisits - 1
    ensures s.state.currentCycle == executorVisits
    ensures oracleCalls <= executorVisits && oracleCalls <= Max(s.state.maxCycleExecutor, 0)
    ensures executorVisits <= Max(s.state.maxCycleExecutor, 0) + 1
  {
    executorVisits, toolVisits, oracleCalls := 0, 0, 0;
    var budget := Max(s.state.maxCycleExecutor, 0);
    while true
      invariant s.Valid() && s.state.executorMessages != []
      invariant s.state.maxCycleExecutor == old(s.state.maxCycleExecutor)
      invariant s.state.currentStep == old(s.state.currentStep)
      invariant s.state.currentCycle == executorVisits == toolVisits
      invariant oracleCalls <= executorVisits && oracleCalls <= budget
      invariant executorVisits <= budget
      decreases budget - executorVisits
    {
      var done, calls := ExecutorThenTools(s, oracle, invoke);
      executorVisits, oracleCalls := executorVisits + 1, oracleCalls + calls;
      if done {
        return executorVisits, toolVisits, oracleCalls;
      }
      toolVisits := toolVisits + 1;
    }
  }

  /** The executor node and the edge after it: the tool node when its message
      calls tools (`done` false), the preplanner otherwise (`done` true). A
      message with tool calls can only come from the model, within the budget. */
  method ExecutorThenTools(s: Session, oracle: Oracle, invoke: Invoker) returns (done: bool, calls: nat)
    requires s.Valid() && s.state.executorMessages != []
    modifies s
    ensures s.Valid() && s.state.executorMessages != []
    ensures s.state.maxCycleExecutor == old(s.state.maxCycleExecutor) && s.state.currentStep == old(s.state.currentStep)
    ensures s.state.currentCycle == old(s.state.currentCycle) + 1
    ensures calls == if old(s.state.currentCycle) < old(s.state.maxCycleExecutor) then 1 else 0
    ensures !done ==> old(s.state.currentCycle) < s.state.maxCycleExecutor
  {
    calls := s.Executor(oracle);
    var route := ToolsConditionExecutor(s.state.executorMessages);
    done := route == Success(RoutePreplanner);
    if done {
      s.Preplanner();
    } else {
      ToolNode(s, invoke);
    }
  }
}
