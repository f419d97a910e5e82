/** The nodes of the agent's workflow (nodes.py): the router and the planner's
    completion test as functions of the model's text, and the nodes that update
    the session as methods of `Session`. Every language-model reply is an input. */
module Nodes {
  import opened PyStr
  import opened AgentState

  /** `usage_metadata`: the input and output token counts of one call. */
  datatype Usage = Usage(input: nat, output: nat)

  /** One reply of the language model. */
  datatype Reply = Reply(content: string, toolCalls: seq<ToolCall>, kwargs: Kwargs, usage: Usage)

  /** The model bound to the tools, as a function of the transcript it is given. */
  type Oracle = seq<Message> -> Reply

  /** The `max_cycle_executor` the workflow is invoked with (graph.py). */
  const InitialMaxCycleExecutor: int := 2

  /** The message the executor emits instead of calling the model. */
  const IdleText: string := "Alright, What do you think?"

  function IdleReply(id: MessageId): Message {
    AIMsg(id, IdleText, [], map[])
  }

  // ---------------------------------------------------------------------------
  // Router

  datatype RouterRoute = RoutePlanner | RouteChatbot

  /** The router's decision on the text of the classification reply. */
  function Router(content: string): RouterRoute {
    if Lower(Strip(content)) == "code" then RoutePlanner else RouteChatbot
  }

  /** The router sends a query to the planner exactly when the reply is the word
      "code", in any letter case, with nothing but whitespace around it. */
  lemma RouterPlannerExactly(content: string)
    ensures Router(content) == RoutePlanner <==>
            exists p, w, q :: AllSpace(p) && AllSpace(q) && Lower(w) == "code" && content == p + w + q
  {
    if Router(content) == RoutePlanner {
      var p, q := StripDecomposition(content);
      assert AllSpace(p) && AllSpace(q) && Lower(Strip(content)) == "code" && content == p + Strip(content) + q;
    }
    if exists p, w, q :: AllSpace(p) && AllSpace(q) && Lower(w) == "code" && content == p + w + q {
      var p, w, q :| AllSpace(p) && AllSpace(q) && Lower(w) == "code" && content == p + w + q;
      assert |w| == 4 && LowerChar(w[0]) == 'c' && LowerChar(w[3]) == 'e';
      StripUnique(content, p, w, q);
    }
  }

  // ---------------------------------------------------------------------------
  // planner_decision

  datatype PlannerRoute = RouteExecutor | RouteEnd

  /** `re.match(r"^reasoning:\s*(.+?)\s*step:\s*done$", t, re.DOTALL)` on a text
      that is already stripped and lower-cased: the text ends in "done", the
      whitespace before that is skipped, and what remains must end in "step:"
      and leave at least one character after the leading "reasoning:". */
  predicate IsCompletion(t: string) {
    && "reasoning:" <= t
    && |t| >= 4 && t[|t| - 4..] == "done"
    && var u := RStrip(t[..|t| - 4]);
       |u| >= 16 && u[|u| - 5..] == "step:"
  }

  function PlannerDecision(currentStep: string): PlannerRoute {
    if IsCompletion(Lower(Strip(currentStep))) then RouteEnd else RouteExecutor
  }

  /** The completion test accepts exactly "reasoning:" + a non-empty middle +
      "step:" + whitespace + "done". */
  lemma IsCompletionExactly(t: string)
    ensures IsCompletion(t) <==>
            exists a, b :: |a| >= 1 && AllSpace(b) && t == "reasoning:" + a + "step:" + b + "done"
  {
    if IsCompletion(t) {
      var a, b := CompletionParts(t);
    }
    if exists a, b :: |a| >= 1 && AllSpace(b) && t == "reasoning:" + a + "step:" + b + "done" {
      var a, b :| |a| >= 1 && AllSpace(b) && t == "reasoning:" + a + "step:" + b + "done";
      CompletionShape(a, b);
    }
  }

  lemma CompletionParts(t: string) returns (a: string, b: string)
    requires IsCompletion(t)
    ensures |a| >= 1 && AllSpace(b) && t == "reasoning:" + a + "step:" + b + "done"
  {
    var body := t[..|t| - 4];
    var u := RStrip(body);
    b := RStripped(body);
    a := u[10..|u| - 5];
    assert u == "reasoning:" + a + "step:" by {
      assert u[..10] == body[..10] == t[..10];
    }
    assert t == body + "done";
  }

  lemma CompletionShape(a: string, b: string)
    requires |a| >= 1 && AllSpace(b)
    ensures IsCompletion("reasoning:" + a + "step:" + b + "done")
  {
    var t := "reasoning:" + a + "step:" + b + "done";
    var core := "reasoning:" + a + "step:";
    assert t[..|t| - 4] == core + b;
    assert core[|core| - 1] == ':';
    RStripUnique(core, b);
    assert core[|core| - 5..] == "step:";
    assert t[..10] == "reasoning:";
  }

  /** The planner's step ends the workflow exactly when, stripped and
      lower-cased, it has the completion shape. */
  lemma PlannerDecisionEndsExactly(currentStep: string)
    ensures PlannerDecision(currentStep) == RouteEnd <==>
            exists a, b :: |a| >= 1 && AllSpace(b)
              && Lower(Strip(currentStep)) == "reasoning:" + a + "step:" + b + "done"
  {
    IsCompletionExactly(Lower(Strip(currentStep)));
  }

  lemma PlannerDecisionContinueExample()
    ensures PlannerDecision("Step: done") == RouteExecutor
  {
    StripUnique("Step: done", "", "Step: done", "");
    var t := Lower("Step: done");
    assert t[0] == LowerChar('S') == 's';
    assert !("reasoning:" <= t);
  }

  // ---------------------------------------------------------------------------
  // The transcript renderer of the preplanner

  /** The entry the preplanner writes for one message: none for system, human
      and other messages. */
  function PreplannerEntry(m: Message): Option<string> {
    match m
    case AIMsg(_, content, calls, _) =>
      Some(if calls != [] then "AI: " + content + "\n  Tool Calls: " + CallsRepr(calls) else "AI: " + content)
    case ToolMsg(_, content, callId) =>
      Some(if callId != "" then "TOOL RESPONSE: " + content + "\n  Tool Call ID: " + callId
           else "TOOL RESPONSE: " + content)
    case _ => None
  }

  const PreplannerHeader: string := "Executor Actions: \n"
  const EntrySeparator: string := "\n---\n"

  /** The one string the preplanner appends to `previous_steps_actions`. */
  function PreplannerText(msgs: seq<Message>): string {
    Join(EntrySeparator, [PreplannerHeader] + Rendered(msgs, PreplannerEntry))
  }

  /** The preplanner's text is the header followed by every entry, each preceded
      by the separator, in transcript order. */
  lemma PreplannerTextShape(msgs: seq<Message>)
    ensures PreplannerText(msgs) == PreplannerHeader + Concat(Prefixed(EntrySeparator, Rendered(msgs, PreplannerEntry)))
  {
    JoinAsPrefixed(EntrySeparator, PreplannerHeader, Rendered(msgs, PreplannerEntry));
  }

  // ---------------------------------------------------------------------------
  // The session

  /** The workflow state as LangGraph holds it between nodes: the record of
      the graph's state schema, which every node reads and which LangGraph
      updates with what the node returns. `nextId` stands for the uuid4 source
      that gives every new message its id. */
  class Session {
    var state: State
    var nextId: MessageId

    /** Message ids are unique in each list and all drawn from the id source. */
    ghost predicate Valid()
      reads this
    {
      && IdsDistinct(state.executorMessages) && IdsDistinct(state.messagesForEvaluation)
      && (forall m :: m in state.executorMessages ==> m.id < nextId)
      && (forall m :: m in state.messagesForEvaluation ==> m.id < nextId)
    }

    /** The record the workflow is invoked with: no plans, empty transcripts,
        zero totals and the initial cycle budget. */
    constructor (query: string, codebase: seq<Repository>, sessionId: string,
                 githubappId: string, githubappPrivatekey: string, saKeyBucketLink: map<string, string>)
      ensures Valid()
      ensures state == State(query, codebase, [], sessionId, githubappId, githubappPrivatekey,
                             saKeyBucketLink, "", [], [], 0, InitialMaxCycleExecutor, "", 0, 0, [], [])
    {
      state := State(query, codebase, [], sessionId, githubappId, githubappPrivatekey,
                     saKeyBucketLink, "", [], [], 0, InitialMaxCycleExecutor, "", 0, 0, [], []);
      nextId := 0;
    }

    /** Appends fresh messages to both transcripts through the reducer. */
    method AppendToBoth(ms: seq<Message>)
      requires Valid()
      requires IdsDistinct(ms) && forall k :: 0 <= k < |ms| ==> nextId <= ms[k].id < nextId + |ms|
      modifies this
      ensures Valid() && nextId == old(nextId) + |ms|
      ensures state == old(state).(executorMessages := old(state.executorMessages) + ms,
                                   messagesForEvaluation := old(state.messagesForEvaluation) + ms)
    {
      var executorMessages := MergeAppend(state.executorMessages, ms, nextId);
      var messagesForEvaluation := MergeAppend(state.messagesForEvaluation, ms, nextId);
      state := state.(executorMessages := executorMessages, messagesForEvaluation := messagesForEvaluation);
      nextId := nextId + |ms|;
    }

    /** `chatbot`: the reply becomes the answer and its usage is added. */
    method Chatbot(reply: Reply)
      requires Valid()
      modifies this
      ensures Valid() && nextId == old(nextId)
      ensures state == old(state).(agentResponse := reply.content,
                                   inputTokens := old(state.inputTokens) + reply.usage.input,
                                   outputTokens := old(state.outputTokens) + reply.usage.output)
    {
      state := state.(agentResponse := reply.content,
                      inputTokens := reply.usage.input + state.inputTokens,
                      outputTokens := reply.usage.output + state.outputTokens);
    }

    /** `summarizer`: the same update as `chatbot`, from the summary reply. */
    method Summarizer(reply: Reply)
      requires Valid()
      modifies this
      ensures Valid() && nextId == old(nextId)
      ensures state == old(state).(agentResponse := reply.content,
                                   inputTokens := old(state.inputTokens) + reply.usage.input,
                                   outputTokens := old(state.outputTokens) + reply.usage.output)
    {
      state := state.(agentResponse := reply.content,
                      inputTokens := reply.usage.input + state.inputTokens,
                      outputTokens := reply.usage.output + state.outputTokens);
    }

    /** The planner's update of the executor transcript: every message is
        removed and the directive and the query are added, through the reducer. */
    method SeedExecutor(directive: string)
      requires Valid()
      modifies this
      ensures Valid() && nextId == old(nextId) + 2
      ensures state == old(state).(executorMessages := [SystemMsg(old(nextId), directive),
                                                        HumanMsg(old(nextId) + 1, "User Query: " + old(state.query) + "\n")])
    {
      var seeded := [SystemMsg(nextId, directive), HumanMsg(nextId + 1, "User Query: " + state.query + "\n")];
      var executorMessages := MergeReseed(state.executorMessages, seeded, nextId);
      state := state.(executorMessages := executorMessages);
      nextId := nextId + 2;
    }

    /** `planner`: records the new step, removes every message of the executor
        transcript and seeds it with the executor directive and the query, and
        resets the cycle counter. `directive` is the rendered executor prompt. */
    method Planner(reply: Reply, directive: string)
      requires Valid()
      modifies this
      ensures Valid() && nextId == old(nextId) + 2
      ensures state == old(state).(executorMessages := [SystemMsg(old(nextId), directive),
                                                        HumanMsg(old(nextId) + 1, "User Query: " + old(state.query) + "\n")],
                                   previousStepsActions := old(state.previousStepsActions) + ["STEP: \n" + reply.content],
                                   currentStep := reply.content,
                                   plans := old(state.plans) + [reply.content],
                                   currentCycle := 0,
                                   inputTokens := old(state.inputTokens) + reply.usage.input,
                                   outputTokens := old(state.outputTokens) + reply.usage.output)
    {
      SeedExecutor(directive);
      state := state.(previousStepsActions := state.previousStepsActions + ["STEP: \n" + reply.content],
                      currentStep := reply.content,
                      plans := state.plans + [reply.content],
                      currentCycle := 0,
                      inputTokens := reply.usage.input + state.inputTokens,
                      outputTokens := reply.usage.output + state.outputTokens);
    }

    /** `executor`: one cycle of the tool-calling loop. With the budget spent it
        emits the idle message without calling the model. Otherwise it calls the
        model once; a reply whose payload equals that of the second-to-last
        message is discarded (with its usage) for the idle message, and any other
        reply is appended and counted. Every path adds one to the cycle. */
    method Executor(oracle: Oracle) returns (calls: nat)
      requires Valid() && state.executorMessages != []
      modifies this
      ensures Valid() && nextId == old(nextId) + 1
      ensures calls == if old(state.currentCycle) < old(state.maxCycleExecutor) then 1 else 0
      ensures var reply := oracle(old(state.executorMessages));
              var kept := old(state.currentCycle) < old(state.maxCycleExecutor)
                          && !Stagnated(old(state.executorMessages), reply);
              var emitted := if kept then AIMsg(old(nextId), reply.content, reply.toolCalls, reply.kwargs)
                             else IdleReply(old(nextId));
              state == old(state).(executorMessages := old(state.executorMessages) + [emitted],
                                   messagesForEvaluation := old(state.messagesForEvaluation) + [emitted],
                                   currentCycle := old(state.currentCycle) + 1,
                                   inputTokens := old(state.inputTokens) + (if kept then reply.usage.input else 0),
                                   outputTokens := old(state.outputTokens) + (if kept then reply.usage.output else 0))
    {
      if state.currentCycle < state.maxCycleExecutor {
        var reply := oracle(state.executorMessages);
        calls := 1;
        if Stagnated(state.executorMessages, reply) {
          Emit(IdleReply(nextId), 0, 0);
        } else {
          Emit(AIMsg(nextId, reply.content, reply.toolCalls, reply.kwargs), reply.usage.input, reply.usage.output);
        }
      } else {
        calls := 0;
        Emit(IdleReply(nextId), 0, 0);
      }
    }

    /** The end of an executor cycle: `m` is added to both transcripts, the
        cycle is counted and the reply's usage, if kept, is added. */
    method Emit(m: Message, tokensIn: int, tokensOut: int)
      requires Valid() && m.id == nextId
      modifies this
      ensures Valid() && nextId == old(nextId) + 1
      ensures state == old(state).(executorMessages := old(state.executorMessages) + [m],
                                   messagesForEvaluation := old(state.messagesForEvaluation) + [m],
                                   currentCycle := old(state.currentCycle) + 1,
                                   inputTokens := old(state.inputTokens) + tokensIn,
                                   outputTokens := old(state.outputTokens) + tokensOut)
    {
      AppendToBoth([m]);
      state := state.(currentCycle := state.currentCycle + 1,
                      inputTokens := tokensIn + state.inputTokens,
                      outputTokens := tokensOut + state.outputTokens);
    }

    /** `preplanner`: renders the executor transcript and appends it as one
        entry of `previous_steps_actions`. */
    method Preplanner()
      modifies this
      ensures nextId == old(nextId)
      ensures state == old(state).(previousStepsActions :=
                                     old(state.previousStepsActions) + [PreplannerText(old(state.executorMessages))])
    {
      var text := RenderPreplanner(state.executorMessages);
      state := state.(previousStepsActions := state.previousStepsActions + [text]);
    }
  }

  /** The loop of `preplanner` that renders the executor transcript. */
  method RenderPreplanner(msgs: seq<Message>) returns (text: string)
    ensures text == PreplannerText(msgs)
  {
    var trajectory := [PreplannerHeader];
    var i := 0;
    while i < |msgs|
      invariant 0 <= i <= |msgs|
      invariant trajectory == [PreplannerHeader] + Rendered(msgs[..i], PreplannerEntry)
    {
      var msg := msgs[i];
      ghost var before := trajectory;
      match msg {
        case AIMsg(_, content, calls, _) =>
          var entry := "AI: " + content;
          if calls != [] {
            entry := entry + "\n  Tool Calls: " + CallsRepr(calls);
          }
          assert PreplannerEntry(msg) == Some(entry);
          trajectory := trajectory + [entry];
        case ToolMsg(_, content, callId) =>
          var entry := "TOOL RESPONSE: " + content;
          if callId != "" {
            entry := entry + "\n  Tool Call ID: " + callId;
          }
          assert PreplannerEntry(msg) == Some(entry);
          trajectory := trajectory + [entry];
        case _ =>
          assert PreplannerEntry(msg) == None;
      }
      RenderedExtend([PreplannerHeader], msgs, i, PreplannerEntry, before);
      i := i + 1;
    }
    assert msgs[..i] == msgs;
    text := Join(EntrySeparator, trajectory);
  }

  /** The executor's stagnation test. */
  predicate Stagnated(msgs: seq<Message>, reply: Reply) {
    |msgs| > 2 && AdditionalKwargs(msgs[|msgs| - 2]) == reply.kwargs
  }

  /** The reducer applied to a node's fresh messages: they are appended. */
  method MergeAppend(left: seq<Message>, ms: seq<Message>, next: MessageId) returns (merged: seq<Message>)
    requires IdsDistinct(left) && forall m :: m in left ==> m.id < next
    requires IdsDistinct(ms) && forall k :: 0 <= k < |ms| ==> next <= ms[k].id < next + |ms|
    ensures merged == left + ms
    ensures IdsDistinct(merged) && forall m :: m in merged ==> m.id < next + |ms|
  {
    FreshIds(left, ms, next);
    AppendOnly(left, ms);
    merged := AddMessages(left, Adds(ms)).value;
    IdsDistinctAppend(left, ms);
  }

  /** The reducer applied to the planner's update (a removal for every
      message, then fresh messages): the list becomes the fresh messages. */
  method MergeReseed(left: seq<Message>, ms: seq<Message>, next: MessageId) returns (merged: seq<Message>)
    requires forall m :: m in left ==> m.id < next
    requires IdsDistinct(ms) && forall k :: 0 <= k < |ms| ==> next <= ms[k].id
    ensures merged == ms
  {
    SeedFresh(left, ms, next);
    merged := AddMessages(left, RemoveAll(left) + Adds(ms)).value;
  }

  lemma IdsDistinctAppend(a: seq<Message>, b: seq<Message>)
    requires IdsDistinct(a) && IdsDistinct(b) && Ids(b) !! Ids(a)
    ensures IdsDistinct(a + b)
  {
    forall i, j | 0 <= i < |a| <= j < |a + b| ensures (a + b)[i].id != (a + b)[j].id {
      assert (a + b)[i] == a[i] && (a + b)[j] == b[j - |a|];
      assert a[i].id in Ids(a) && b[j - |a|].id in Ids(b);
    }
  }

  lemma SeedFresh(left: seq<Message>, ms: seq<Message>, next: MessageId)
    requires forall m :: m in left ==> m.id < next
    requires IdsDistinct(ms) && forall k :: 0 <= k < |ms| ==> next <= ms[k].id
    ensures AddMessages(left, RemoveAll(left) + Adds(ms)) == Success(ms)
  {
    FreshIds(left, ms, next);
    ClearAndSeed(left, ms);
  }

  lemma FreshIds(left: seq<Message>, ms: seq<Message>, next: MessageId)
    requires forall m :: m in left ==> m.id < next
    requires forall k :: 0 <= k < |ms| ==> next <= ms[k].id
    ensures Ids(ms) !! Ids(left)
  {
    forall m | m in ms ensures m.id !in Ids(left) {
      var k :| 0 <= k < |ms| && ms[k] == m;
    }
  }
}
