/** The session record that every node of the workflow reads, the messages its
    two transcripts hold, and the append-merge reducer (`add_messages`) that
    LangGraph applies to those two transcripts. */
module AgentState {
  import opened PyStr

  /** LangGraph gives every message a fresh uuid4 when it first enters a list;
      the model draws these ids from a counter. */
  type MessageId = nat

  /** One entry of `AIMessage.tool_calls`: the name of the tool, its arguments
      in order (each value is already the `repr` of the model-supplied value),
      and the call id that the result message must carry. */
  datatype ToolCall = ToolCall(name: string, args: seq<(string, string)>, id: string)

  /** The opaque `additional_kwargs` payload of a message (the provider's raw
      function-call record for a reply with tool calls). */
  type Kwargs = map<string, string>

  datatype Message =
    | SystemMsg(id: MessageId, content: string)
    | HumanMsg(id: MessageId, content: string)
    | AIMsg(id: MessageId, content: string, toolCalls: seq<ToolCall>, kwargs: Kwargs)
    | ToolMsg(id: MessageId, content: string, toolCallId: string)
      /** any other message class, rendered by its class name */
    | OtherMsg(id: MessageId, typeName: string, content: string)

  /** `msg.additional_kwargs`: only a reply from the model carries a payload;
      every other message class has the empty dict. */
  function AdditionalKwargs(m: Message): Kwargs {
    if m.AIMsg? then m.kwargs else map[]
  }

  /** `hasattr(m, "tool_calls") and m.tool_calls` */
  predicate HasToolCalls(m: Message) {
    m.AIMsg? && m.toolCalls != []
  }

  /** A repository descriptor of the request's `codebase` list. */
  datatype Repository = Repository(repositoryUrl: string, branch: string, installationId: string)

  /** The `State` record of the workflow (state.py), as a value: the fields in
      their declared order, with `executor_messages` and
      `messages_for_evaluation` last. */
  datatype State = State(
    query: string,
    codebase: seq<Repository>,
    sessionRepositories: seq<string>,
    sessionId: string,
    githubappId: string,
    githubappPrivatekey: string,
    saKeyBucketLink: map<string, string>,
    currentStep: string,
    plans: seq<string>,
    previousStepsActions: seq<string>,
    currentCycle: int,
    maxCycleExecutor: int,
    agentResponse: string,
    inputTokens: int,
    outputTokens: int,
    executorMessages: seq<Message>,
    messagesForEvaluation: seq<Message>)

  // ---------------------------------------------------------------------------
  // The add_messages reducer

  /** An entry of a node's returned message list: a message to merge, or a
      `RemoveMessage(id=…)`. */
  datatype Update = Add(msg: Message) | Remove(target: MessageId)

  predicate IdsDistinct(s: seq<Message>) {
    forall i, j :: 0 <= i < j < |s| ==> s[i].id != s[j].id
  }

  function Ids(s: seq<Message>): set<MessageId> {
    set m | m in s :: m.id
  }

  /** The index a message id is registered under (`merged_by_id`, built by a
      dict comprehension, so the last one for a repeated id). */
  function IndexOfId(s: seq<Message>, id: MessageId): (r: Option<nat>)
    ensures r.Some? ==> r.value < |s| && s[r.value].id == id
    ensures r.None? <==> id !in Ids(s)
  {
    if s == [] then None
    else if s[|s| - 1].id == id then Some(|s| - 1)
    else
      var r := IndexOfId(s[..|s| - 1], id);
      assert Ids(s) == Ids(s[..|s| - 1]) + {s[|s| - 1].id} by {
        assert s == s[..|s| - 1] + [s[|s| - 1]];
      }
      r
  }

  /** The merge loop of `add_messages`: a known id is replaced in place or marked
      for removal; an unknown id is appended, except that removing an unknown id
      is an error. */
  function MergeLoop(merged: seq<Message>, toRemove: set<MessageId>, right: seq<Update>)
    : Result<(seq<Message>, set<MessageId>), string>
    decreases |right|
  {
    if right == [] then Success((merged, toRemove))
    else
      var u := right[0];
      var id := if u.Add? then u.msg.id else u.target;
      match IndexOfId(merged, id)
      case Some(k) =>
        if u.Remove? then MergeLoop(merged, toRemove + {id}, right[1..])
        else MergeLoop(merged[k := u.msg], toRemove - {id}, right[1..])
      case None =>
        if u.Remove? then Failure("Attempting to delete a message with an ID that doesn't exist")
        else MergeLoop(merged + [u.msg], toRemove, right[1..])
  }

  function Without(s: seq<Message>, ids: set<MessageId>): (r: seq<Message>)
    ensures |r| <= |s|
  {
    if s == [] then []
    else (if s[0].id in ids then [] else [s[0]]) + Without(s[1..], ids)
  }

  datatype Result<T, E> = Success(value: T) | Failure(error: E)

  /** `add_messages(left, right)` */
  function AddMessages(left: seq<Message>, right: seq<Update>): Result<seq<Message>, string> {
    match MergeLoop(left, {}, right)
    case Success((merged, toRemove)) => Success(Without(merged, toRemove))
    case Failure(e) => Failure(e)
  }

  function Adds(ms: seq<Message>): (r: seq<Update>)
    ensures |r| == |ms| && forall k :: 0 <= k < |ms| ==> r[k] == Add(ms[k])
  {
    if ms == [] then [] else [Add(ms[0])] + Adds(ms[1..])
  }

  /** `[RemoveMessage(id=m.id) for m in s]` */
  function RemoveAll(s: seq<Message>): (r: seq<Update>)
    ensures |r| == |s| && forall k :: 0 <= k < |s| ==> r[k] == Remove(s[k].id)
  {
    if s == [] then [] else [Remove(s[0].id)] + RemoveAll(s[1..])
  }

  lemma IdsAppend(a: seq<Message>, b: seq<Message>)
    ensures Ids(a + b) == Ids(a) + Ids(b)
  {
    forall id | id in Ids(a + b) ensures id in Ids(a) + Ids(b) {
      var m :| m in a + b && m.id == id;
      if m in a { assert id in Ids(a); } else { assert m in b; assert id in Ids(b); }
    }
    forall id | id in Ids(a) + Ids(b) ensures id in Ids(a + b) {
      if id in Ids(a) {
        var m :| m in a && m.id == id;
        assert m in a + b;
      } else {
        var m :| m in b && m.id == id;
        assert m in a + b;
      }
    }
  }

  lemma MergeStepAdd(merged: seq<Message>, toRemove: set<MessageId>, m: Message, rest: seq<Update>)
    requires m.id !in Ids(merged)
    ensures MergeLoop(merged, toRemove, [Add(m)] + rest) == MergeLoop(merged + [m], toRemove, rest)
  {
    assert ([Add(m)] + rest)[0] == Add(m) && ([Add(m)] + rest)[1..] == rest;
  }

  lemma MergeStepRemove(merged: seq<Message>, toRemove: set<MessageId>, id: MessageId, rest: seq<Update>)
    requires id in Ids(merged)
    ensures MergeLoop(merged, toRemove, [Remove(id)] + rest) == MergeLoop(merged, toRemove + {id}, rest)
  {
    assert ([Remove(id)] + rest)[0] == Remove(id) && ([Remove(id)] + rest)[1..] == rest;
  }

  lemma FreshTail(merged: seq<Message>, ms: seq<Message>)
    requires ms != [] && IdsDistinct(ms) && Ids(ms) !! Ids(merged)
    ensures ms[0].id !in Ids(merged)
    ensures IdsDistinct(ms[1..]) && Ids(ms[1..]) !! Ids(merged + [ms[0]])
  {
    var m, tail := ms[0], ms[1..];
    assert ms == [m] + tail;
    IdsAppend([m], tail);
    assert Ids([m]) == {m.id};
    IdsAppend(merged, [m]);
    assert m.id !in Ids(tail) by {
      forall x | x in tail ensures x.id != m.id {
        var j :| 0 <= j < |tail| && tail[j] == x;
        assert ms[j + 1] == x;
      }
    }
    assert IdsDistinct(tail) by {
      forall i, j | 0 <= i < j < |tail| ensures tail[i].id != tail[j].id {
        assert tail[i] == ms[i + 1] && tail[j] == ms[j + 1];
      }
    }
  }

  /** Fresh messages are appended in order and nothing is marked for removal. */
  lemma {:induction false} MergeFresh(merged: seq<Message>, toRemove: set<MessageId>, ms: seq<Message>)
    requires IdsDistinct(ms) && Ids(ms) !! Ids(merged)
    ensures MergeLoop(merged, toRemove, Adds(ms)) == Success((merged + ms, toRemove))
    decreases |ms|
  {
    if ms == [] {
      assert merged + ms == merged;
    } else {
      FreshTail(merged, ms);
      assert Adds(ms) == [Add(ms[0])] + Adds(ms[1..]);
      MergeStepAdd(merged, toRemove, ms[0], Adds(ms[1..]));
      MergeFresh(merged + [ms[0]], toRemove, ms[1..]);
      assert merged + [ms[0]] + ms[1..] == merged + ms;
    }
  }

  /** Removing ids that are all present only marks them. */
  lemma {:induction false} MergeRemoves(merged: seq<Message>, toRemove: set<MessageId>, olds: seq<Message>, rest: seq<Update>)
    requires Ids(olds) <= Ids(merged)
    ensures MergeLoop(merged, toRemove, RemoveAll(olds) + rest) == MergeLoop(merged, toRemove + Ids(olds), rest)
    decreases |olds|
  {
    if olds == [] {
      assert RemoveAll(olds) + rest == rest;
      assert Ids(olds) == {};
      assert toRemove + Ids(olds) == toRemove;
    } else {
      var m, tail := olds[0], olds[1..];
      RemoveAllCons(olds, rest);
      MergeStepRemove(merged, toRemove, m.id, RemoveAll(tail) + rest);
      MergeRemoves(merged, toRemove + {m.id}, tail, rest);
      assert toRemove + {m.id} + Ids(tail) == toRemove + Ids(olds);
    }
  }

  lemma RemoveAllCons(olds: seq<Message>, rest: seq<Update>)
    requires olds != []
    ensures RemoveAll(olds) + rest == [Remove(olds[0].id)] + (RemoveAll(olds[1..]) + rest)
    ensures Ids(olds) == {olds[0].id} + Ids(olds[1..])
  {
    var tail := RemoveAll(olds[1..]);
    assert RemoveAll(olds) == [Remove(olds[0].id)] + tail;
    AppendAssoc([Remove(olds[0].id)], tail, rest);
    IdsCons(olds);
  }

  lemma IdsCons(s: seq<Message>)
    requires s != []
    ensures Ids(s) == {s[0].id} + Ids(s[1..])
  {
    assert s == [s[0]] + s[1..];
    IdsAppend([s[0]], s[1..]);
    assert Ids([s[0]]) == {s[0].id};
  }

  lemma {:induction false} WithoutAppend(a: seq<Message>, b: seq<Message>, ids: set<MessageId>)
    ensures Without(a + b, ids) == Without(a, ids) + Without(b, ids)
  {
    if a != [] {
      assert (a + b)[0] == a[0] && (a + b)[1..] == a[1..] + b;
      WithoutAppend(a[1..], b, ids);
    } else {
      assert a + b == b;
    }
  }

  lemma {:induction false} WithoutAll(a: seq<Message>, ids: set<MessageId>)
    requires Ids(a) <= ids
    ensures Without(a, ids) == []
  {
    if a != [] {
      assert a[0] in a;
      assert Ids(a[1..]) <= ids by {
        forall m | m in a[1..] ensures m.id in ids { assert m in a; }
      }
      WithoutAll(a[1..], ids);
    }
  }

  lemma {:induction false} WithoutNone(a: seq<Message>, ids: set<MessageId>)
    requires Ids(a) !! ids
    ensures Without(a, ids) == a
  {
    if a != [] {
      assert a[0] in a;
      assert Ids(a[1..]) !! ids by {
        forall m | m in a[1..] ensures m.id !in ids { assert m in a; }
      }
      WithoutNone(a[1..], ids);
      assert a == [a[0]] + a[1..];
    }
  }

  /** A node that returns only fresh messages extends the list: the reducer
      appends them in order and removes nothing. */
  lemma AppendOnly(left: seq<Message>, ms: seq<Message>)
    requires IdsDistinct(ms) && Ids(ms) !! Ids(left)
    ensures AddMessages(left, Adds(ms)) == Success(left + ms)
  {
    MergeFresh(left, {}, ms);
    WithoutNone(left + ms, {});
  }

  /** A node that returns a `RemoveMessage` for every message of the list
      followed by fresh messages replaces the list wholesale by those messages. */
  lemma ClearAndSeed(left: seq<Message>, ms: seq<Message>)
    requires IdsDistinct(ms) && Ids(ms) !! Ids(left)
    ensures AddMessages(left, RemoveAll(left) + Adds(ms)) == Success(ms)
  {
    var none: set<MessageId> := {};
    MergeRemoves(left, none, left, Adds(ms));
    assert none + Ids(left) == Ids(left);
    MergeFresh(left, Ids(left), ms);
    assert MergeLoop(left, none, RemoveAll(left) + Adds(ms)) == Success((left + ms, Ids(left)));
    WithoutAppend(left, ms, Ids(left));
    WithoutAll(left, Ids(left));
    WithoutNone(ms, Ids(left));
    assert Without(left + ms, Ids(left)) == ms;
  }

  /** Removing an id that is not in the list is the reducer's one error. */
  lemma RemoveUnknownFails(left: seq<Message>, id: MessageId, rest: seq<Update>)
    requires id !in Ids(left)
    ensures AddMessages(left, [Remove(id)] + rest).Failure?
  {
    assert ([Remove(id)] + rest)[0] == Remove(id);
  }
  // ---------------------------------------------------------------------------
  // Rendering transcripts

  /** The entries a renderer writes for a transcript, in order; messages the
      renderer gives no entry are skipped. */
  function Rendered(msgs: seq<Message>, render: Message -> Option<string>): (r: seq<string>)
    ensures |r| <= |msgs|
  {
    if msgs == [] then []
    else
      var init := Rendered(msgs[..|msgs| - 1], render);
      match render(msgs[|msgs| - 1])
      case Some(e) => init + [e]
      case None => init
  }

  lemma RenderedSnoc(msgs: seq<Message>, m: Message, render: Message -> Option<string>)
    ensures Rendered(msgs + [m], render) ==
            Rendered(msgs, render) + (match render(m) case Some(e) => [e] case None => [])
  {
    assert (msgs + [m])[..|msgs|] == msgs;
  }

  /** One more message of a transcript rendered after a fixed head. */
  lemma RenderedExtend(head: seq<string>, msgs: seq<Message>, i: nat, render: Message -> Option<string>, acc: seq<string>)
    requires i < |msgs| && acc == head + Rendered(msgs[..i], render)
    ensures acc + (match render(msgs[i]) case Some(e) => [e] case None => []) == head + Rendered(msgs[..i + 1], render)
  {
    var tail: seq<string> := match render(msgs[i]) case Some(e) => [e] case None => [];
    assert msgs[..i + 1] == msgs[..i] + [msgs[i]];
    RenderedSnoc(msgs[..i], msgs[i], render);
    AppendAssoc(head, Rendered(msgs[..i], render), tail);
  }

  /** Rendering distributes over concatenation of transcripts. */
  lemma {:induction false} RenderedAppend(a: seq<Message>, b: seq<Message>, render: Message -> Option<string>)
    ensures Rendered(a + b, render) == Rendered(a, render) + Rendered(b, render)
    decreases |b|
  {
    if b == [] {
      assert a + b == a;
    } else {
      var b' := b[..|b| - 1];
      assert a + b == (a + b') + [b[|b| - 1]];
      assert b == b' + [b[|b| - 1]];
      RenderedAppend(a, b', render);
      RenderedSnoc(a + b', b[|b| - 1], render);
      RenderedSnoc(b', b[|b| - 1], render);
    }
  }

  /** `str(args)` for a dictionary of arguments whose values are already
      rendered. */
  function ArgsRepr(args: seq<(string, string)>): string {
    "{" + Join(", ", seq(|args|, i requires 0 <= i < |args| => StrRepr(args[i].0) + ": " + args[i].1)) + "}"
  }

  /** `str(call)` for one tool-call dictionary. */
  function CallRepr(c: ToolCall): string {
    "{'name': " + StrRepr(c.name) + ", 'args': " + ArgsRepr(c.args) + ", 'id': " + StrRepr(c.id)
      + ", 'type': 'tool_call'}"
  }

  /** `str(tool_calls)` */
  function CallsRepr(calls: seq<ToolCall>): string {
    "[" + Join(", ", seq(|calls|, i requires 0 <= i < |calls| => CallRepr(calls[i]))) + "]"
  }
}
