/**
 * One invocation of the compiled graph. The caller's input (the new user messages and the
 * client's phone number) is folded into the stored state, then the graph runs from START until
 * it reaches END. The chat model's replies, the tool outputs and the summariser's text are not
 * computed here: they come from an `Oracle` and are consumed in order.
 */
module Turn {
  import opened Messages
  import opened GraphState
  import opened Routing
  import opened ModelNodes
  import opened ToolCleanup
  import opened Compactor

  /** What a tool returns for one call: the id of the tool message that carries it, and its text */
  datatype ToolOutput = ToolOutput(id: MessageId, content: string)

  /**
   * What the graph takes from outside during one invocation: the model's replies in the order the
   * model nodes ask for them, the tool outputs in the order the tool nodes produce them, and the
   * text the summariser returns
   */
  datatype Oracle = Oracle(replies: seq<Reply>, outputs: seq<ToolOutput>, digest: string)

  /** Where a run ended, and the nodes it went through: END, or a node that could not complete */
  datatype Outcome =
    | Finished(state: State, trace: seq<Node>)
    | Stuck(state: State, trace: seq<Node>)

  /** `ToolNode`'s answer to an AI message: one tool message per call, carrying that call's id */
  function ToolMessages(calls: seq<ToolCall>, outs: seq<ToolOutput>): (r: seq<Message>)
    requires |outs| == |calls|
    ensures |r| == |calls|
    ensures forall i :: 0 <= i < |r| ==> r[i] == Tool(outs[i].id, outs[i].content, calls[i].id)
  {
    seq(|calls|, i requires 0 <= i < |calls| => Tool(outs[i].id, outs[i].content, calls[i].id))
  }

  /** The dict a node returns when it only appends messages */
  function AppendOnly(added: seq<Message>): Update
  {
    Update(Add(added), None, None, None, None, None, None, None)
  }

  /** The graph input `{"messages": ..., "client_phone": ...}`, folded in like a node's dict */
  function InputUpdate(input: seq<Message>, phone: string): Update
  {
    Update(Add(input), None, None, None, None, None, None, Some(phone))
  }

  /** A measure that the edge table lowers on every step that does not consume a model reply */
  function Rank(n: Node): nat
  {
    match n
    case Start => 6
    case Tools => 5
    case ToolsForSkinTest => 5
    case CallModel => 4
    case SkinTestNode => 4
    case ClearToolMessages => 2
    case SummarizeConversation => 1
    case End => 0
  }

  /** The outcome `r`, with node `n` visited before it */
  function Visit(n: Node, r: Outcome): (v: Outcome)
    ensures v.state == r.state && v.trace == [n] + r.trace && v.Finished? == r.Finished?
  {
    match r
    case Finished(s, trace) => Finished(s, [n] + trace)
    case Stuck(s, trace) => Stuck(s, [n] + trace)
  }

  /** The state `clear_tool_messages` leaves */
  function Cleaned(s: State): (t: State)
    ensures t.numLlamada == Some(GetOr(s.numLlamada, 0) + 1) && t.summary == s.summary
    ensures t.atencionHumana == s.atencionHumana && t.aplicarSkinTest == s.aplicarSkinTest
  {
    Reduce(s, ClearToolMessagesUpdate(s))
  }

  /** The state the summariser leaves */
  function Summarized(s: State, digest: string): (t: State)
    ensures t.numLlamada == s.numLlamada && t.summary == Some(digest)
    ensures t.atencionHumana == s.atencionHumana && t.aplicarSkinTest == s.aplicarSkinTest
  {
    Reduce(s, SummarizeUpdate(s, digest))
  }

  /** The state a model node leaves, given the model's reply */
  ghost function Answered(n: Node, s: State, reply: Reply): (t: State)
    requires n == CallModel || n == SkinTestNode
    ensures t.messages == s.messages + [ReplyMessage(reply)]
    ensures t.numLlamada == s.numLlamada && t.summary == s.summary
    ensures t.atencionHumana.Some? && (s.atencionHumana == Some(true) ==> t.atencionHumana == Some(true))
    ensures n == CallModel ==> t.aplicarSkinTest.Some? && (s.aplicarSkinTest == Some(true) ==> t.aplicarSkinTest == Some(true))
    ensures n == CallModel ==> (CallsTool(reply.toolCalls, StartSkinTest) ==> t.aplicarSkinTest == Some(true))
    ensures n == SkinTestNode ==> (s.aplicarSkinTest == Some(false) ==> t.aplicarSkinTest == Some(false))
    ensures n == SkinTestNode ==> (CallsTool(reply.toolCalls, ClasificarUsuario) ==> t.aplicarSkinTest == Some(false))
  {
    Reduce(s, if n == CallModel then CallModelUpdate(s, reply) else SkinTestUpdate(s, reply))
  }

  /** The tool calls of the last stored message, when it is an AI message */
  function LastCalls(s: State): seq<ToolCall>
    requires s.messages != [] && s.messages[|s.messages| - 1].AI?
  {
    s.messages[|s.messages| - 1].toolCalls
  }

  /** The state a tool node leaves, given the tool outputs for the last message's calls */
  function ToolsAnswered(s: State, outs: seq<ToolOutput>): (t: State)
    requires s.messages != [] && s.messages[|s.messages| - 1].AI?
    requires |outs| == |LastCalls(s)|
    ensures t == s.(messages := s.messages + ToolMessages(LastCalls(s), outs))
  {
    Reduce(s, AppendOnly(ToolMessages(LastCalls(s), outs)))
  }

  /** The graph run from node `n` on the state `s` */
  ghost function Run(n: Node, s: State, o: Oracle): Outcome
    decreases |o.replies|, Rank(n)
  {
    match n
    case End => Finished(s, [])
    case Start => Visit(Start, Run(RequiresSkinTest(s), s, o))
    case CallModel => ModelStep(n, s, o)
    case SkinTestNode => ModelStep(n, s, o)
    case Tools => ToolStep(n, s, o)
    case ToolsForSkinTest => ToolStep(n, s, o)
    case ClearToolMessages => CleanupStep(s, o)
    case SummarizeConversation => Visit(n, Finished(Summarized(s, o.digest), []))
  }

  /** `clear_tool_messages`, then the summariser or the end of the turn */
  ghost function CleanupStep(s: State, o: Oracle): Outcome
    decreases |o.replies|, Rank(ClearToolMessages), 0
  {
    var t := Cleaned(s);
    Visit(ClearToolMessages, Run(Next(ClearToolMessages, t), t, o))
  }

  /** A model node: it takes the next reply, and is stuck when there is none */
  ghost function ModelStep(n: Node, s: State, o: Oracle): Outcome
    requires n == CallModel || n == SkinTestNode
    decreases |o.replies|, Rank(n), 0
  {
    if o.replies == [] then Stuck(s, [n])
    else
      var t := Answered(n, s, o.replies[0]);
      Visit(n, Run(Next(n, t), t, o.(replies := o.replies[1..])))
  }

  /**
   * A tool node: it answers every call of the last message; it is stuck when that is not an AI
   * message (`ToolNode` raises) or when the tool outputs run out
   */
  ghost function ToolStep(n: Node, s: State, o: Oracle): Outcome
    requires n == Tools || n == ToolsForSkinTest
    decreases |o.replies|, Rank(n), 0
  {
    if s.messages == [] || !s.messages[|s.messages| - 1].AI? then Stuck(s, [n])
    else if |o.outputs| < |LastCalls(s)| then Stuck(s, [n])
    else
      var k := |LastCalls(s)|;
      var t := ToolsAnswered(s, o.outputs[..k]);
      Visit(n, Run(Next(n, t), t, o.(outputs := o.outputs[k..])))
  }

  /** One invocation: the input is stored, then the graph runs from START */
  ghost function Invoke(s: State, input: seq<Message>, phone: string, o: Oracle): Outcome
  {
    Run(Start, Reduce(s, InputUpdate(input, phone)), o)
  }

  /** No message of `h` is tool traffic */
  ghost predicate NoToolTraffic(h: seq<Message>)
  {
    forall i :: 0 <= i < |h| ==> !IsToolTraffic(h[i])
  }

  /**
   * The ids the oracle will introduce are unique and new: no two stored messages, replies or
   * tool outputs share an id
   */
  ghost predicate Fresh(h: seq<Message>, o: Oracle)
  {
    UniqueIds(h) &&
    (forall i, j :: 0 <= i < j < |o.replies| ==> o.replies[i].id != o.replies[j].id) &&
    (forall i, j :: 0 <= i < j < |o.outputs| ==> o.outputs[i].id != o.outputs[j].id) &&
    (forall i, j :: 0 <= i < |h| && 0 <= j < |o.replies| ==> h[i].id != o.replies[j].id) &&
    (forall i, j :: 0 <= i < |h| && 0 <= j < |o.outputs| ==> h[i].id != o.outputs[j].id) &&
    (forall i, j :: 0 <= i < |o.replies| && 0 <= j < |o.outputs| ==> o.replies[i].id != o.outputs[j].id)
  }

  /**
   * The quiz path: from the quiz node on, the run never reaches the cleanup or the summariser, so
   * it never deletes a message, never touches the summary and never advances `num_llamada`
   */
  lemma {:induction false} QuizRunOnlyAppends(n: Node, s: State, o: Oracle)
    requires n == SkinTestNode || n == ToolsForSkinTest || n == End
    ensures var r := Run(n, s, o);
      r.state.numLlamada == s.numLlamada && r.state.summary == s.summary &&
      ClearToolMessages !in r.trace && SummarizeConversation !in r.trace &&
      |s.messages| <= |r.state.messages| && r.state.messages[..|s.messages|] == s.messages
    decreases |o.replies|, Rank(n)
  {
    if n == SkinTestNode && o.replies != [] {
      var t := Answered(n, s, o.replies[0]);
      ModelRun(n, s, o);
      QuizRunOnlyAppends(Next(n, t), t, o.(replies := o.replies[1..]));
      PrefixOfExtension(s.messages, t.messages, Run(n, s, o).state.messages);
    } else if n == ToolsForSkinTest && s.messages != [] && s.messages[|s.messages| - 1].AI? && |o.outputs| >= |LastCalls(s)| {
      var k := |LastCalls(s)|;
      var t := ToolsAnswered(s, o.outputs[..k]);
      ToolRun(n, s, o);
      QuizRunOnlyAppends(SkinTestNode, t, o.(outputs := o.outputs[k..]));
      PrefixOfExtension(s.messages, t.messages, Run(n, s, o).state.messages);
    }
  }

  /** One model step, unfolded */
  lemma ModelRun(n: Node, s: State, o: Oracle)
    requires (n == CallModel || n == SkinTestNode) && o.replies != []
    ensures var t := Answered(n, s, o.replies[0]);
      Run(n, s, o) == Visit(n, Run(Next(n, t), t, o.(replies := o.replies[1..])))
  {
  }

  /** One tool step, unfolded */
  lemma ToolRun(n: Node, s: State, o: Oracle)
    requires (n == Tools || n == ToolsForSkinTest) && s.messages != [] && s.messages[|s.messages| - 1].AI?
    requires |o.outputs| >= |LastCalls(s)|
    ensures var k := |LastCalls(s)|;
      var t := ToolsAnswered(s, o.outputs[..k]);
      Run(n, s, o) == Visit(n, Run(Next(n, t), t, o.(outputs := o.outputs[k..])))
  {
  }

  lemma PrefixOfExtension(a: seq<Message>, b: seq<Message>, c: seq<Message>)
    requires |a| <= |b| && b[..|a|] == a
    requires |b| <= |c| && c[..|b|] == b
    ensures |a| <= |c| && c[..|a|] == a
  {
    assert c[..|a|] == c[..|b|][..|a|];
  }

  /** The run from `clear_tool_messages`: it always finishes, summarising when more than 18 messages remain */
  lemma CleanupRun(s: State, o: Oracle)
    ensures var t := Cleaned(s);
      Run(ClearToolMessages, s, o) ==
        if |t.messages| > SummaryThreshold then Finished(Summarized(t, o.digest), [ClearToolMessages, SummarizeConversation])
        else Finished(t, [ClearToolMessages])
  {
    var t := Cleaned(s);
    var next := Next(ClearToolMessages, t);
    assert Run(ClearToolMessages, s, o) == Visit(ClearToolMessages, Run(next, t, o));
    if next == SummarizeConversation {
      SummarizeRun(t, o);
    } else {
      assert Run(next, t, o) == Finished(t, []);
    }
  }

  /** The run from the summariser: one step, then END */
  lemma SummarizeRun(s: State, o: Oracle)
    ensures Run(SummarizeConversation, s, o) == Finished(Summarized(s, o.digest), [SummarizeConversation])
  {
    assert Run(End, Summarized(s, o.digest), o) == Finished(Summarized(s, o.digest), []);
  }

  /**
   * `clear_tool_messages` and what follows it: the turn counter goes up by one, the tool traffic
   * is gone, the flags are untouched, and the summariser runs at most once
   */
  lemma CleanupEndsTurn(s: State, o: Oracle)
    ensures var r := Run(ClearToolMessages, s, o);
      r.Finished? && r.state.numLlamada == Some(GetOr(s.numLlamada, 0) + 1) &&
      NoToolTraffic(r.state.messages) &&
      (r.trace == [ClearToolMessages] || r.trace == [ClearToolMessages, SummarizeConversation]) &&
      r.state.atencionHumana == s.atencionHumana && r.state.aplicarSkinTest == s.aplicarSkinTest
  {
    var t := Cleaned(s);
    CleanupRun(s, o);
    CleanupRemovesTraffic(s.messages);
    if |t.messages| > SummaryThreshold {
      RemovalKeepsNoTraffic(t.messages, SummarizeUpdate(t, o.digest).messages.removed);
    }
  }

  /** After `clear_tool_messages` the stored history holds no tool traffic */
  lemma CleanupRemovesTraffic(h: seq<Message>)
    ensures NoToolTraffic(RemoveIds(h, ToolTrafficIds(h)))
  {
    var r := RemoveIds(h, ToolTrafficIds(h));
    forall i | 0 <= i < |r| ensures !IsToolTraffic(r[i]) {
      assert r[i] in r;
      if IsToolTraffic(r[i]) {
        var j :| 0 <= j < |h| && h[j] == r[i];
      }
    }
  }

  lemma RemovalKeepsNoTraffic(h: seq<Message>, ids: seq<MessageId>)
    requires NoToolTraffic(h)
    ensures NoToolTraffic(RemoveIds(h, ids))
  {
    var r := RemoveIds(h, ids);
    forall i | 0 <= i < |r| ensures !IsToolTraffic(r[i]) {
      assert r[i] in r;
    }
  }

  /**
   * With unique ids, what `clear_tool_messages` and the summariser leave stored: the history
   * without its tool traffic when at most 18 messages remain, and otherwise (given a human
   * message) the tail window of that cleaned history
   */
  lemma CleanupThenCompaction(s: State, o: Oracle)
    requires UniqueIds(s.messages)
    ensures var c := WithoutToolTraffic(s.messages);
      var r := Run(ClearToolMessages, s, o);
      (|c| <= SummaryThreshold ==> r.trace == [ClearToolMessages] && r.state.messages == c) &&
      (|c| > SummaryThreshold && LastHumanIndex(c).Some? ==>
        r.trace == [ClearToolMessages, SummarizeConversation] &&
        r.state.messages == c[LastHumanIndex(c).value..WindowEnd(c, LastHumanIndex(c).value)])
  {
    var c := WithoutToolTraffic(s.messages);
    CleanupKeepsConversation(s.messages);
    CleanupRun(s, o);
    if |c| > SummaryThreshold && LastHumanIndex(c).Some? {
      RemoveIdsKeepsUnique(s.messages, ToolTrafficIds(s.messages));
      WithoutTrafficHasNone(s.messages);
      ToolFreeHistoryKeepsWindow(c);
      CompactionLeavesRetained(c);
    }
  }

  lemma WithoutTrafficHasNone(h: seq<Message>)
    ensures NoToolTraffic(WithoutToolTraffic(h))
  {
    var c := WithoutToolTraffic(h);
    forall i | 0 <= i < |c| ensures !IsToolTraffic(c[i]) {
      assert c[i] in c;
    }
  }

  /**
   * The general path: from `call_model` (or its tool node) on, the quiz nodes are never visited
   * and a raised quiz flag stays raised
   */
  lemma {:induction false} GeneralRunStaysGeneral(n: Node, s: State, o: Oracle)
    requires n == CallModel || n == Tools
    ensures var r := Run(n, s, o);
      SkinTestNode !in r.trace && ToolsForSkinTest !in r.trace &&
      (s.aplicarSkinTest == Some(true) ==> r.state.aplicarSkinTest == Some(true))
    decreases |o.replies|, Rank(n)
  {
    if n == CallModel && o.replies != [] {
      var t := Answered(n, s, o.replies[0]);
      var rest := o.(replies := o.replies[1..]);
      ModelRun(n, s, o);
      if Next(n, t) == Tools {
        GeneralRunStaysGeneral(Tools, t, rest);
      } else {
        CleanupEndsTurn(t, rest);
      }
    } else if n == Tools && s.messages != [] && s.messages[|s.messages| - 1].AI? && |o.outputs| >= |LastCalls(s)| {
      var k := |LastCalls(s)|;
      ToolRun(n, s, o);
      GeneralRunStaysGeneral(CallModel, ToolsAnswered(s, o.outputs[..k]), o.(outputs := o.outputs[k..]));
    }
  }

  /**
   * A general run that finishes went through `clear_tool_messages`, so it advanced the turn
   * counter by exactly one and left no tool traffic stored
   */
  lemma {:induction false} GeneralRunCountsOneTurn(n: Node, s: State, o: Oracle)
    requires n == CallModel || n == Tools
    ensures var r := Run(n, s, o);
      r.Finished? ==>
        ClearToolMessages in r.trace &&
        r.state.numLlamada == Some(GetOr(s.numLlamada, 0) + 1) &&
        NoToolTraffic(r.state.messages)
    decreases |o.replies|, Rank(n)
  {
    if n == CallModel && o.replies != [] {
      var t := Answered(n, s, o.replies[0]);
      var rest := o.(replies := o.replies[1..]);
      ModelRun(n, s, o);
      if Next(n, t) == Tools {
        GeneralRunCountsOneTurn(Tools, t, rest);
      } else {
        ReplyThenCleanupCounts(s, o);
      }
    } else if n == Tools && s.messages != [] && s.messages[|s.messages| - 1].AI? && |o.outputs| >= |LastCalls(s)| {
      var k := |LastCalls(s)|;
      ToolRun(n, s, o);
      GeneralRunCountsOneTurn(CallModel, ToolsAnswered(s, o.outputs[..k]), o.(outputs := o.outputs[k..]));
    }
  }

  /** A reply of `call_model` without tool calls leads to the cleanup, which ends the turn */
  lemma ReplyThenCleanupCounts(s: State, o: Oracle)
    requires o.replies != []
    requires Next(CallModel, Answered(CallModel, s, o.replies[0])) != Tools
    ensures var r := Run(CallModel, s, o);
      r.Finished? && ClearToolMessages in r.trace &&
      r.state.numLlamada == Some(GetOr(s.numLlamada, 0) + 1) &&
      NoToolTraffic(r.state.messages)
  {
    var t := Answered(CallModel, s, o.replies[0]);
    ModelRun(CallModel, s, o);
    assert Next(CallModel, t) == ClearToolMessages;
    CleanupEndsTurn(t, o.(replies := o.replies[1..]));
  }

  /** A reply, appended to the history, keeps the ids fresh for the rest of the oracle */
  lemma FreshAfterReply(h: seq<Message>, o: Oracle)
    requires Fresh(h, o) && o.replies != []
    ensures Fresh(h + [ReplyMessage(o.replies[0])], o.(replies := o.replies[1..]))
  {
    var h' := h + [ReplyMessage(o.replies[0])];
    var rest := o.replies[1..];
    assert forall i :: 0 <= i < |rest| ==> rest[i] == o.replies[i + 1];
    assert forall i :: 0 <= i < |h| ==> h'[i] == h[i];
  }

  /** Tool messages, appended to the history, keep the ids fresh for the rest of the oracle */
  lemma FreshAfterTools(h: seq<Message>, calls: seq<ToolCall>, o: Oracle)
    requires Fresh(h, o) && |calls| <= |o.outputs|
    ensures Fresh(h + ToolMessages(calls, o.outputs[..|calls|]), o.(outputs := o.outputs[|calls|..]))
  {
    var k := |calls|;
    var added := ToolMessages(calls, o.outputs[..k]);
    var h' := h + added;
    var rest := o.outputs[k..];
    assert forall i :: 0 <= i < |rest| ==> rest[i] == o.outputs[k + i];
    assert forall i :: 0 <= i < |h| ==> h'[i] == h[i];
    assert forall i :: 0 <= i < k ==> h'[|h| + i].id == o.outputs[i].id;
  }

  /** Appending keeps a human message in the history */
  lemma HumanSurvivesAppend(h: seq<Message>, added: seq<Message>)
    requires HasHuman(h)
    ensures HasHuman(h + added)
  {
    var i :| 0 <= i < |h| && h[i].Human?;
    assert (h + added)[i] == h[i];
  }

  /** The cleanup never deletes a human message */
  lemma HumanSurvivesCleanup(h: seq<Message>)
    requires HasHuman(h)
    ensures HasHuman(WithoutToolTraffic(h))
  {
    var i :| 0 <= i < |h| && h[i].Human?;
    assert h[i] in h;
    var c := WithoutToolTraffic(h);
    var j :| 0 <= j < |c| && c[j] == h[i];
  }

  /**
   * With fresh ids and a human message stored, a general run that finishes leaves at most 18
   * messages stored: either the cleanup already brought the history to 18 or fewer, or the
   * summariser cut it to the tail window of at most four messages
   */
  lemma {:induction false} GeneralRunBoundsHistory(n: Node, s: State, o: Oracle)
    requires n == CallModel || n == Tools
    requires Fresh(s.messages, o) && HasHuman(s.messages)
    ensures var r := Run(n, s, o);
      r.Finished? ==> |r.state.messages| <= SummaryThreshold
    decreases |o.replies|, Rank(n)
  {
    if n == CallModel && o.replies != [] {
      var t := Answered(n, s, o.replies[0]);
      var rest := o.(replies := o.replies[1..]);
      ModelRun(n, s, o);
      FreshAfterReply(s.messages, o);
      HumanSurvivesAppend(s.messages, [ReplyMessage(o.replies[0])]);
      if Next(n, t) == Tools {
        GeneralRunBoundsHistory(Tools, t, rest);
      } else {
        CleanupBoundsHistory(t, rest);
      }
    } else if n == Tools && s.messages != [] && s.messages[|s.messages| - 1].AI? && |o.outputs| >= |LastCalls(s)| {
      var k := |LastCalls(s)|;
      ToolRun(n, s, o);
      FreshAfterTools(s.messages, LastCalls(s), o);
      HumanSurvivesAppend(s.messages, ToolMessages(LastCalls(s), o.outputs[..k]));
      GeneralRunBoundsHistory(CallModel, ToolsAnswered(s, o.outputs[..k]), o.(outputs := o.outputs[k..]));
    }
  }

  lemma CleanupBoundsHistory(s: State, o: Oracle)
    requires UniqueIds(s.messages) && HasHuman(s.messages)
    ensures |Run(ClearToolMessages, s, o).state.messages| <= SummaryThreshold
  {
    var c := WithoutToolTraffic(s.messages);
    HumanSurvivesCleanup(s.messages);
    LastHumanIsLast(c);
    CleanupThenCompaction(s, o);
  }

  /** The routing step from START, unfolded */
  lemma StartRun(s: State, o: Oracle)
    ensures Run(Start, s, o) == Visit(Start, Run(RequiresSkinTest(s), s, o))
  {
  }

  /** Once `atencion_humana` is raised, no node of the graph lowers it */
  lemma {:induction false} AttentionIsSticky(n: Node, s: State, o: Oracle)
    requires s.atencionHumana == Some(true)
    ensures Run(n, s, o).state.atencionHumana == Some(true)
    decreases |o.replies|, Rank(n)
  {
    match n
    case End =>
    case Start =>
      StartRun(s, o);
      AttentionIsSticky(RequiresSkinTest(s), s, o);
    case CallModel =>
      if o.replies != [] {
        ModelRun(n, s, o);
        var t := Answered(n, s, o.replies[0]);
        AttentionIsSticky(Next(n, t), t, o.(replies := o.replies[1..]));
      }
    case SkinTestNode =>
      if o.replies != [] {
        ModelRun(n, s, o);
        var t := Answered(n, s, o.replies[0]);
        AttentionIsSticky(Next(n, t), t, o.(replies := o.replies[1..]));
      }
    case Tools =>
      if s.messages != [] && s.messages[|s.messages| - 1].AI? && |o.outputs| >= |LastCalls(s)| {
        var k := |LastCalls(s)|;
        ToolRun(n, s, o);
        AttentionIsSticky(CallModel, ToolsAnswered(s, o.outputs[..k]), o.(outputs := o.outputs[k..]));
      }
    case ToolsForSkinTest =>
      if s.messages != [] && s.messages[|s.messages| - 1].AI? && |o.outputs| >= |LastCalls(s)| {
        var k := |LastCalls(s)|;
        ToolRun(n, s, o);
        AttentionIsSticky(SkinTestNode, ToolsAnswered(s, o.outputs[..k]), o.(outputs := o.outputs[k..]));
      }
    case ClearToolMessages =>
      CleanupEndsTurn(s, o);
    case SummarizeConversation =>
      SummarizeRun(s, o);
  }

  /** The state the graph starts from: the stored state with the input folded in */
  lemma InputStored(s: State, input: seq<Message>, phone: string)
    ensures var s1 := Reduce(s, InputUpdate(input, phone));
      s1.messages == s.messages + input && s1.clientPhone == Some(phone) &&
      s1.numLlamada == s.numLlamada && s1.summary == s.summary &&
      s1.atencionHumana == s.atencionHumana && s1.aplicarSkinTest == s.aplicarSkinTest
  {
  }

  /**
   * A turn while the quiz flag is raised: the quiz answers, the cleanup and the summariser never
   * run, so `num_llamada` and the summary are what they were and the stored history only grows
   * (it starts with the old history and the input)
   */
  lemma QuizTurnLeavesCounter(s: State, input: seq<Message>, phone: string, o: Oracle)
    requires s.aplicarSkinTest == Some(true)
    ensures var r := Invoke(s, input, phone, o);
      |r.trace| >= 2 && r.trace[..2] == [Start, SkinTestNode] &&
      ClearToolMessages !in r.trace && SummarizeConversation !in r.trace &&
      r.state.numLlamada == s.numLlamada && r.state.summary == s.summary &&
      |s.messages + input| <= |r.state.messages| && r.state.messages[..|s.messages + input|] == s.messages + input
  {
    var s1 := Reduce(s, InputUpdate(input, phone));
    InputStored(s, input, phone);
    StartRun(s1, o);
    QuizRunOnlyAppends(SkinTestNode, s1, o);
    if o.replies != [] {
      ModelRun(SkinTestNode, s1, o);
    }
  }

  /** A turn while the quiz flag is not raised goes to the general assistant and never to the quiz */
  lemma GeneralTurnAvoidsQuiz(s: State, input: seq<Message>, phone: string, o: Oracle)
    requires s.aplicarSkinTest != Some(true)
    ensures var r := Invoke(s, input, phone, o);
      |r.trace| >= 2 && r.trace[..2] == [Start, CallModel] &&
      SkinTestNode !in r.trace && ToolsForSkinTest !in r.trace
  {
    var s1 := Reduce(s, InputUpdate(input, phone));
    InputStored(s, input, phone);
    StartRun(s1, o);
    GeneralRunStaysGeneral(CallModel, s1, o);
    if o.replies != [] {
      ModelRun(CallModel, s1, o);
    }
  }

  /**
   * A turn while the quiz flag is not raised: when it finishes, `num_llamada` went up by exactly
   * one and no tool traffic is left stored
   */
  lemma GeneralTurnCountsOnce(s: State, input: seq<Message>, phone: string, o: Oracle)
    requires s.aplicarSkinTest != Some(true)
    ensures var r := Invoke(s, input, phone, o);
      r.Finished? ==> r.state.numLlamada == Some(GetOr(s.numLlamada, 0) + 1) && NoToolTraffic(r.state.messages)
  {
    var s1 := Reduce(s, InputUpdate(input, phone));
    InputStored(s, input, phone);
    StartRun(s1, o);
    GeneralRunCountsOneTurn(CallModel, s1, o);
  }

  /**
   * A general turn whose input carries a human message and whose ids are fresh ends with at most
   * 18 messages stored, however long the history was before
   */
  lemma GeneralTurnBoundsHistory(s: State, input: seq<Message>, phone: string, o: Oracle)
    requires s.aplicarSkinTest != Some(true)
    requires Fresh(s.messages + input, o) && HasHuman(input)
    ensures var r := Invoke(s, input, phone, o);
      r.Finished? ==> |r.state.messages| <= SummaryThreshold
  {
    var s1 := Reduce(s, InputUpdate(input, phone));
    InputStored(s, input, phone);
    StartRun(s1, o);
    var i :| 0 <= i < |input| && input[i].Human?;
    assert s1.messages[|s.messages| + i] == input[i];
    GeneralRunBoundsHistory(CallModel, s1, o);
  }

  /**
   * A general turn whose first reply calls `start_skin_test` leaves the quiz flag raised, so the
   * router sends the next turn to the quiz
   */
  lemma SkinTestRequestOpensQuiz(s: State, input: seq<Message>, phone: string, o: Oracle)
    requires s.aplicarSkinTest != Some(true) && o.replies != []
    requires exists i :: 0 <= i < |o.replies[0].toolCalls| && o.replies[0].toolCalls[i].name == StartSkinTest
    ensures RequiresSkinTest(Invoke(s, input, phone, o).state) == SkinTestNode
  {
    var s1 := Reduce(s, InputUpdate(input, phone));
    InputStored(s, input, phone);
    StartRun(s1, o);
    ModelRun(CallModel, s1, o);
    var t := Answered(CallModel, s1, o.replies[0]);
    var rest := o.(replies := o.replies[1..]);
    if Next(CallModel, t) == Tools {
      GeneralRunStaysGeneral(Tools, t, rest);
    } else {
      CleanupEndsTurn(t, rest);
    }
  }

  /** On the quiz path, a quiz flag that is stored as false stays false */
  lemma {:induction false} ClosedQuizStaysClosed(n: Node, s: State, o: Oracle)
    requires n == SkinTestNode || n == ToolsForSkinTest || n == End
    requires s.aplicarSkinTest == Some(false)
    ensures Run(n, s, o).state.aplicarSkinTest == Some(false)
    decreases |o.replies|, Rank(n)
  {
    if n == SkinTestNode && o.replies != [] {
      var t := Answered(n, s, o.replies[0]);
      ModelRun(n, s, o);
      ClosedQuizStaysClosed(Next(n, t), t, o.(replies := o.replies[1..]));
    } else if n == ToolsForSkinTest && s.messages != [] && s.messages[|s.messages| - 1].AI? && |o.outputs| >= |LastCalls(s)| {
      var k := |LastCalls(s)|;
      ToolRun(n, s, o);
      ClosedQuizStaysClosed(SkinTestNode, ToolsAnswered(s, o.outputs[..k]), o.(outputs := o.outputs[k..]));
    }
  }

  /**
   * A quiz turn whose first reply calls `clasificar_usuario` closes the quiz, so the router sends
   * the next turn back to the general assistant
   */
  lemma QuizClassificationClosesQuiz(s: State, input: seq<Message>, phone: string, o: Oracle)
    requires s.aplicarSkinTest == Some(true) && o.replies != []
    requires exists i :: 0 <= i < |o.replies[0].toolCalls| && o.replies[0].toolCalls[i].name == ClasificarUsuario
    ensures RequiresSkinTest(Invoke(s, input, phone, o).state) == CallModel
  {
    var s1 := Reduce(s, InputUpdate(input, phone));
    InputStored(s, input, phone);
    StartRun(s1, o);
    ModelRun(SkinTestNode, s1, o);
    var t := Answered(SkinTestNode, s1, o.replies[0]);
    ClosedQuizStaysClosed(Next(SkinTestNode, t), t, o.(replies := o.replies[1..]));
  }

  /** Once a turn has asked for a human, every later turn's state still says so */
  lemma AttentionSurvivesTurn(s: State, input: seq<Message>, phone: string, o: Oracle)
    requires s.atencionHumana == Some(true)
    ensures Invoke(s, input, phone, o).state.atencionHumana == Some(true)
  {
    InputStored(s, input, phone);
    AttentionIsSticky(Start, Reduce(s, InputUpdate(input, phone)), o);
  }
}
