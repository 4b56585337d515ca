/**
 * The graph's nodes and its edge table: the mode router on entry, LangGraph's
 * `tools_condition` after each model node, and `should_continue` after the tool cleanup.
 */
module Routing {
  import opened Messages
  import opened GraphState

  datatype Node =
    | Start
    | CallModel
    | SkinTestNode
    | Tools
    | ToolsForSkinTest
    | ClearToolMessages
    | SummarizeConversation
    | End

  /** Above this many stored messages the turn ends with a summarisation */
  const SummaryThreshold: nat := 18

  /** `requires_skin_test`: the quiz node exactly when `aplicar_skin_test` is stored and true */
  function RequiresSkinTest(s: State): (n: Node)
    ensures n == SkinTestNode <==> s.aplicarSkinTest == Some(true)
    ensures n == CallModel <==> s.aplicarSkinTest != Some(true)
  {
    if GetOr(s.aplicarSkinTest, false) then SkinTestNode else CallModel
  }

  /**
   * LangGraph's `tools_condition`: "tools" when the last message calls tools, END otherwise.
   * It raises on an empty history, so it demands a message.
   */
  function ToolsCondition(h: seq<Message>): (callsTools: bool)
    requires |h| > 0
    ensures callsTools <==> h[|h| - 1].AI? && h[|h| - 1].toolCalls != []
  {
    HasToolCalls(h[|h| - 1])
  }

  /** `should_continue`: summarise when more than 18 messages are stored, otherwise end the turn */
  function ShouldContinue(s: State): (n: Node)
    ensures n == SummarizeConversation <==> |s.messages| >= 19
    ensures n == End <==> |s.messages| <= 18
  {
    if |s.messages| > SummaryThreshold then SummarizeConversation else End
  }

  /** The node that runs after `n`, given the state `n` left behind */
  function Next(n: Node, s: State): Node
    requires n != End
    requires n == CallModel || n == SkinTestNode ==> |s.messages| > 0
  {
    match n
    case Start => RequiresSkinTest(s)
    case SkinTestNode => if ToolsCondition(s.messages) then ToolsForSkinTest else End
    case ToolsForSkinTest => SkinTestNode
    case CallModel => if ToolsCondition(s.messages) then Tools else ClearToolMessages
    case Tools => CallModel
    case ClearToolMessages => ShouldContinue(s)
    case SummarizeConversation => End
  }

  /**
   * The edge table: START goes to one of the two model nodes; each model node goes to its own tool
   * node exactly when its reply calls tools, the general assistant to the cleanup otherwise and
   * the quiz to END; each tool node returns to its model node; the cleanup goes to the summariser
   * or to END, and the summariser to END
   */
  lemma EdgeTable(n: Node, s: State)
    requires n != End
    requires n == CallModel || n == SkinTestNode ==> |s.messages| > 0
    ensures var m := Next(n, s);
      (n == Start ==> m in {CallModel, SkinTestNode}) &&
      (n == CallModel ==> (m == Tools <==> HasToolCalls(s.messages[|s.messages| - 1]))) &&
      (n == CallModel ==> m in {Tools, ClearToolMessages}) &&
      (n == SkinTestNode ==> (m == ToolsForSkinTest <==> HasToolCalls(s.messages[|s.messages| - 1]))) &&
      (n == SkinTestNode ==> m in {ToolsForSkinTest, End}) &&
      (n == Tools ==> m == CallModel) &&
      (n == ToolsForSkinTest ==> m == SkinTestNode) &&
      (n == ClearToolMessages ==> m in {SummarizeConversation, End}) &&
      (n == SummarizeConversation ==> m == End)
  {
  }
}
