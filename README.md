# Conversation-state engine of the Aspid Pro assistant, modelled in Dafny

The assistant is a LangGraph state machine (`chatbot_graph.py`). Every inbound message is folded
into a stored state: the message history plus the keys `summary`, `message_type`, `num_llamada`,
`tipo_de_cliente`, `tipo_de_piel`, `atencion_humana`, `aplicar_skin_test` and `client_phone`. Then
the graph runs from START to END:

- the mode router (`requires_skin_test`) picks the general assistant (`call_model`) or the
  skin-test quiz (`skin_test_node`);
- a model node builds the model input, takes the model's reply and turns the reply's tool calls
  into flag updates and a reply-format tag;
- LangGraph's `tools_condition` sends a reply with tool calls to that node's `ToolNode`, which
  answers and returns to the model node;
- a final general-assistant reply goes to `clear_tool_messages`, which deletes every tool-calling
  AI message and every tool message and advances `num_llamada`;
- `should_continue` sends a history of more than 18 messages to `summarize_conversation`, which
  stores a new summary and deletes everything outside a short tail window that starts at the last
  human message, after a pairing repair of the window's last tool call;
- a final quiz reply ends the turn directly.

The model has one module per part:

| module | file | models |
|---|---|---|
| `Messages` | messages.dfy | messages, tool calls, replies, tool-name constants |
| `GraphState` | graph_state.dfy | the state's channels and LangGraph's reducer (append, delete by id, overwrite) |
| `Routing` | routing.dfy | the router, `tools_condition`, `should_continue`, the edge table |
| `ModelNodes` | model_nodes.dfy | `call_model` and `skin_test_node` |
| `ToolCleanup` | tool_cleanup.dfy | `clear_tool_messages` |
| `Compactor` | compactor.dfy | the filtering logic of `summarize_conversation` |
| `Turn` | turn.dfy | one invocation of the compiled graph, end to end |

How the pieces are represented:

- A missing state key is `None`, and `state.get(k, d)` is `GetOr`.
- A node returns an `Update`: the dict it hands back, with `None` for keys it does not return.
  `Reduce` is how the graph applies it.
- The nodes are `method`s with the source's loops over tool calls and messages. Each is proved
  equal to a specification function (`CallModelUpdate`, `SkinTestUpdate`,
  `ClearToolMessagesUpdate`, `SummarizeUpdate`), and the properties are proved about those
  functions.
- The dict mutation inside a node is local to the call, because LangGraph applies only the dict
  that comes back. So the model uses local variables, not an object.
- `Turn.Run` is a function of an `Oracle`: the model's replies, the tool outputs and the
  summariser's text, consumed in order.

The code behaves as follows, which a reader might not expect; the model does the same:

- Only the general-assistant path reaches `clear_tool_messages`. A quiz turn goes from
  `skin_test_node` straight to END, so it neither deletes tool traffic, nor advances
  `num_llamada`, nor compacts (`Turn.QuizTurnLeavesCounter`).
- The pairing repair looks at the last tool-calling AI message anywhere in the window, not only
  at the window's final message.
- The repair checks only that the message right after that AI message in the full history is a
  tool message. It does not check that the tool message answers that call
  (`Compactor.RepairIgnoresToolCallId`).
- Taken on its own, the summariser keeps an earlier tool-calling AI message that has no answer
  (`Compactor.EarlierOrphanSurvives`). So "every kept tool call is followed by its answer" does
  not hold of `summarize_conversation` alone. In the built graph, however, the summariser runs
  only after `clear_tool_messages`, so the history it sees holds no tool traffic
  (`Turn.CleanupThenCompaction`). On such a history the repair never fires and the window is
  kept as it is (`Compactor.ToolFreeHistoryKeepsWindow`). So in the built graph no unanswered
  tool call is ever kept.
- The front trim (`TrimFront`) never removes anything. The repaired window always starts with the
  last human message (`Compactor.RepairedStartsWithLastHuman`).

## Model

| member | source | states |
|---|---|---|
| GraphState.RemoveIds | chatbot_graph.py:236-244 | applying a list of `RemoveMessage`s keeps exactly the messages whose id is not listed, and never lengthens the history |
| GraphState.Reduce | chatbot_graph.py:21-29 | a returned `messages` value is appended, or deleted by id; a returned counter, flag, skin type, summary, `message_type` or `client_phone` replaces the stored value, and each keeps its stored value when a node does not return it; `tipo_de_cliente` is never written |
| GraphState.RemoveIdsKeepsUnique | chatbot_graph.py:236-244 | deleting by id keeps the ids of the stored history unique |
| Routing.RequiresSkinTest | chatbot_graph.py:32-37 | the quiz node exactly when `aplicar_skin_test` is stored and true; a missing flag routes to `call_model` |
| Routing.ToolsCondition | chatbot_graph.py:315-321 | the tool branch exactly when the last message is an AI message with a non-empty list of tool calls |
| Routing.ShouldContinue | chatbot_graph.py:288-296 | summarise exactly when more than 18 messages are stored (19 or more), END exactly when 18 or fewer |
| Routing.EdgeTable | chatbot_graph.py:310-330 | START goes to one of the two model nodes; `call_model` goes to `tools` iff its reply calls tools and otherwise to `clear_tool_messages`; `skin_test_node` goes to `tools_for_skin_test` iff its reply calls tools and otherwise to END; each tool node returns to its model node; the cleanup goes to the summariser or END; the summariser goes to END |
| ModelNodes.BuildModelInput | chatbot_graph.py:54-62 | the model sees the stored history after a system text that starts with the prompt; it is the prompt alone when the summary is empty or missing, and otherwise the prompt is followed by the fixed prefix `Resumen de la conversación anterior: ` and then the summary |
| ModelNodes.MessageType | chatbot_graph.py:90-103 | the tag is "image" exactly when `num_llamada` is 0 or missing, and "text" otherwise |
| ModelNodes.LastClassification | chatbot_graph.py:143-149 | a classification exists exactly when some call names `clasificar_usuario` |
| ModelNodes.LastClassificationAt | chatbot_graph.py:133-149 | the classification is the `tipo_de_piel` argument (default "") of the last `clasificar_usuario` call |
| ModelNodes.CallModel | chatbot_graph.py:68-103 | returns the reply as the one added message and the tag for `num_llamada`; `atencion_humana` is true iff it was stored true or some call names `call_for_human_help`; `aplicar_skin_test` is true iff it was stored true or some call names `start_skin_test`; so neither flag is ever lowered; no other key is returned |
| ModelNodes.SkinTestNode | chatbot_graph.py:126-167 | returns the reply and the tag; `atencion_humana` is true iff it was stored true or some call asks for a human; with a `clasificar_usuario` call, the last one's argument becomes `tipo_de_piel` and the quiz flag is false; without one, `tipo_de_piel` keeps its stored value (default "") and the quiz flag keeps its stored value (default true) |
| ToolCleanup.ToolTrafficIds | chatbot_graph.py:267-280 | lists exactly the ids of tool-calling AI messages and tool messages |
| ToolCleanup.WithoutToolTraffic | chatbot_graph.py:252-260 | keeps exactly the messages that are not tool traffic |
| ToolCleanup.ClearToolMessages | chatbot_graph.py:250-284 | the removal list names exactly the tool traffic, `num_llamada` is returned as the stored value (default 0) plus one, and no other key is returned |
| ToolCleanup.CleanupKeepsConversation | chatbot_graph.py:262-284 | with unique ids, the deletions leave exactly the non-tool messages in their original order |
| ToolCleanup.CleanupIsIdempotent | chatbot_graph.py:262-284 | a second cleanup on the cleaned history finds nothing to delete |
| Compactor.LastHumanIndex | chatbot_graph.py:186-191 | a found position holds a human message |
| Compactor.LastHumanIsLast | chatbot_graph.py:187-196 | no position is found exactly when the history has no human message; no human message follows the found one |
| Compactor.LastToolCallIndex | chatbot_graph.py:201-205 | a found position holds an AI message with tool calls |
| Compactor.LastToolCallIsLast | chatbot_graph.py:201-205 | no position is found exactly when no window message calls tools; no tool-calling AI message follows the found one |
| Compactor.FirstHumanIndex | chatbot_graph.py:224-229 | a found position holds a human message |
| Compactor.FirstHumanFromIsFirst | chatbot_graph.py:224-229 | no position is found exactly when there is no human message from the start point on; none comes before the found one |
| Compactor.WindowEnd | chatbot_graph.py:198-199 | the window starts at the last human message, holds at most 4 messages, and is cut short only by the end of the history |
| Compactor.RepairStep | chatbot_graph.py:201-222 | a pull-in or a drop names a window position holding an AI message with tool calls; a pull-in happens only when the next history message is a tool message not already in the window, and a drop only when the next message is not a tool message or there is none |
| Compactor.DeletionIds | chatbot_graph.py:236-242 | lists exactly the ids of the history's messages that are not kept |
| Compactor.FindLastHuman | chatbot_graph.py:186-191 | the reverse scan finds the last human message |
| Compactor.FindLastToolCall | chatbot_graph.py:201-205 | the forward scan remembers the last tool-calling AI message |
| Compactor.FindFirstHuman | chatbot_graph.py:224-229 | the forward scan finds the first human message |
| Compactor.CollectDeletions | chatbot_graph.py:236-242 | the loop emits one id for each message that is not kept, in history order |
| Compactor.DecideRepair | chatbot_graph.py:207-213 | the branches of the repair pick the pull-in, the drop or no change |
| Compactor.RepairWindow | chatbot_graph.py:207-222 | the candidates after the repair are the repaired window |
| Compactor.SummarizeConversation | chatbot_graph.py:170-244 | stores the new summary; without a human message nothing is deleted; otherwise the removals name exactly the messages outside the retained ones; no other key is returned |
| Compactor.RepairedStartsWithLastHuman | chatbot_graph.py:224-234 | the repaired window is non-empty and starts with the last human message, so the front trim keeps it whole |
| Compactor.RetainedIsRepaired | chatbot_graph.py:224-234 | what is kept is the repaired window itself |
| Compactor.RepairKeepsWindow | chatbot_graph.py:207-213 | when no window message calls tools, or when the message after the last tool call is a tool message already in the window, the window is kept as sliced |
| Compactor.RepairPullsInAnswer | chatbot_graph.py:212-217 | a pulled-in answer sits right after a full window, so the kept messages are the window extended by one history message |
| Compactor.RepairDropsCall | chatbot_graph.py:218-222 | when the message after the window's last tool call is not a tool message (or there is none), that AI message is cut out of the window and the other window messages stay in order |
| Compactor.RepairShape | chatbot_graph.py:198-222 | the repaired window is the tail window, the tail window plus the next message, or the tail window minus one message; it holds at most 5 messages |
| Compactor.RetainedShape | chatbot_graph.py:187-234 | the kept messages are a contiguous tail of the history (or one with a single message cut out), so they keep the history's order; they start with the last human message and number at most 5 |
| Compactor.PairingRepairKeepsAnsweredCall | chatbot_graph.py:207-217 | with unique ids, when a tool message follows the window's last tool call in the history, both are kept, the tool message right after the call |
| Compactor.PairingRepairDropsOrphanCall | chatbot_graph.py:218-222 | with unique ids, when no tool message follows the window's last tool call, that AI message is not kept |
| Compactor.ToolFreeHistoryKeepsWindow | chatbot_graph.py:198-205 | without tool traffic, exactly the window of at most 4 messages from the last human message is kept |
| Compactor.DeletionIdsDistinct | chatbot_graph.py:236-242 | with unique ids, the deletion list names each deleted message once |
| Compactor.CompactionLeavesRetained | chatbot_graph.py:236-244 | with unique ids, applying the deletion list leaves exactly the retained messages, in order |
| Compactor.RemoveOutsideShape | chatbot_graph.py:236-244 | with unique ids, deleting everything outside a kept tail of any of the three shapes leaves exactly that tail |
| Compactor.EarlierOrphanSurvives | chatbot_graph.py:201-205 | an example: a tool-calling AI message before the window's last one keeps its place although no tool message answers it |
| Compactor.RepairIgnoresToolCallId | chatbot_graph.py:209-210 | an example: a tool message that answers another call is accepted as the answer |
| Turn.ToolMessages | chatbot_graph.py:304-305 | a tool node adds one tool message per call of the last message, each carrying that call's id |
| Turn.Cleaned | chatbot_graph.py:282-284 | after the cleanup `num_llamada` is the stored value plus one; the summary and both flags are unchanged |
| Turn.Summarized | chatbot_graph.py:244 | after the summariser the summary is the new text; `num_llamada` and both flags are unchanged |
| Turn.Answered | chatbot_graph.py:70-103 | a model step appends the reply and stores `atencion_humana`, which stays true once true; `call_model` also stores the quiz flag, which stays true once true and becomes true on a `start_skin_test` call; `skin_test_node` keeps a false quiz flag false and lowers it on a `clasificar_usuario` call |
| Turn.ToolsAnswered | chatbot_graph.py:304-305 | a tool step only appends the tool messages |
| Turn.QuizRunOnlyAppends | chatbot_graph.py:314-317 | from the quiz on, the run never visits the cleanup or the summariser, leaves `num_llamada` and the summary unchanged, and only appends to the history |
| Turn.CleanupRun | chatbot_graph.py:325-330 | after the cleanup, a run summarises once exactly when more than 18 messages remain, and then ends |
| Turn.SummarizeRun | chatbot_graph.py:330 | the summariser is followed by END |
| Turn.CleanupEndsTurn | chatbot_graph.py:325-330 | the run from the cleanup always finishes, advances `num_llamada` by one, leaves no tool traffic, keeps both flags, and visits the summariser at most once |
| Turn.CleanupRemovesTraffic | chatbot_graph.py:262-284 | after the cleanup no tool traffic is stored |
| Turn.CleanupThenCompaction | chatbot_graph.py:288-296 | with unique ids, the run from the cleanup stores the tool-free history when at most 18 messages remain, and otherwise its tail window from the last human message |
| Turn.HumanSurvivesCleanup | chatbot_graph.py:267-280 | the cleanup never deletes a human message |
| Turn.GeneralRunStaysGeneral | chatbot_graph.py:319-322 | from `call_model` or `tools` on, the quiz nodes are never visited and a raised quiz flag stays raised |
| Turn.ReplyThenCleanupCounts | chatbot_graph.py:319-330 | a `call_model` reply that the router does not send to `tools` leads to the cleanup, and the run then finishes with `num_llamada` advanced by one and no tool traffic left |
| Turn.GeneralRunCountsOneTurn | chatbot_graph.py:319-330 | a general run that finishes went through the cleanup, advanced `num_llamada` by exactly one and left no tool traffic |
| Turn.GeneralRunBoundsHistory | chatbot_graph.py:319-330 | with fresh ids and a human message stored, a general run that finishes leaves at most 18 messages |
| Turn.CleanupBoundsHistory | chatbot_graph.py:325-330 | with unique ids and a human message stored, the run from the cleanup leaves at most 18 messages |
| Turn.AttentionIsSticky | chatbot_graph.py:70-82 | once `atencion_humana` is true, no node of the graph lowers it |
| Turn.InputStored | chatbot_graph.py:342-344 | the input messages are appended and the phone is stored; the counter, the summary and both flags are unchanged |
| Turn.QuizTurnLeavesCounter | chatbot_graph.py:310-317 | a turn with the quiz flag raised goes START then quiz, never cleans up or summarises, keeps `num_llamada` and the summary, and keeps the old history and the input as a prefix |
| Turn.GeneralTurnAvoidsQuiz | chatbot_graph.py:310-322 | a turn without the quiz flag goes START then `call_model`, and never visits a quiz node |
| Turn.GeneralTurnCountsOnce | chatbot_graph.py:319-330 | a general turn that finishes advances `num_llamada` by exactly one and leaves no tool traffic |
| Turn.GeneralTurnBoundsHistory | chatbot_graph.py:288-296 | a general turn whose input holds a human message and whose ids are fresh ends with at most 18 messages stored, however long the history was |
| Turn.SkinTestRequestOpensQuiz | chatbot_graph.py:84-88 | a general turn whose first reply calls `start_skin_test` leaves the quiz flag raised, so the next turn is routed to the quiz |
| Turn.ClosedQuizStaysClosed | chatbot_graph.py:129-149 | along the quiz path (`skin_test_node`, its tool node, END) a quiz flag stored as false stays false |
| Turn.QuizClassificationClosesQuiz | chatbot_graph.py:144-149 | a quiz turn whose first reply calls `clasificar_usuario` lowers the quiz flag, so the next turn is routed to `call_model` |
| Turn.AttentionSurvivesTurn | chatbot_graph.py:78-82 | once a turn has asked for a human, the state after any later turn still says so |

## Left out

- The model calls (`llm_with_tools.invoke`, `llm.invoke`) are external. Their replies and the new summary text are inputs, in `Turn.Oracle`.
- The summariser's own prompt (the text that asks the model to create or extend the summary) is left out. Only the model's answer is used.
- The prompt texts, the current date and time, and the formatting of the prompt are left out. `BuildModelInput` takes the formatted prompt as a parameter.
- The tools (vector-store retrievers, e-mail, constant answers) and `ToolNode`'s execution of them are not part of this model. Tool outputs come from the oracle, and only the names of the tools the nodes test for are kept as constants.
- The SQLite checkpointer is left out: `Turn.Invoke` takes the stored state as a parameter and returns the new one. The streaming loop of the wrapper `call_model` (chatbot_graph.py:339-350), which reads the events and picks the last message, is left out; the input it passes to the graph, `{"messages": ..., "client_phone": ...}`, is modelled (`Turn.Invoke`, `Turn.InputStored`). The WhatsApp utilities and the Streamlit front end are also left out.
- `add_messages` replaces a message whose id is already stored, and raises on a `RemoveMessage` for an unknown id. Neither is modelled: `Reduce` appends, and deletes only the listed ids that are present.
- Message identity (`is not` at chatbot_graph.py:221) is modelled as position in the window. Value membership (`not in`) is datatype equality.
- Python's exceptions are not modelled. A tool node given a history whose last message is not an AI message, or a run that runs out of replies, ends as `Stuck`.
- The `print` logging in every node is left out.
- Compactor.PairingRepairKeepsAnsweredCall, Compactor.PairingRepairDropsOrphanCall, Compactor.CompactionLeavesRetained, Compactor.DeletionIdsDistinct and ToolCleanup.CleanupKeepsConversation assume that stored ids are unique, as LangGraph assigns them. The source relies on this without checking it.
- Turn.GeneralRunBoundsHistory and Turn.GeneralTurnBoundsHistory assume fresh ids for every reply and tool output, and a human message in the input. Without a human message the summariser deletes nothing.
- `num_llamada` is an unbounded integer, as in Python.
- Turn.Run, Turn.CleanupEndsTurn: LangGraph's step limit (25 steps by default, since the graph is invoked without a `recursion_limit`) is not modelled. A turn with many model/tool round trips raises `GraphRecursionError` in the source, possibly at the cleanup or summariser step, while `Run` goes on for as long as the oracle lasts and the cleanup run always finishes.
