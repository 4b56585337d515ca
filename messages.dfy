/**
 * Messages of a conversation history, as LangGraph's `MessagesState` holds them,
 * and the tool calls an assistant reply can carry.
 */
module Messages {

  datatype Option<+T> = None | Some(value: T)

  /** `d.get(key, default)` on a key that may be missing */
  function GetOr<T>(o: Option<T>, default: T): T
  {
    match o
    case Some(v) => v
    case None => default
  }

  /** The unique id LangGraph gives every stored message (the target of `RemoveMessage`) */
  type MessageId = string

  /** A tool call requested by the model: its own id, the tool's name and its arguments */
  datatype ToolCall = ToolCall(id: string, name: string, args: map<string, string>)

  datatype Message =
    | Human(id: MessageId, content: string)
    | System(id: MessageId, content: string)
    | AI(id: MessageId, content: string, toolCalls: seq<ToolCall>)
    | Tool(id: MessageId, content: string, toolCallId: string)

  /** What the language model returns: an assistant message, opaque to the engine */
  datatype Reply = Reply(id: MessageId, content: string, toolCalls: seq<ToolCall>)

  function ReplyMessage(r: Reply): Message
  {
    AI(r.id, r.content, r.toolCalls)
  }

  /** `isinstance(m, AIMessage) and m.tool_calls`: an AI message whose list of calls is not empty */
  predicate HasToolCalls(m: Message)
  {
    m.AI? && |m.toolCalls| > 0
  }

  /** Tool traffic: an AI message that calls tools, or a tool's answer */
  predicate IsToolTraffic(m: Message)
  {
    HasToolCalls(m) || m.Tool?
  }

  /** `args.get(key, default)` */
  function ArgOr(args: map<string, string>, key: string, default: string): string
  {
    if key in args then args[key] else default
  }

  // Tool names, as the tools are registered with the model
  const RetrieverInfoTienda: string := "retriever_info_tienda"
  const RetrieverInfoProductos: string := "retriever_info_productos"
  const CallForHumanHelp: string := "call_for_human_help"
  const StartSkinTest: string := "start_skin_test"
  const ClasificarUsuario: string := "clasificar_usuario"

  /** The ids of a history, in order */
  function Ids(h: seq<Message>): (ids: seq<MessageId>)
    ensures |ids| == |h|
    ensures forall i :: 0 <= i < |h| ==> ids[i] == h[i].id
  {
    seq(|h|, i requires 0 <= i < |h| => h[i].id)
  }

  ghost predicate Distinct<T>(s: seq<T>)
  {
    forall i, j :: 0 <= i < j < |s| ==> s[i] != s[j]
  }

  ghost predicate Disjoint<T>(a: seq<T>, b: seq<T>)
  {
    forall x :: x in a ==> x !in b
  }

  /** No two messages of the history share an id */
  ghost predicate UniqueIds(h: seq<Message>)
  {
    forall i, j :: 0 <= i < j < |h| ==> h[i].id != h[j].id
  }

  ghost predicate HasHuman(h: seq<Message>)
  {
    exists i :: 0 <= i < |h| && h[i].Human?
  }

  lemma DistinctConcat<T>(a: seq<T>, b: seq<T>)
    ensures Distinct(a + b) <==> Distinct(a) && Distinct(b) && Disjoint(a, b)
  {
    var ab := a + b;
    assert forall i :: 0 <= i < |a| ==> ab[i] == a[i];
    assert forall j :: 0 <= j < |b| ==> ab[|a| + j] == b[j];
    if Distinct(ab) {
      forall i, j | 0 <= i < j < |b| ensures b[i] != b[j] {
        assert ab[|a| + i] != ab[|a| + j];
      }
    }
    if Distinct(a) && Distinct(b) && Disjoint(a, b) {
      forall i, j | 0 <= i < j < |ab| ensures ab[i] != ab[j] {
        if j < |a| {
        } else if i >= |a| {
          assert ab[i] == b[i - |a|] && ab[j] == b[j - |a|];
        } else {
          assert ab[i] in a && ab[j] == b[j - |a|];
        }
      }
    }
  }

  /** Equal messages have equal ids, so in a history with unique ids, equal messages sit at the same place */
  lemma SamePosition(h: seq<Message>, i: nat, j: nat)
    requires UniqueIds(h) && i < |h| && j < |h| && h[i] == h[j]
    ensures i == j
  {
  }
}
