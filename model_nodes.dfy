/**
 * The two model-turn nodes. Each builds the model's input (a system prompt, with the rolling
 * summary appended when there is one, followed by the stored history), takes the model's reply
 * as an opaque input, turns the reply's tool calls into flag updates and picks the reply format.
 */
module ModelNodes {
  import opened Messages
  import opened GraphState

  /** What the model is invoked with: one system message, then the stored history */
  datatype ModelInput = ModelInput(system: string, history: seq<Message>)

  const SummaryPrefix: string := "Resumen de la conversación anterior: "

  /**
   * The system prompt followed, when the stored summary is not empty, by the summary.
   * `prompt` is the node's already formatted instructions (date, phone and skin type are
   * formatted in by the assistant; the quiz uses its fixed text).
   */
  function BuildModelInput(prompt: string, s: State): (input: ModelInput)
    ensures input.history == s.messages
    ensures |input.system| >= |prompt| && input.system[..|prompt|] == prompt
    ensures GetOr(s.summary, "") == "" ==> input.system == prompt
    ensures GetOr(s.summary, "") != "" ==>
      var summary := GetOr(s.summary, "");
      |input.system| == |prompt| + |SummaryPrefix| + |summary| &&
      input.system[|prompt|..|prompt| + |SummaryPrefix|] == SummaryPrefix &&
      input.system[|input.system| - |summary|..] == summary
  {
    var summary := GetOr(s.summary, "");
    if summary != "" then
      ModelInput(prompt + SummaryPrefix + summary, s.messages)
    else
      ModelInput(prompt, s.messages)
  }

  /** The reply format: "image" on the first exchange (no completed turn yet), "text" afterwards */
  function MessageType(s: State): (tag: string)
    ensures tag == "image" <==> GetOr(s.numLlamada, 0) == 0
    ensures tag == "text" <==> GetOr(s.numLlamada, 0) != 0
  {
    if GetOr(s.numLlamada, 0) != 0 then "text" else "image"
  }

  /** Some call in `calls` names the tool `name` */
  ghost predicate CallsTool(calls: seq<ToolCall>, name: string)
  {
    exists i :: 0 <= i < |calls| && calls[i].name == name
  }

  /** `calls[i]` is the last `clasificar_usuario` call of `calls` */
  ghost predicate IsLastClassification(calls: seq<ToolCall>, i: int)
  {
    0 <= i < |calls| && calls[i].name == ClasificarUsuario &&
    forall j :: i < j < |calls| ==> calls[j].name != ClasificarUsuario
  }

  /** The `tipo_de_piel` argument (default "") of the last `clasificar_usuario` call, if there is one */
  function LastClassification(calls: seq<ToolCall>): (r: Option<string>)
    ensures r.None? <==> !CallsTool(calls, ClasificarUsuario)
  {
    if calls == [] then None
    else
      var last := calls[|calls| - 1];
      if last.name == ClasificarUsuario then Some(ArgOr(last.args, "tipo_de_piel", ""))
      else
        var r := LastClassification(calls[..|calls| - 1]);
        assert forall i :: 0 <= i < |calls| - 1 ==> calls[..|calls| - 1][i] == calls[i];
        r
  }

  lemma {:induction false} LastClassificationAt(calls: seq<ToolCall>, i: int)
    requires IsLastClassification(calls, i)
    ensures LastClassification(calls) == Some(ArgOr(calls[i].args, "tipo_de_piel", ""))
  {
    if i < |calls| - 1 {
      var prefix := calls[..|calls| - 1];
      assert prefix[i] == calls[i];
      LastClassificationAt(prefix, i);
    }
  }

  /** Scanning one more call: a `clasificar_usuario` call becomes the last classification */
  lemma LastClassificationStep(calls: seq<ToolCall>, i: nat)
    requires i < |calls|
    ensures LastClassification(calls[..i + 1]) ==
      if calls[i].name == ClasificarUsuario then Some(ArgOr(calls[i].args, "tipo_de_piel", ""))
      else LastClassification(calls[..i])
  {
    assert calls[..i + 1][..i] == calls[..i];
  }

  /** Scanning one more call: the tool is called in the longer prefix iff it was before or is now */
  lemma CallsToolStep(calls: seq<ToolCall>, i: nat, name: string)
    requires i < |calls|
    ensures CallsTool(calls[..i + 1], name) <==> CallsTool(calls[..i], name) || calls[i].name == name
  {
    assert forall j :: 0 <= j < i ==> calls[..i + 1][j] == calls[..i][j];
    assert calls[..i + 1][i] == calls[i];
  }

  /** The dict `call_model` returns, as a function of the state and the model's reply */
  ghost function CallModelUpdate(s: State, reply: Reply): Update
  {
    Update(
      Add([ReplyMessage(reply)]),
      None,
      Some(MessageType(s)),
      None,
      None,
      Some(GetOr(s.atencionHumana, false) || CallsTool(reply.toolCalls, CallForHumanHelp)),
      Some(GetOr(s.aplicarSkinTest, false) || CallsTool(reply.toolCalls, StartSkinTest)),
      None)
  }

  /** The dict `skin_test_node` returns, as a function of the state and the model's reply */
  ghost function SkinTestUpdate(s: State, reply: Reply): Update
  {
    var classified := LastClassification(reply.toolCalls);
    Update(
      Add([ReplyMessage(reply)]),
      None,
      Some(MessageType(s)),
      None,
      Some(if classified.Some? then classified.value else GetOr(s.tipoDePiel, "")),
      Some(GetOr(s.atencionHumana, false) || CallsTool(reply.toolCalls, CallForHumanHelp)),
      Some(if classified.Some? then false else GetOr(s.aplicarSkinTest, true)),
      None)
  }

  /**
   * `call_model`: the general assistant. A `call_for_human_help` call raises the escalation
   * flag, a `start_skin_test` call raises the quiz flag; neither flag is ever lowered here.
   */
  method CallModel(s: State, reply: Reply) returns (u: Update)
    ensures u.messages == Add([AI(reply.id, reply.content, reply.toolCalls)])
    ensures u.messageType == Some(if GetOr(s.numLlamada, 0) == 0 then "image" else "text")
    ensures u.atencionHumana.Some? && u.aplicarSkinTest.Some?
    ensures u.atencionHumana.value <==>
      s.atencionHumana == Some(true) || exists i :: 0 <= i < |reply.toolCalls| && reply.toolCalls[i].name == CallForHumanHelp
    ensures u.aplicarSkinTest.value <==>
      s.aplicarSkinTest == Some(true) || exists i :: 0 <= i < |reply.toolCalls| && reply.toolCalls[i].name == StartSkinTest
    ensures u.summary.None? && u.numLlamada.None? && u.tipoDePiel.None? && u.clientPhone.None?
    ensures u == CallModelUpdate(s, reply)
  {
    var atencionHumana := GetOr(s.atencionHumana, false);
    var aplicarSkinTest := GetOr(s.aplicarSkinTest, false);
    var calls := reply.toolCalls;
    var i := 0;
    while i < |calls|
      invariant 0 <= i <= |calls|
      invariant atencionHumana == (GetOr(s.atencionHumana, false) || CallsTool(calls[..i], CallForHumanHelp))
      invariant aplicarSkinTest == (GetOr(s.aplicarSkinTest, false) || CallsTool(calls[..i], StartSkinTest))
    {
      CallsToolStep(calls, i, CallForHumanHelp);
      CallsToolStep(calls, i, StartSkinTest);
      var name := calls[i].name;
      if name == CallForHumanHelp {
        atencionHumana := true;
      }
      if name == StartSkinTest {
        aplicarSkinTest := true;
      }
      i := i + 1;
    }
    assert calls[..i] == calls;
    var messageType := if GetOr(s.numLlamada, 0) != 0 then "text" else "image";
    u := Update(Add([ReplyMessage(reply)]), None, Some(messageType), None, None,
                Some(atencionHumana), Some(aplicarSkinTest), None);
  }

  /**
   * `skin_test_node`: the quiz. A `clasificar_usuario` call stores its `tipo_de_piel` argument
   * (the last such call wins) and ends the quiz; without one the skin type is unchanged and the
   * quiz flag keeps its value (true when the key was never written). A `call_for_human_help`
   * call only raises the escalation flag.
   */
  method SkinTestNode(s: State, reply: Reply) returns (u: Update)
    ensures u.messages == Add([AI(reply.id, reply.content, reply.toolCalls)])
    ensures u.messageType == Some(if GetOr(s.numLlamada, 0) == 0 then "image" else "text")
    ensures u.atencionHumana.Some? && u.aplicarSkinTest.Some? && u.tipoDePiel.Some?
    ensures u.atencionHumana.value <==>
      s.atencionHumana == Some(true) || exists i :: 0 <= i < |reply.toolCalls| && reply.toolCalls[i].name == CallForHumanHelp
    ensures (forall i :: 0 <= i < |reply.toolCalls| ==> reply.toolCalls[i].name != ClasificarUsuario) ==>
      u.tipoDePiel.value == GetOr(s.tipoDePiel, "") && u.aplicarSkinTest.value == GetOr(s.aplicarSkinTest, true)
    ensures forall i :: IsLastClassification(reply.toolCalls, i) ==>
      u.tipoDePiel.value == ArgOr(reply.toolCalls[i].args, "tipo_de_piel", "") && !u.aplicarSkinTest.value
    ensures u.summary.None? && u.numLlamada.None? && u.clientPhone.None?
    ensures u == SkinTestUpdate(s, reply)
  {
    var atencionHumana := GetOr(s.atencionHumana, false);
    var tipoDePiel := GetOr(s.tipoDePiel, "");
    var aplicarSkinTest := GetOr(s.aplicarSkinTest, true);
    var calls := reply.toolCalls;
    var i := 0;
    while i < |calls|
      invariant 0 <= i <= |calls|
      invariant atencionHumana == (GetOr(s.atencionHumana, false) || CallsTool(calls[..i], CallForHumanHelp))
      invariant tipoDePiel == GetOr(LastClassification(calls[..i]), GetOr(s.tipoDePiel, ""))
      invariant aplicarSkinTest == (LastClassification(calls[..i]).None? && GetOr(s.aplicarSkinTest, true))
    {
      LastClassificationStep(calls, i);
      CallsToolStep(calls, i, CallForHumanHelp);
      var name := calls[i].name;
      if name == CallForHumanHelp {
        atencionHumana := true;
      } else if name == ClasificarUsuario {
        tipoDePiel := ArgOr(calls[i].args, "tipo_de_piel", "");
        aplicarSkinTest := false;
      }
      i := i + 1;
    }
    assert calls[..i] == calls;
    forall k | IsLastClassification(calls, k)
      ensures LastClassification(calls) == Some(ArgOr(calls[k].args, "tipo_de_piel", ""))
    {
      LastClassificationAt(calls, k);
    }
    var messageType := if GetOr(s.numLlamada, 0) != 0 then "text" else "image";
    u := Update(Add([ReplyMessage(reply)]), None, Some(messageType), None, Some(tipoDePiel),
                Some(atencionHumana), Some(aplicarSkinTest), None);
  }
}
