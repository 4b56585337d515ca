/**
 * `clear_tool_messages`: after the general assistant's final reply, every tool-calling AI
 * message and every tool answer is deleted from the stored history, and the turn counter
 * `num_llamada` goes up by one.
 */
module ToolCleanup {
  import opened Messages
  import opened GraphState

  /** The ids of the tool traffic in `h`, in history order */
  function ToolTrafficIds(h: seq<Message>): (ids: seq<MessageId>)
    ensures forall x :: x in ids <==> exists i :: 0 <= i < |h| && IsToolTraffic(h[i]) && h[i].id == x
  {
    if h == [] then []
    else
      var prefix := h[..|h| - 1];
      var last := h[|h| - 1];
      assert forall i :: 0 <= i < |prefix| ==> prefix[i] == h[i];
      ToolTrafficIds(prefix) + (if IsToolTraffic(last) then [last.id] else [])
  }

  /** The history without its tool traffic, the other messages in their original order */
  function WithoutToolTraffic(h: seq<Message>): (r: seq<Message>)
    ensures forall m :: m in r <==> m in h && !IsToolTraffic(m)
  {
    if h == [] then []
    else if IsToolTraffic(h[0]) then WithoutToolTraffic(h[1..])
    else [h[0]] + WithoutToolTraffic(h[1..])
  }

  /** The dict `clear_tool_messages` returns */
  function ClearToolMessagesUpdate(s: State): Update
  {
    Update(Remove(ToolTrafficIds(s.messages)), None, None, Some(GetOr(s.numLlamada, 0) + 1), None, None, None, None)
  }

  method ClearToolMessages(s: State) returns (u: Update)
    ensures u.messages.Remove?
    ensures forall x :: x in u.messages.removed <==>
      exists i :: 0 <= i < |s.messages| && IsToolTraffic(s.messages[i]) && s.messages[i].id == x
    ensures u.numLlamada == Some(GetOr(s.numLlamada, 0) + 1)
    ensures u.summary.None? && u.messageType.None? && u.tipoDePiel.None?
    ensures u.atencionHumana.None? && u.aplicarSkinTest.None? && u.clientPhone.None?
    ensures u == ClearToolMessagesUpdate(s)
  {
    var messagesToRemove: seq<MessageId> := [];
    var numLlamada := GetOr(s.numLlamada, 0);
    var i := 0;
    while i < |s.messages|
      invariant 0 <= i <= |s.messages|
      invariant messagesToRemove == ToolTrafficIds(s.messages[..i])
    {
      var msg := s.messages[i];
      assert s.messages[..i + 1][..i] == s.messages[..i];
      if msg.AI? && msg.toolCalls != [] {
        messagesToRemove := messagesToRemove + [msg.id];
      } else if msg.Tool? {
        messagesToRemove := messagesToRemove + [msg.id];
      }
      i := i + 1;
    }
    assert s.messages[..i] == s.messages;
    numLlamada := numLlamada + 1;
    u := Update(Remove(messagesToRemove), None, None, Some(numLlamada), None, None, None, None);
  }

  /** With unique ids, the cleanup deletes exactly the tool traffic and keeps everything else in order */
  lemma CleanupKeepsConversation(h: seq<Message>)
    requires UniqueIds(h)
    ensures RemoveIds(h, ToolTrafficIds(h)) == WithoutToolTraffic(h)
  {
    forall i | 0 <= i < |h| ensures h[i].id in ToolTrafficIds(h) <==> IsToolTraffic(h[i]) {
      if h[i].id in ToolTrafficIds(h) {
        var j :| 0 <= j < |h| && IsToolTraffic(h[j]) && h[j].id == h[i].id;
        assert Ids(h)[i] == Ids(h)[j];
      }
    }
    RemoveIdsMatchesFilter(h, ToolTrafficIds(h));
  }

  lemma {:induction false} RemoveIdsMatchesFilter(h: seq<Message>, ids: seq<MessageId>)
    requires forall i :: 0 <= i < |h| ==> (h[i].id in ids <==> IsToolTraffic(h[i]))
    ensures RemoveIds(h, ids) == WithoutToolTraffic(h)
  {
    if h != [] {
      assert forall i :: 0 <= i < |h| - 1 ==> h[1..][i] == h[i + 1];
      RemoveIdsMatchesFilter(h[1..], ids);
    }
  }

  /** A second cleanup on the cleaned history finds nothing to delete */
  lemma CleanupIsIdempotent(h: seq<Message>)
    ensures ToolTrafficIds(RemoveIds(h, ToolTrafficIds(h))) == []
  {
    var r := RemoveIds(h, ToolTrafficIds(h));
    forall i | 0 <= i < |r| ensures !IsToolTraffic(r[i]) {
      assert r[i] in r;
    }
    NoTrafficNoIds(r);
  }

  lemma {:induction false} NoTrafficNoIds(h: seq<Message>)
    requires forall i :: 0 <= i < |h| ==> !IsToolTraffic(h[i])
    ensures ToolTrafficIds(h) == []
  {
    if h != [] {
      NoTrafficNoIds(h[..|h| - 1]);
    }
  }
}
