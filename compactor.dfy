/**
 * `summarize_conversation`: stores the model's new rolling summary and deletes every stored
 * message outside a short tail window that starts at the last human message, after repairing
 * the window's last tool call so that it is not left without its tool answer.
 */
module Compactor {
  import opened Messages
  import opened GraphState

  /** How many messages the tail window takes, counting the last human message */
  const WindowSize: nat := 4

  /** The position of the last human message */
  function LastHumanIndex(h: seq<Message>): (r: Option<nat>)
    ensures r.Some? ==> r.value < |h| && h[r.value].Human?
  {
    LastHumanBefore(h, |h|)
  }

  /** The position of the last human message among the first `n` */
  function LastHumanBefore(h: seq<Message>, n: nat): (r: Option<nat>)
    requires n <= |h|
    ensures r.Some? ==> r.value < n && h[r.value].Human?
  {
    if n == 0 then None
    else if h[n - 1].Human? then Some(n - 1)
    else LastHumanBefore(h, n - 1)
  }

  /** `LastHumanBefore` finds a human message exactly when there is one, and no later one follows it */
  lemma {:induction false} LastHumanBeforeIsLast(h: seq<Message>, n: nat)
    requires n <= |h|
    ensures var r := LastHumanBefore(h, n);
      (r.None? <==> forall i :: 0 <= i < n ==> !h[i].Human?) &&
      (r.Some? ==> forall j :: r.value < j < n ==> !h[j].Human?)
  {
    if n > 0 && !h[n - 1].Human? {
      LastHumanBeforeIsLast(h, n - 1);
    }
  }

  /** There is a last human message exactly when the history holds a human message, and none follows it */
  lemma LastHumanIsLast(h: seq<Message>)
    ensures var r := LastHumanIndex(h);
      (r.None? <==> forall i :: 0 <= i < |h| ==> !h[i].Human?) &&
      (r.Some? ==> forall j :: r.value < j < |h| ==> !h[j].Human?)
  {
    LastHumanBeforeIsLast(h, |h|);
  }

  /** The position of the last AI message that calls tools */
  function LastToolCallIndex(c: seq<Message>): (r: Option<nat>)
    ensures r.Some? ==> r.value < |c| && HasToolCalls(c[r.value])
  {
    LastToolCallBefore(c, |c|)
  }

  /** The position of the last tool-calling AI message among the first `n` */
  function LastToolCallBefore(c: seq<Message>, n: nat): (r: Option<nat>)
    requires n <= |c|
    ensures r.Some? ==> r.value < n && HasToolCalls(c[r.value])
  {
    if n == 0 then None
    else if HasToolCalls(c[n - 1]) then Some(n - 1)
    else LastToolCallBefore(c, n - 1)
  }

  /** `LastToolCallBefore` finds a tool-calling AI message exactly when there is one, and no later one follows it */
  lemma {:induction false} LastToolCallBeforeIsLast(c: seq<Message>, n: nat)
    requires n <= |c|
    ensures var r := LastToolCallBefore(c, n);
      (r.None? <==> forall i :: 0 <= i < n ==> !HasToolCalls(c[i])) &&
      (r.Some? ==> forall j :: r.value < j < n ==> !HasToolCalls(c[j]))
  {
    if n > 0 && !HasToolCalls(c[n - 1]) {
      LastToolCallBeforeIsLast(c, n - 1);
    }
  }

  /** The window's last tool-calling AI message: there is one exactly when some message calls tools, and none follows it */
  lemma LastToolCallIsLast(c: seq<Message>)
    ensures var r := LastToolCallIndex(c);
      (r.None? <==> forall i :: 0 <= i < |c| ==> !HasToolCalls(c[i])) &&
      (r.Some? ==> forall j :: r.value < j < |c| ==> !HasToolCalls(c[j]))
  {
    LastToolCallBeforeIsLast(c, |c|);
  }

  /** The position of the first human message */
  function FirstHumanIndex(c: seq<Message>): (r: Option<nat>)
    ensures r.Some? ==> r.value < |c| && c[r.value].Human?
  {
    FirstHumanFrom(c, 0)
  }

  /** The position of the first human message at or after `n` */
  function FirstHumanFrom(c: seq<Message>, n: nat): (r: Option<nat>)
    requires n <= |c|
    ensures r.Some? ==> n <= r.value < |c| && c[r.value].Human?
    decreases |c| - n
  {
    if n == |c| then None
    else if c[n].Human? then Some(n)
    else FirstHumanFrom(c, n + 1)
  }

  /** `FirstHumanFrom` finds a human message exactly when there is one from `n` on, and none comes before it */
  lemma {:induction false} FirstHumanFromIsFirst(c: seq<Message>, n: nat)
    requires n <= |c|
    ensures var r := FirstHumanFrom(c, n);
      (r.None? <==> forall i :: n <= i < |c| ==> !c[i].Human?) &&
      (r.Some? ==> forall j :: n <= j < r.value ==> !c[j].Human?)
    decreases |c| - n
  {
    if n < |c| && !c[n].Human? {
      FirstHumanFromIsFirst(c, n + 1);
    }
  }

  /** One past the tail window: at most four messages from the last human one */
  function WindowEnd(h: seq<Message>, lastHuman: nat): (e: nat)
    requires lastHuman < |h|
    ensures lastHuman < e <= |h| && e - lastHuman <= WindowSize
    ensures e == |h| || e == lastHuman + WindowSize
  {
    if lastHuman + WindowSize < |h| then lastHuman + WindowSize else |h|
  }

  /** What the pairing repair does to the tail window */
  datatype Repair =
    | KeepWindow       // no tool call in the window, or its answer is already there
    | PullIn(k: nat)   // the tool message after the window's last tool call `k` is inserted after it
    | DropCall(k: nat) // the window's last tool call `k` has no tool message after it and is cut out

  /**
   * The pairing repair's decision: take the window's last tool-calling AI message; when the
   * message after it in the full history is a tool message, it is pulled into the window unless
   * already there; otherwise that AI message is taken out of the window
   */
  function RepairStep(h: seq<Message>, lastHuman: nat): (r: Repair)
    requires lastHuman < |h|
    ensures r.PullIn? ==> lastHuman + r.k + 1 < |h| && lastHuman + r.k < WindowEnd(h, lastHuman)
    ensures r.DropCall? ==> lastHuman + r.k < WindowEnd(h, lastHuman)
    ensures (r.PullIn? || r.DropCall?) ==> HasToolCalls(h[lastHuman + r.k])
    ensures r.PullIn? ==> h[lastHuman + r.k + 1].Tool? && h[lastHuman + r.k + 1] !in h[lastHuman..WindowEnd(h, lastHuman)]
    ensures r.DropCall? ==> !(lastHuman + r.k + 1 < |h| && h[lastHuman + r.k + 1].Tool?)
  {
    var candidates := h[lastHuman..WindowEnd(h, lastHuman)];
    match LastToolCallIndex(candidates)
    case None => KeepWindow
    case Some(k) =>
      var g := lastHuman + k;
      assert candidates[k] == h[g];
      if g + 1 < |h| && h[g + 1].Tool? then
        if h[g + 1] !in candidates then PullIn(k) else KeepWindow
      else DropCall(k)
  }

  /** The window after the pairing repair */
  function RepairPairing(h: seq<Message>, lastHuman: nat): seq<Message>
    requires lastHuman < |h|
  {
    ApplyRepair(h, lastHuman, RepairStep(h, lastHuman))
  }

  /** The window with the decision `r` carried out */
  function ApplyRepair(h: seq<Message>, lastHuman: nat, r: Repair): seq<Message>
    requires lastHuman < |h|
    requires r.PullIn? ==> lastHuman + r.k + 1 < |h| && lastHuman + r.k < WindowEnd(h, lastHuman)
    requires r.DropCall? ==> lastHuman + r.k < WindowEnd(h, lastHuman)
  {
    var candidates := h[lastHuman..WindowEnd(h, lastHuman)];
    match r
    case KeepWindow => candidates
    case PullIn(k) => candidates[..k + 1] + [h[lastHuman + k + 1]] + candidates[k + 1..]
    case DropCall(k) => candidates[..k] + candidates[k + 1..]
  }

  /** Drops what comes before the first human message */
  function TrimFront(c: seq<Message>): seq<Message>
  {
    match FirstHumanIndex(c)
    case None => c
    case Some(p) => c[p..]
  }

  /** The messages a summarisation keeps, or `None` when there is no human message to anchor the window */
  function Retained(h: seq<Message>): Option<seq<Message>>
  {
    match LastHumanIndex(h)
    case None => None
    case Some(lastHuman) =>
      Some(TrimFront(RepairPairing(h, lastHuman)))
  }

  /** The ids of the messages of `h` that are not kept, in history order */
  function DeletionIds(h: seq<Message>, kept: seq<Message>): (ids: seq<MessageId>)
    ensures forall x :: x in ids <==> exists i :: 0 <= i < |h| && h[i] !in kept && h[i].id == x
  {
    if h == [] then []
    else
      var prefix := h[..|h| - 1];
      var last := h[|h| - 1];
      assert forall i :: 0 <= i < |prefix| ==> prefix[i] == h[i];
      DeletionIds(prefix, kept) + (if last !in kept then [last.id] else [])
  }

  /** The dict `summarize_conversation` returns, given the model's new summary */
  function SummarizeUpdate(s: State, newSummary: string): Update
  {
    var deleted := match Retained(s.messages)
      case None => []
      case Some(kept) => DeletionIds(s.messages, kept);
    Update(Remove(deleted), Some(newSummary), None, None, None, None, None, None)
  }

  /** The reverse scan for the last human message */
  method FindLastHuman(h: seq<Message>) returns (r: Option<nat>)
    ensures r == LastHumanIndex(h)
  {
    r := None;
    var i := |h| - 1;
    while i >= 0
      invariant -1 <= i < |h|
      invariant LastHumanIndex(h) == LastHumanBefore(h, i + 1)
    {
      if h[i].Human? {
        r := Some(i);
        break;
      }
      i := i - 1;
    }
  }

  /** The forward scan that remembers the last tool-calling AI message */
  method FindLastToolCall(c: seq<Message>) returns (r: Option<nat>)
    ensures r == LastToolCallIndex(c)
  {
    r := None;
    var idx := 0;
    while idx < |c|
      invariant 0 <= idx <= |c|
      invariant r == LastToolCallBefore(c, idx)
    {
      var msg := c[idx];
      if msg.AI? && msg.toolCalls != [] {
        r := Some(idx);
      }
      idx := idx + 1;
    }
  }

  /** The forward scan for the first human message */
  method FindFirstHuman(c: seq<Message>) returns (r: Option<nat>)
    ensures r == FirstHumanIndex(c)
  {
    r := None;
    var p := 0;
    while p < |c|
      invariant 0 <= p <= |c|
      invariant FirstHumanIndex(c) == FirstHumanFrom(c, p)
    {
      if c[p].Human? {
        r := Some(p);
        break;
      }
      p := p + 1;
    }
  }

  /** The loop that emits a `RemoveMessage` for every message outside the kept ones */
  method CollectDeletions(h: seq<Message>, kept: seq<Message>) returns (ids: seq<MessageId>)
    ensures ids == DeletionIds(h, kept)
  {
    ids := [];
    var q := 0;
    while q < |h|
      invariant 0 <= q <= |h|
      invariant ids == DeletionIds(h[..q], kept)
    {
      assert h[..q + 1][..q] == h[..q];
      var m := h[q];
      if m !in kept {
        ids := ids + [m.id];
      }
      q := q + 1;
    }
    assert h[..q] == h;
  }

  /** The pairing repair's decision, as the summarisation takes it on its window */
  method DecideRepair(h: seq<Message>, lastHuman: nat, window: seq<Message>) returns (r: Repair)
    requires lastHuman < |h| && window == h[lastHuman..WindowEnd(h, lastHuman)]
    ensures r == RepairStep(h, lastHuman)
  {
    r := KeepWindow;
    var lastAiToolIndex := FindLastToolCall(window);
    if lastAiToolIndex.Some? {
      var k := lastAiToolIndex.value;
      var globalAiIndex := lastHuman + k;
      if globalAiIndex + 1 < |h| && h[globalAiIndex + 1].Tool? {
        if h[globalAiIndex + 1] !in window {
          r := PullIn(k);
        }
      } else {
        r := DropCall(k);
      }
    }
  }

  /** The pairing repair step, as the summarisation performs it on its window */
  method RepairWindow(h: seq<Message>, lastHuman: nat, window: seq<Message>) returns (candidates: seq<Message>)
    requires lastHuman < |h| && window == h[lastHuman..WindowEnd(h, lastHuman)]
    ensures candidates == RepairPairing(h, lastHuman)
  {
    var decision := DecideRepair(h, lastHuman, window);
    match decision
    case KeepWindow =>
      candidates := window;
    case PullIn(k) =>
      var insertionPos := k + 1;
      candidates := window[..insertionPos] + [h[lastHuman + k + 1]] + window[insertionPos..];
    case DropCall(k) =>
      candidates := window[..k] + window[k + 1..];
    assert candidates == ApplyRepair(h, lastHuman, decision);
  }

  method SummarizeConversation(s: State, newSummary: string) returns (u: Update)
    ensures u.summary == Some(newSummary)
    ensures u.messages.Remove?
    ensures (forall i :: 0 <= i < |s.messages| ==> !s.messages[i].Human?) ==> u.messages.removed == []
    ensures Retained(s.messages).Some? ==> forall x :: x in u.messages.removed <==>
      exists i :: 0 <= i < |s.messages| && s.messages[i] !in Retained(s.messages).value && s.messages[i].id == x
    ensures u.messageType.None? && u.numLlamada.None? && u.tipoDePiel.None?
    ensures u.atencionHumana.None? && u.aplicarSkinTest.None? && u.clientPhone.None?
    ensures u == SummarizeUpdate(s, newSummary)
  {
    var allMessages := s.messages;
    var lastHumanIndex := FindLastHuman(allMessages);
    LastHumanIsLast(allMessages);
    if lastHumanIndex.None? {
      u := Update(Remove([]), Some(newSummary), None, None, None, None, None, None);
      return;
    }
    var lastHuman := lastHumanIndex.value;
    var endIndex := if lastHuman + 4 < |allMessages| then lastHuman + 4 else |allMessages|;
    var candidates := allMessages[lastHuman..endIndex];

    candidates := RepairWindow(allMessages, lastHuman, candidates);
    var firstHumanPos := FindFirstHuman(candidates);
    var finalMessages := if firstHumanPos.None? then candidates else candidates[firstHumanPos.value..];
    assert Some(finalMessages) == Retained(allMessages);

    var deleteMessages := CollectDeletions(allMessages, finalMessages);
    u := Update(Remove(deleteMessages), Some(newSummary), None, None, None, None, None, None);
  }

  /** The window's first message is the last human message, so the pairing repair never removes it */
  lemma RepairedStartsWithLastHuman(h: seq<Message>, lastHuman: nat)
    requires LastHumanIndex(h) == Some(lastHuman)
    ensures var repaired := RepairPairing(h, lastHuman);
      |repaired| > 0 && repaired[0] == h[lastHuman] && TrimFront(repaired) == repaired
  {
    var e := WindowEnd(h, lastHuman);
    var repaired := RepairPairing(h, lastHuman);
    match RepairStep(h, lastHuman)
    case KeepWindow =>
      KeepWindowBranch(h, lastHuman);
    case PullIn(k) =>
      RepairPullsInAnswer(h, lastHuman, k);
    case DropCall(k) =>
      DropCallBranch(h, lastHuman, k);
      assert k > 0;
      assert repaired[0] == h[lastHuman..lastHuman + k][0];
    TrimFrontOfHumanFirst(repaired);
  }

  lemma TrimFrontOfHumanFirst(c: seq<Message>)
    requires |c| > 0 && c[0].Human?
    ensures TrimFront(c) == c
  {
    assert FirstHumanIndex(c) == Some(0);
  }

  /** A summarisation keeps the repaired window as it is, since it already starts with a human message */
  lemma RetainedIsRepaired(h: seq<Message>, lastHuman: nat)
    requires LastHumanIndex(h) == Some(lastHuman)
    ensures Retained(h) == Some(RepairPairing(h, lastHuman))
  {
    RepairedStartsWithLastHuman(h, lastHuman);
  }

  /** The `KeepWindow` decision leaves the window as sliced */
  lemma KeepWindowBranch(h: seq<Message>, lastHuman: nat)
    requires lastHuman < |h| && RepairStep(h, lastHuman) == KeepWindow
    ensures RepairPairing(h, lastHuman) == h[lastHuman..WindowEnd(h, lastHuman)]
  {
  }

  /** Dropping the message at position `g` of the stretch `h[lo..e]` */
  lemma DropAt(h: seq<Message>, lo: nat, g: nat, e: nat)
    requires lo <= g < e <= |h|
    ensures h[lo..e][..g - lo] + h[lo..e][g - lo + 1..] == h[lo..g] + h[g + 1..e]
  {
  }

  /** The `DropCall(k)` decision cuts position `k` out of the window */
  lemma DropCallBranch(h: seq<Message>, lastHuman: nat, k: nat)
    requires lastHuman < |h| && RepairStep(h, lastHuman) == DropCall(k)
    ensures var e := WindowEnd(h, lastHuman);
      lastHuman + k < e && RepairPairing(h, lastHuman) == h[lastHuman..lastHuman + k] + h[lastHuman + k + 1..e]
  {
    var e := WindowEnd(h, lastHuman);
    var window := h[lastHuman..e];
    assert RepairPairing(h, lastHuman) == window[..k] + window[k + 1..];
    DropAt(h, lastHuman, lastHuman + k, e);
  }

  /**
   * The repair leaves the window as sliced when no window message calls tools, or when the
   * message after the last tool call is a tool message that the window already holds
   */
  lemma RepairKeepsWindow(h: seq<Message>, lastHuman: nat)
    requires lastHuman < |h|
    requires var window := h[lastHuman..WindowEnd(h, lastHuman)];
      LastToolCallIndex(window).None? ||
      (var g := lastHuman + LastToolCallIndex(window).value;
       g + 1 < |h| && h[g + 1].Tool? && h[g + 1] in window)
    ensures RepairPairing(h, lastHuman) == h[lastHuman..WindowEnd(h, lastHuman)]
  {
    assert RepairStep(h, lastHuman) == KeepWindow;
    KeepWindowBranch(h, lastHuman);
  }

  /**
   * The repair when no tool message follows the window's last tool call `k` in the history:
   * that AI message is cut out and the other window messages stay in order
   */
  lemma RepairDropsCall(h: seq<Message>, lastHuman: nat, k: nat)
    requires lastHuman < |h|
    requires LastToolCallIndex(h[lastHuman..WindowEnd(h, lastHuman)]) == Some(k)
    requires !(lastHuman + k + 1 < |h| && h[lastHuman + k + 1].Tool?)
    ensures var e := WindowEnd(h, lastHuman);
      lastHuman + k < e && RepairPairing(h, lastHuman) == h[lastHuman..lastHuman + k] + h[lastHuman + k + 1..e]
  {
    assert RepairStep(h, lastHuman) == DropCall(k);
    DropCallBranch(h, lastHuman, k);
  }

  /** The repair when a tool message follows the last tool call but lies outside the window: it extends the window by one */
  lemma RepairPullsInAnswer(h: seq<Message>, lastHuman: nat, k: nat)
    requires lastHuman < |h| && RepairStep(h, lastHuman) == PullIn(k)
    ensures var e := WindowEnd(h, lastHuman);
      e == lastHuman + k + 1 < |h| && RepairPairing(h, lastHuman) == h[lastHuman..e + 1]
  {
    var e := WindowEnd(h, lastHuman);
    var window := h[lastHuman..e];
    assert h[lastHuman + k + 1] !in window;
    assert window[..k + 1] + [h[lastHuman + k + 1]] + window[k + 1..] == h[lastHuman..e + 1];
  }

  /**
   * The three forms the kept messages can take: the tail window `h[lastHuman..e]`, that window
   * plus the one message after it (a pulled-in tool answer), or that window with one message
   * after the human one cut out (an unanswered tool call)
   */
  ghost predicate TailShape(h: seq<Message>, lastHuman: nat, kept: seq<Message>)
    requires lastHuman < |h|
  {
    var e := WindowEnd(h, lastHuman);
    kept == h[lastHuman..e] ||
    (e < |h| && kept == h[lastHuman..e + 1]) ||
    (exists g :: lastHuman < g < e && kept == h[lastHuman..g] + h[g + 1..e])
  }

  lemma RepairShape(h: seq<Message>, lastHuman: nat)
    requires LastHumanIndex(h) == Some(lastHuman)
    ensures TailShape(h, lastHuman, RepairPairing(h, lastHuman))
    ensures |RepairPairing(h, lastHuman)| <= WindowSize + 1
  {
    match RepairStep(h, lastHuman)
    case KeepWindow =>
      KeepWindowBranch(h, lastHuman);
    case PullIn(k) =>
      RepairPullsInAnswer(h, lastHuman, k);
    case DropCall(k) =>
      DroppedCallShape(h, lastHuman, k);
  }

  lemma DroppedCallShape(h: seq<Message>, lastHuman: nat, k: nat)
    requires LastHumanIndex(h) == Some(lastHuman) && RepairStep(h, lastHuman) == DropCall(k)
    ensures TailShape(h, lastHuman, RepairPairing(h, lastHuman))
    ensures |RepairPairing(h, lastHuman)| < WindowSize
  {
    var e := WindowEnd(h, lastHuman);
    var g := lastHuman + k;
    DropCallBranch(h, lastHuman, k);
    assert HasToolCalls(h[g]);
    assert lastHuman < g < e && RepairPairing(h, lastHuman) == h[lastHuman..g] + h[g + 1..e];
  }

  /**
   * What a summarisation keeps has one of the three tail shapes, starts with the last human
   * message and holds at most 5 messages
   */
  lemma RetainedShape(h: seq<Message>)
    requires LastHumanIndex(h).Some?
    ensures var lastHuman := LastHumanIndex(h).value;
      var kept := Retained(h).value;
      TailShape(h, lastHuman, kept) && |kept| <= WindowSize + 1 && kept[0] == h[lastHuman]
  {
    var lastHuman := LastHumanIndex(h).value;
    RetainedIsRepaired(h, lastHuman);
    RepairedStartsWithLastHuman(h, lastHuman);
    RepairShape(h, lastHuman);
  }

  /** With unique ids, a message of the history that shows up in the stretch `h[lo..e]` sits inside it */
  lemma InStretchAt(h: seq<Message>, lo: nat, e: nat, i: nat)
    requires UniqueIds(h) && lo <= e <= |h| && i < |h|
    requires h[i] in h[lo..e]
    ensures lo <= i < e
  {
    var j :| 0 <= j < e - lo && h[lo..e][j] == h[i];
    SamePosition(h, lo + j, i);
  }

  /** With unique ids, cutting position `g` out of a stretch leaves no copy of that message behind */
  lemma NotInTwoStretches(h: seq<Message>, lo: nat, g: nat, e: nat)
    requires UniqueIds(h) && lo <= g < e <= |h|
    ensures h[g] !in h[lo..g] + h[g + 1..e]
  {
    if h[g] in h[lo..g] {
      InStretchAt(h, lo, g, g);
    }
    if h[g] in h[g + 1..e] {
      InStretchAt(h, g + 1, e, g);
    }
  }

  /**
   * Pairing repair, first case: take the last tool-calling AI message of the window. When the
   * message right after it in the full history is a tool message (whatever call it answers),
   * both are kept, the tool message right after the AI message.
   */
  lemma PairingRepairKeepsAnsweredCall(h: seq<Message>, lastHuman: nat, k: nat)
    requires UniqueIds(h)
    requires LastHumanIndex(h) == Some(lastHuman)
    requires LastToolCallIndex(h[lastHuman..WindowEnd(h, lastHuman)]) == Some(k)
    requires lastHuman + k + 1 < |h| && h[lastHuman + k + 1].Tool?
    ensures var kept := Retained(h).value;
      exists p :: 0 <= p < |kept| - 1 && kept[p] == h[lastHuman + k] && kept[p + 1] == h[lastHuman + k + 1]
  {
    RetainedIsRepaired(h, lastHuman);
    AnsweredCallAdjacent(h, lastHuman, k);
  }

  lemma AnsweredCallAdjacent(h: seq<Message>, lastHuman: nat, k: nat)
    requires UniqueIds(h) && lastHuman < |h|
    requires LastToolCallIndex(h[lastHuman..WindowEnd(h, lastHuman)]) == Some(k)
    requires lastHuman + k + 1 < |h| && h[lastHuman + k + 1].Tool?
    ensures var kept := RepairPairing(h, lastHuman);
      k + 1 < |kept| && kept[k] == h[lastHuman + k] && kept[k + 1] == h[lastHuman + k + 1]
  {
    if h[lastHuman + k + 1] !in h[lastHuman..WindowEnd(h, lastHuman)] {
      PulledInAnswerFollowsCall(h, lastHuman, k);
    } else {
      AnswerInWindowKept(h, lastHuman, k);
    }
  }

  lemma AnswerInWindowKept(h: seq<Message>, lastHuman: nat, k: nat)
    requires UniqueIds(h) && lastHuman < |h|
    requires LastToolCallIndex(h[lastHuman..WindowEnd(h, lastHuman)]) == Some(k)
    requires lastHuman + k + 1 < |h| && h[lastHuman + k + 1].Tool?
    requires h[lastHuman + k + 1] in h[lastHuman..WindowEnd(h, lastHuman)]
    ensures var kept := RepairPairing(h, lastHuman);
      k + 1 < |kept| && kept[k] == h[lastHuman + k] && kept[k + 1] == h[lastHuman + k + 1]
  {
    AnswerInWindowFollowsCall(h, lastHuman, k);
    RepairKeepsWindow(h, lastHuman);
  }

  lemma PulledInAnswerFollowsCall(h: seq<Message>, lastHuman: nat, k: nat)
    requires lastHuman < |h|
    requires LastToolCallIndex(h[lastHuman..WindowEnd(h, lastHuman)]) == Some(k)
    requires lastHuman + k + 1 < |h| && h[lastHuman + k + 1].Tool?
    requires h[lastHuman + k + 1] !in h[lastHuman..WindowEnd(h, lastHuman)]
    ensures var kept := RepairPairing(h, lastHuman);
      k + 1 < |kept| && kept[k] == h[lastHuman + k] && kept[k + 1] == h[lastHuman + k + 1]
  {
    assert RepairStep(h, lastHuman) == PullIn(k);
    RepairPullsInAnswer(h, lastHuman, k);
  }

  lemma AnswerInWindowFollowsCall(h: seq<Message>, lastHuman: nat, k: nat)
    requires UniqueIds(h) && lastHuman < |h|
    requires lastHuman + k + 1 < |h| && h[lastHuman + k + 1] in h[lastHuman..WindowEnd(h, lastHuman)]
    ensures var window := h[lastHuman..WindowEnd(h, lastHuman)];
      k + 1 < |window| && window[k] == h[lastHuman + k] && window[k + 1] == h[lastHuman + k + 1]
  {
    InStretchAt(h, lastHuman, WindowEnd(h, lastHuman), lastHuman + k + 1);
  }

  /**
   * Pairing repair, second case: when the message after the window's last tool-calling AI
   * message is not a tool message (or there is none), that AI message is not kept.
   */
  lemma PairingRepairDropsOrphanCall(h: seq<Message>, lastHuman: nat, k: nat)
    requires UniqueIds(h)
    requires LastHumanIndex(h) == Some(lastHuman)
    requires LastToolCallIndex(h[lastHuman..WindowEnd(h, lastHuman)]) == Some(k)
    requires !(lastHuman + k + 1 < |h| && h[lastHuman + k + 1].Tool?)
    ensures h[lastHuman + k] !in Retained(h).value
  {
    assert RepairStep(h, lastHuman) == DropCall(k);
    DroppedCallIsGone(h, lastHuman, k);
    RetainedIsRepaired(h, lastHuman);
  }

  lemma DroppedCallIsGone(h: seq<Message>, lastHuman: nat, k: nat)
    requires UniqueIds(h) && lastHuman < |h| && RepairStep(h, lastHuman) == DropCall(k)
    ensures h[lastHuman + k] !in RepairPairing(h, lastHuman)
  {
    DropCallBranch(h, lastHuman, k);
    NotInTwoStretches(h, lastHuman, lastHuman + k, WindowEnd(h, lastHuman));
  }

  /** When the history holds no tool traffic, the summarisation keeps exactly the four-message tail window */
  lemma ToolFreeHistoryKeepsWindow(h: seq<Message>)
    requires LastHumanIndex(h).Some?
    requires forall i :: 0 <= i < |h| ==> !IsToolTraffic(h[i])
    ensures var lastHuman := LastHumanIndex(h).value;
      Retained(h) == Some(h[lastHuman..WindowEnd(h, lastHuman)]) && |Retained(h).value| <= WindowSize
  {
    var lastHuman := LastHumanIndex(h).value;
    var window := h[lastHuman..WindowEnd(h, lastHuman)];
    assert forall i :: 0 <= i < |window| ==> window[i] == h[lastHuman + i];
    LastToolCallIsLast(window);
    RepairedStartsWithLastHuman(h, lastHuman);
  }

  /** With unique ids, the deletion list names each deleted message once */
  lemma {:induction false} DeletionIdsDistinct(h: seq<Message>, kept: seq<Message>)
    requires UniqueIds(h)
    ensures Distinct(DeletionIds(h, kept))
  {
    if h != [] {
      var prefix := h[..|h| - 1];
      var last := h[|h| - 1];
      DeletionIdsDistinct(prefix, kept);
      var tail := if last !in kept then [last.id] else [];
      forall x | x in DeletionIds(prefix, kept) ensures x !in tail {
        var i :| 0 <= i < |prefix| && prefix[i] !in kept && prefix[i].id == x;
        assert prefix[i] == h[i];
      }
      DistinctConcat(DeletionIds(prefix, kept), tail);
    }
  }

  /**
   * With unique ids, applying the deletion list to the history leaves exactly the kept
   * messages, in order, when they are two stretches `h[lo..a]` and `h[b..e]` of it
   */
  lemma RemoveOutsideStretches(h: seq<Message>, kept: seq<Message>, lo: nat, a: nat, b: nat, e: nat)
    requires UniqueIds(h)
    requires lo <= a <= b <= e <= |h| && kept == h[lo..a] + h[b..e]
    ensures RemoveIds(h, DeletionIds(h, kept)) == kept
  {
    var ids := DeletionIds(h, kept);
    KeptMembership(h, kept, lo, a, b, e);
    DeletedIdsMembership(h, kept);
    RemoveIdsStretches(h, ids, lo, a, b, e);
  }

  /** With unique ids, a message of the history is among two of its stretches exactly when its position is */
  lemma KeptMembership(h: seq<Message>, kept: seq<Message>, lo: nat, a: nat, b: nat, e: nat)
    requires UniqueIds(h)
    requires lo <= a <= b <= e <= |h| && kept == h[lo..a] + h[b..e]
    ensures forall i :: 0 <= i < |h| ==> (h[i] in kept <==> (lo <= i < a || b <= i < e))
  {
    forall i | 0 <= i < |h| ensures h[i] in kept <==> (lo <= i < a || b <= i < e) {
      if h[i] in h[lo..a] {
        InStretchAt(h, lo, a, i);
      }
      if h[i] in h[b..e] {
        InStretchAt(h, b, e, i);
      }
      if lo <= i < a {
        assert h[lo..a][i - lo] == h[i];
      }
      if b <= i < e {
        assert h[b..e][i - b] == h[i];
      }
    }
  }

  /** With unique ids, a message's id is on the deletion list exactly when the message is not kept */
  lemma DeletedIdsMembership(h: seq<Message>, kept: seq<Message>)
    requires UniqueIds(h)
    ensures forall i :: 0 <= i < |h| ==> (h[i].id in DeletionIds(h, kept) <==> h[i] !in kept)
  {
  }

  /** Removing the ids of every message outside two stretches leaves those two stretches */
  lemma RemoveIdsStretches(h: seq<Message>, ids: seq<MessageId>, lo: nat, a: nat, b: nat, e: nat)
    requires lo <= a <= b <= e <= |h|
    requires forall i :: 0 <= i < |h| ==> (h[i].id in ids <==> !(lo <= i < a || b <= i < e))
    ensures RemoveIds(h, ids) == h[lo..a] + h[b..e]
  {
    assert RemoveIds(h[b..|h|], ids) == h[b..e] by {
      RemoveIdsSliceSplit(h, ids, b, e, |h|);
      RemoveSliceNoneListed(h, ids, b, e);
      RemoveSliceAllListed(h, ids, e, |h|);
    }
    assert RemoveIds(h[a..|h|], ids) == h[b..e] by {
      RemoveIdsSliceSplit(h, ids, a, b, |h|);
      RemoveSliceAllListed(h, ids, a, b);
    }
    assert RemoveIds(h[lo..|h|], ids) == h[lo..a] + h[b..e] by {
      RemoveIdsSliceSplit(h, ids, lo, a, |h|);
      RemoveSliceNoneListed(h, ids, lo, a);
    }
    assert RemoveIds(h[0..|h|], ids) == h[lo..a] + h[b..e] by {
      RemoveIdsSliceSplit(h, ids, 0, lo, |h|);
      RemoveSliceAllListed(h, ids, 0, lo);
    }
    assert h[0..|h|] == h;
  }

  lemma RemoveIdsSliceSplit(h: seq<Message>, ids: seq<MessageId>, x: nat, y: nat, z: nat)
    requires x <= y <= z <= |h|
    ensures RemoveIds(h[x..z], ids) == RemoveIds(h[x..y], ids) + RemoveIds(h[y..z], ids)
  {
    assert h[x..z] == h[x..y] + h[y..z];
    RemoveIdsConcat(h[x..y], h[y..z], ids);
  }

  lemma RemoveSliceAllListed(h: seq<Message>, ids: seq<MessageId>, x: nat, y: nat)
    requires x <= y <= |h| && forall i :: x <= i < y ==> h[i].id in ids
    ensures RemoveIds(h[x..y], ids) == []
  {
    RemoveIdsAllListed(h[x..y], ids);
  }

  lemma RemoveSliceNoneListed(h: seq<Message>, ids: seq<MessageId>, x: nat, y: nat)
    requires x <= y <= |h| && forall i :: x <= i < y ==> h[i].id !in ids
    ensures RemoveIds(h[x..y], ids) == h[x..y]
  {
    RemoveIdsNoneListed(h[x..y], ids);
  }

  /** With unique ids, a summarisation leaves exactly the retained messages stored, in order */
  lemma CompactionLeavesRetained(h: seq<Message>)
    requires UniqueIds(h) && Retained(h).Some?
    ensures RemoveIds(h, DeletionIds(h, Retained(h).value)) == Retained(h).value
  {
    RetainedShape(h);
    RemoveOutsideShape(h, LastHumanIndex(h).value, Retained(h).value);
  }

  /** With unique ids, applying the deletion list leaves exactly kept messages of any tail shape */
  lemma RemoveOutsideShape(h: seq<Message>, lastHuman: nat, kept: seq<Message>)
    requires UniqueIds(h) && lastHuman < |h| && TailShape(h, lastHuman, kept)
    ensures RemoveIds(h, DeletionIds(h, kept)) == kept
  {
    var e := WindowEnd(h, lastHuman);
    if kept == h[lastHuman..e] {
      assert kept == h[lastHuman..e] + h[e..e];
      RemoveOutsideStretches(h, kept, lastHuman, e, e, e);
    } else if e < |h| && kept == h[lastHuman..e + 1] {
      assert kept == h[lastHuman..e + 1] + h[e + 1..e + 1];
      RemoveOutsideStretches(h, kept, lastHuman, e + 1, e + 1, e + 1);
    } else {
      var g :| lastHuman < g < e && kept == h[lastHuman..g] + h[g + 1..e];
      RemoveOutsideStretches(h, kept, lastHuman, g, g + 1, e);
    }
  }

  /**
   * The repair looks only at the last tool-calling AI message of the window: an earlier one
   * whose answer is missing stays in the kept messages
   */
  lemma EarlierOrphanSurvives()
    ensures var h := [Human("h1", "hola"),
                      AI("a1", "", [ToolCall("c1", RetrieverInfoTienda, map[])]),
                      AI("a2", "", [ToolCall("c2", RetrieverInfoProductos, map[])]),
                      Tool("t2", "precios", "c2")];
      Retained(h) == Some(h) && HasToolCalls(h[1]) && !h[2].Tool?
  {
    var h := [Human("h1", "hola"),
              AI("a1", "", [ToolCall("c1", RetrieverInfoTienda, map[])]),
              AI("a2", "", [ToolCall("c2", RetrieverInfoProductos, map[])]),
              Tool("t2", "precios", "c2")];
    assert LastHumanBefore(h, 4) == LastHumanBefore(h, 3) == LastHumanBefore(h, 2) == LastHumanBefore(h, 1) == Some(0);
    var window := h[0..WindowEnd(h, 0)];
    assert window == h;
    assert LastToolCallBefore(window, 4) == LastToolCallBefore(window, 3) == Some(2);
    assert h[3] in window;
    assert RepairStep(h, 0) == KeepWindow;
    RetainedIsRepaired(h, 0);
    KeepWindowBranch(h, 0);
  }

  /** The repair checks only that a tool message follows, not that it answers that call */
  lemma RepairIgnoresToolCallId()
    ensures var h := [AI("a0", "hola", []),
                      Human("h1", "quiero ayuda"),
                      AI("a1", "", [ToolCall("c1", CallForHumanHelp, map[])]),
                      Tool("t9", "", "another-call")];
      Retained(h) == Some(h[1..]) && h[3].toolCallId != h[2].toolCalls[0].id
  {
    var h := [AI("a0", "hola", []),
              Human("h1", "quiero ayuda"),
              AI("a1", "", [ToolCall("c1", CallForHumanHelp, map[])]),
              Tool("t9", "", "another-call")];
    assert LastHumanBefore(h, 4) == LastHumanBefore(h, 3) == LastHumanBefore(h, 2) == Some(1);
    var window := h[1..WindowEnd(h, 1)];
    assert window == h[1..];
    assert LastToolCallBefore(window, 3) == LastToolCallBefore(window, 2) == Some(1);
    assert h[3] in window;
    assert RepairStep(h, 1) == KeepWindow;
    RetainedIsRepaired(h, 1);
    KeepWindowBranch(h, 1);
  }
}
