/**
 * The graph's state channels and the way LangGraph folds a node's returned dict into them:
 * `messages` goes through the `add_messages` reducer (new messages are appended,
 * a `RemoveMessage(id)` deletes the message with that id), every other key that the
 * node returns overwrites the stored value, and a key the node does not return is kept.
 */
module GraphState {
  import opened Messages

  /** A key that has never been written is `None` (`state.get(key, default)` then yields the default) */
  datatype State = State(
    messages: seq<Message>,
    summary: Option<string>,
    messageType: Option<string>,
    numLlamada: Option<int>,
    tipoDeCliente: Option<string>,
    tipoDePiel: Option<string>,
    atencionHumana: Option<bool>,
    aplicarSkinTest: Option<bool>,
    clientPhone: Option<string>)

  /** What a node returns under the `messages` key */
  datatype MessagesUpdate =
    | NoMessages
    | Add(added: seq<Message>)
    | Remove(removed: seq<MessageId>)

  /** The dict a node returns; `None` marks a key it does not return */
  datatype Update = Update(
    messages: MessagesUpdate,
    summary: Option<string>,
    messageType: Option<string>,
    numLlamada: Option<int>,
    tipoDePiel: Option<string>,
    atencionHumana: Option<bool>,
    aplicarSkinTest: Option<bool>,
    clientPhone: Option<string>)

  /** The history without every message whose id is listed: what a list of `RemoveMessage`s does */
  function RemoveIds(h: seq<Message>, ids: seq<MessageId>): (r: seq<Message>)
    ensures |r| <= |h|
    ensures forall m :: m in r <==> m in h && m.id !in ids
  {
    if h == [] then []
    else if h[0].id in ids then RemoveIds(h[1..], ids)
    else [h[0]] + RemoveIds(h[1..], ids)
  }

  function ApplyMessages(h: seq<Message>, u: MessagesUpdate): seq<Message>
  {
    match u
    case NoMessages => h
    case Add(added) => h + added
    case Remove(removed) => RemoveIds(h, removed)
  }

  function Overwrite<T>(stored: Option<T>, returned: Option<T>): Option<T>
  {
    if returned.Some? then returned else stored
  }

  /** The state after the graph applies a node's returned dict */
  function Reduce(s: State, u: Update): (t: State)
    ensures u.messages.Add? ==> t.messages == s.messages + u.messages.added
    ensures u.messages.NoMessages? ==> t.messages == s.messages
    ensures u.messages.Remove? ==> forall m :: m in t.messages <==> m in s.messages && m.id !in u.messages.removed
    ensures t.tipoDeCliente == s.tipoDeCliente
    ensures u.numLlamada.None? ==> t.numLlamada == s.numLlamada
    ensures u.atencionHumana.None? ==> t.atencionHumana == s.atencionHumana
    ensures u.aplicarSkinTest.None? ==> t.aplicarSkinTest == s.aplicarSkinTest
    ensures u.tipoDePiel.None? ==> t.tipoDePiel == s.tipoDePiel
    ensures u.summary.None? ==> t.summary == s.summary
    ensures u.numLlamada.Some? ==> t.numLlamada == u.numLlamada
    ensures u.atencionHumana.Some? ==> t.atencionHumana == u.atencionHumana
    ensures u.aplicarSkinTest.Some? ==> t.aplicarSkinTest == u.aplicarSkinTest
    ensures u.tipoDePiel.Some? ==> t.tipoDePiel == u.tipoDePiel
    ensures u.summary.Some? ==> t.summary == u.summary
    ensures t.messageType == (if u.messageType.Some? then u.messageType else s.messageType)
    ensures t.clientPhone == (if u.clientPhone.Some? then u.clientPhone else s.clientPhone)
  {
    State(
      ApplyMessages(s.messages, u.messages),
      Overwrite(s.summary, u.summary),
      Overwrite(s.messageType, u.messageType),
      Overwrite(s.numLlamada, u.numLlamada),
      s.tipoDeCliente,
      Overwrite(s.tipoDePiel, u.tipoDePiel),
      Overwrite(s.atencionHumana, u.atencionHumana),
      Overwrite(s.aplicarSkinTest, u.aplicarSkinTest),
      Overwrite(s.clientPhone, u.clientPhone))
  }

  /** Removing by id keeps the surviving messages in their order and keeps their ids unique */
  lemma {:induction false} RemoveIdsKeepsUnique(h: seq<Message>, ids: seq<MessageId>)
    requires UniqueIds(h)
    ensures UniqueIds(RemoveIds(h, ids))
  {
    if h != [] {
      RemoveIdsKeepsUnique(h[1..], ids);
      var rest := RemoveIds(h[1..], ids);
      if h[0].id !in ids {
        forall j | 0 <= j < |rest| ensures rest[j].id != h[0].id {
          assert rest[j] in h[1..];
        }
        assert RemoveIds(h, ids) == [h[0]] + rest;
      }
    }
  }

  lemma {:induction false} RemoveIdsConcat(a: seq<Message>, b: seq<Message>, ids: seq<MessageId>)
    ensures RemoveIds(a + b, ids) == RemoveIds(a, ids) + RemoveIds(b, ids)
  {
    if a == [] {
      assert a + b == b;
    } else {
      assert (a + b)[0] == a[0];
      assert (a + b)[1..] == a[1..] + b;
      RemoveIdsConcat(a[1..], b, ids);
    }
  }

  /** Removing ids that no message of `h` has changes nothing */
  lemma {:induction false} RemoveIdsNoneListed(h: seq<Message>, ids: seq<MessageId>)
    requires forall i :: 0 <= i < |h| ==> h[i].id !in ids
    ensures RemoveIds(h, ids) == h
  {
    if h != [] {
      RemoveIdsNoneListed(h[1..], ids);
    }
  }

  /** Removing the ids of every message of `h` leaves nothing */
  lemma {:induction false} RemoveIdsAllListed(h: seq<Message>, ids: seq<MessageId>)
    requires forall i :: 0 <= i < |h| ==> h[i].id in ids
    ensures RemoveIds(h, ids) == []
  {
    if h != [] {
      RemoveIdsAllListed(h[1..], ids);
    }
  }
}
