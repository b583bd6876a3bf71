/** One text from browser to browser: stored by the sender's gateway session, relayed by the C++ server, decoded by the
    recipient's session and shown by the recipient's reducer. */
module GatewayMessages {
  import opened Text
  import opened ClientProtocol
  import opened BackendLines
  import opened Gateway
  import opened GatewayFrames
  import opened GatewayInvariant
  import opened GatewayRoster
  import opened GatewayReplication
  import opened GatewayTheorems
  import D = Database
  import C = ChatState

  /** The sessions of the roster have different names, as they do once they have caught up with the server. */
  ghost predicate NamesDiffer(g: Gateway) {
    forall a, b :: Welcomed(g, a) && Welcomed(g, b) && NameOf(g, a) == NameOf(g, b) ==> a == b
  }

  function NameOf(g: Gateway, id: Id): string
    requires Welcomed(g, id)
  {
    g.sessions[g.byId[id]].nickname
  }

  lemma {:induction false} FindsTheOne(g: Gateway, ids: seq<Id>, id: Id)
    requires (forall k :: k in g.byId ==> EntryOk(g, k)) && NamesDiffer(g) && Welcomed(g, id) && id in ids
    ensures FindByNickname(g, ids, NameOf(g, id)) == Some(id)
    decreases |ids|
  {
    assert ids == [ids[0]] + ids[1..];
    if Welcomed(g, ids[0]) && NameOf(g, ids[0]) == NameOf(g, id) { assert EntryOk(g, ids[0]); }
    else { FindsTheOne(g, ids[1..], id); }
  }

  /** A welcomed live session is found under its name. */
  lemma FoundByName(g: Gateway, s: Sock)
    requires Shape(g) && NamesDiffer(g) && Speaks(g, s)
    ensures FindByNickname(g, g.order, g.sessions[s].nickname) == Some(g.sessions[s].id)
    ensures Welcomed(g, g.sessions[s].id)
  {
    var x := g.sessions[s];
    assert SessionOk(g, s, x);
    assert Welcomed(g, x.id) && NameOf(g, x.id) == x.nickname;
    FindsTheOne(g, g.order, x.id);
  }

  /** The same text of the same sender in the same conversation; ids and times may differ. */
  predicate SameText(a: MessageSummary, b: MessageSummary) {
    && a.conversationId == b.conversationId && a.kind == b.kind && a.senderId == b.senderId
    && a.senderUsername == b.senderUsername && a.text == b.text
  }

  /** The WebSocket gets one more message, which carries this text. */
  ghost predicate Delivered(x: Session, x': Session, m: MessageSummary) {
    exists copy :: SameText(copy, m) && x' == Write(x, NewMessage(copy)) && x'.ws.sent == x.ws.sent + [NewMessage(copy)]
  }

  lemma RelayDelivers(g: Gateway, t: Sock, conversation: string, from: Id, sender: string, text: string, m: MessageSummary)
    requires t in g.sessions && g.sessions[t].ws.open
    requires m.conversationId == conversation && m.kind == ChatMessage && m.senderId == Some(from)
    requires m.senderUsername == Some(sender) && m.text == text
    ensures t in Relay(g, t, conversation, Some(from), sender, text).sessions
    ensures Delivered(g.sessions[t], Relay(g, t, conversation, Some(from), sender, text).sessions[t], m)
  {
    var copy := MessageSummary(Decimal(g.supply), conversation, ChatMessage, Some(from), Some(sender), text, g.now);
    assert SameText(copy, m);
    assert Relay(g, t, conversation, Some(from), sender, text).sessions[t] == Write(g.sessions[t], NewMessage(copy));
  }

  /** `s` said something in `g` and still has the same identity in `h`, where `t` listens. */
  ghost predicate Talking(g: Gateway, h: Gateway, s: Sock, t: Sock) {
    && Speaks(g, s) && Speaks(h, s) && Speaks(h, t) && h.sessions[t].ws.open
    && g.sessions[s].id == h.sessions[s].id && g.sessions[s].nickname == h.sessions[s].nickname
    && ValidNickname(g.sessions[s].nickname) && NamesDiffer(h)
  }

  /** A public text that survives the trip is stored once, echoed to its sender, and sent on as one line; what the
      server relays of it reaches another session's browser as the same text of the same sender. */
  lemma PublicTextEndToEnd(gs: seq<Gateway>, es: seq<Event>, i: nat, j: nat, s: Sock, t: Sock, text: string)
    requires OrderlyRun(gs, es) && i < |gs| && j < |gs| && s != t && Talking(gs[i], gs[j], s, t)
    requires text != "" && text[0] != '/' && !EndsInLineBreak(text)
    ensures var g, h, x := gs[i], gs[j], gs[i].sessions[s];
            var own := Outgoing(g, x, PUBLIC_CONVERSATION_ID, text);
            var said := HandleClientMessage(g, s, SendMessage(ToPublic, text));
            && said.db.messages == g.db.messages + [own] && said.sessions.Keys == g.sessions.Keys
            && (forall u :: u in g.sessions ==>
                  said.sessions[u] == if u == s then SendLine(Write(x, NewMessage(own)), text) else g.sessions[u])
            && PublicDelivery(x.nickname, text).Some?
            && var heard := OnBackendEvent(h, t, PublicDelivery(x.nickname, text).value);
               t in heard.sessions && Delivered(h.sessions[t], heard.sessions[t], own)
  {
    var g, h, x := gs[i], gs[j], gs[i].sessions[s];
    OrderlyRunsKeepInvariant(gs, es, j, map[]);
    PublicFidelity(x.nickname, text);
    PublicHeard(h, s, t, text, Outgoing(g, x, PUBLIC_CONVERSATION_ID, text));
    RelayEvents(h, t, x.nickname, text);
    PublicSaid(g, s, text);
  }

  lemma RelayEvents(h: Gateway, t: Sock, name: string, text: string)
    requires t in h.sessions
    ensures OnBackendEvent(h, t, Msg(name, text)) == OnMsg(h, t, name, text)
    ensures OnBackendEvent(h, t, Priv(name, text)) == OnPriv(h, t, name, text)
    ensures OnBackendEvent(h, t, PrivSent(name, text)) == OnPrivSent(h, t, name, text)
  {
  }

  lemma PublicHeard(h: Gateway, s: Sock, t: Sock, text: string, m: MessageSummary)
    requires Shape(h) && NamesDiffer(h) && Speaks(h, s) && t in h.sessions && h.sessions[t].ws.open
    requires m.conversationId == PUBLIC_CONVERSATION_ID && m.kind == ChatMessage && m.text == text
    requires m.senderId == Some(h.sessions[s].id) && m.senderUsername == Some(h.sessions[s].nickname)
    ensures var heard := OnMsg(h, t, h.sessions[s].nickname, text);
            t in heard.sessions && Delivered(h.sessions[t], heard.sessions[t], m)
  {
    var x := h.sessions[s];
    FoundByName(h, s);
    RelayDelivers(h, t, PUBLIC_CONVERSATION_ID, x.id, x.nickname, text, m);
  }

  lemma PublicSaid(g: Gateway, s: Sock, text: string)
    requires s in g.sessions
    ensures var x := g.sessions[s];
            var own := Outgoing(g, x, PUBLIC_CONVERSATION_ID, text);
            var said := SendPublic(g, s, text);
            && said.db.messages == g.db.messages + [own] && said.sessions.Keys == g.sessions.Keys
            && (forall u :: u in g.sessions ==>
                  said.sessions[u] == if u == s then SendLine(Write(x, NewMessage(own)), text) else g.sessions[u])
  {
  }

  /** The lines and messages that a private text causes right away, before the server relays it. */
  function Told(g: Gateway, s: Sock, peer: Sock, u: Sock): Session
    requires s in g.sessions && peer in g.sessions && u in g.sessions
  {
    var summary := D.DirectSummary(g.sessions[s].id, g.sessions[peer].id);
    if D.HasDirect(g.db, summary.id) then g.sessions[u]
    else
      var once := if u == s then Write(g.sessions[u], ConversationCreated(summary)) else g.sessions[u];
      if u == peer then Write(once, ConversationCreated(summary)) else once
  }

  /** Who hears what of a private text at once: a new conversation is announced to its two sides, the text itself goes
      to nobody but, as one /msg line under the peer's name, to the server. */
  lemma DirectSaid(g: Gateway, s: Sock, peer: Sock, text: string)
    requires s in g.sessions && peer in g.sessions
    ensures var x, y := g.sessions[s], g.sessions[peer];
            var m := Outgoing(g, x, D.DirectConversationId(x.id, y.id), text);
            var said := DirectTo(g, s, peer, text);
            && said.sessions.Keys == g.sessions.Keys && said.db.messages == g.db.messages + [m]
            && said.db == D.Append(D.EnsureDirect(g.db, x.id, y.id), m)
            && (forall u :: u in g.sessions ==>
                  said.sessions[u] == if u == s then SendLine(Told(g, s, peer, u), FormatMsgCommand(y.nickname, text))
                                      else Told(g, s, peer, u))
  {
  }

  /** A private text that survives the trip is stored once, in the pair's conversation. What the server relays of it
      reaches the recipient's browser, and as confirmation the sender's, as the same text of the same sender in the same
      conversation that was stored. */
  lemma PrivateTextEndToEnd(gs: seq<Gateway>, es: seq<Event>, i: nat, j: nat, s: Sock, t: Sock, text: string)
    requires OrderlyRun(gs, es) && i < |gs| && j < |gs| && s != t && Talking(gs[i], gs[j], s, t) && Talking(gs[i], gs[j], t, s)
    requires text != "" && !EndsInLineBreak(text)
    ensures var g, h, x, y := gs[i], gs[j], gs[i].sessions[s], gs[i].sessions[t];
            var own := Outgoing(g, x, D.DirectConversationId(x.id, y.id), text);
            && HandleClientMessage(g, s, SendMessage(ToDirect(y.id), text)) == DirectTo(g, s, t, text)
            && DirectTo(g, s, t, text).db.messages == g.db.messages + [own]
            && PrivateDelivery(x.nickname, y.nickname, text).Some?
            && var (toPeer, toSelf) := PrivateDelivery(x.nickname, y.nickname, text).value;
               && t in OnBackendEvent(h, t, toPeer).sessions && s in OnBackendEvent(h, s, toSelf).sessions
               && Delivered(h.sessions[t], OnBackendEvent(h, t, toPeer).sessions[t], own)
               && Delivered(h.sessions[s], OnBackendEvent(h, s, toSelf).sessions[s], own)
  {
    var g, h, x, y := gs[i], gs[j], gs[i].sessions[s], gs[i].sessions[t];
    OrderlyRunsKeepInvariant(gs, es, i, map[]);
    OrderlyRunsKeepInvariant(gs, es, j, map[]);
    PrivateSaid(g, s, t, text);
    PrivateFidelity(x.nickname, y.nickname, text);
    PeerHears(h, s, t, text, Outgoing(g, x, D.DirectConversationId(x.id, y.id), text));
    SenderHears(h, s, t, text, Outgoing(g, x, D.DirectConversationId(x.id, y.id), text));
    RelayEvents(h, t, x.nickname, text);
    RelayEvents(h, s, y.nickname, text);
  }

  lemma PrivateSaid(g: Gateway, s: Sock, t: Sock, text: string)
    requires Shape(g) && Speaks(g, s) && Speaks(g, t)
    ensures var x, y := g.sessions[s], g.sessions[t];
            && HandleClientMessage(g, s, SendMessage(ToDirect(y.id), text)) == DirectTo(g, s, t, text)
            && DirectTo(g, s, t, text).db.messages
               == g.db.messages + [Outgoing(g, x, D.DirectConversationId(x.id, y.id), text)]
  {
    assert SessionOk(g, t, g.sessions[t]);
    DirectSaid(g, s, t, text);
  }

  lemma PeerHears(h: Gateway, s: Sock, t: Sock, text: string, m: MessageSummary)
    requires Shape(h) && NamesDiffer(h) && Speaks(h, s) && Speaks(h, t) && h.sessions[t].ws.open
    requires m.conversationId == D.DirectConversationId(h.sessions[s].id, h.sessions[t].id) && m.kind == ChatMessage
    requires m.senderId == Some(h.sessions[s].id) && m.senderUsername == Some(h.sessions[s].nickname) && m.text == text
    ensures var h' := OnPriv(h, t, h.sessions[s].nickname, text);
            t in h'.sessions && Delivered(h.sessions[t], h'.sessions[t], m)
  {
    var x, y := h.sessions[s], h.sessions[t];
    FoundByName(h, s);
    D.DirectIdSymmetric(x.id, y.id);
    RelayDelivers(Converse(h, y.id, x.id), t, D.DirectConversationId(y.id, x.id), x.id, x.nickname, text, m);
  }

  lemma SenderHears(h: Gateway, s: Sock, t: Sock, text: string, m: MessageSummary)
    requires Shape(h) && NamesDiffer(h) && Speaks(h, s) && Speaks(h, t) && h.sessions[s].ws.open
    requires m.conversationId == D.DirectConversationId(h.sessions[s].id, h.sessions[t].id) && m.kind == ChatMessage
    requires m.senderId == Some(h.sessions[s].id) && m.senderUsername == Some(h.sessions[s].nickname) && m.text == text
    ensures var h' := OnPrivSent(h, s, h.sessions[t].nickname, text);
            s in h'.sessions && Delivered(h.sessions[s], h'.sessions[s], m)
  {
    var x, y := h.sessions[s], h.sessions[t];
    FoundByName(h, t);
    RelayDelivers(Converse(h, x.id, y.id), s, D.DirectConversationId(x.id, y.id), x.id, x.nickname, text, m);
  }

  /** A delivered text becomes the last line of its conversation in the browser, under the sender's name, and is marked
      as the user's own exactly for its sender. */
  lemma BrowserShowsText(c: C.ChatState, m: MessageSummary, self: string)
    requires c.userId == Some(self) && forall id :: id in c.conversations ==> c.conversations[id].id == id
    ensures var convs := C.ChatReducer(c, C.MessageReceived(m)).conversations;
            && m.conversationId in convs
            && var lines := convs[m.conversationId].messages;
               && lines != []
               && lines[..|lines| - 1] == (if m.conversationId in c.conversations then c.conversations[m.conversationId].messages else [])
               && var last := lines[|lines| - 1];
                  last.content == m.text && last.sender == m.senderUsername && (last.isOwn <==> m.senderId == Some(self))
    ensures forall id :: id in c.conversations && id != m.conversationId ==>
              id in C.ChatReducer(c, C.MessageReceived(m)).conversations
              && C.ChatReducer(c, C.MessageReceived(m)).conversations[id] == c.conversations[id]
  {
    var before := C.ConversationFor(c.conversations, m);
    assert before.id == m.conversationId;
    var lines := before.messages + [C.MessageFromSummary(m, self)];
    assert C.ChatReducer(c, C.MessageReceived(m)).conversations[m.conversationId].messages == lines;
    assert lines[..|lines| - 1] == before.messages;
  }
}
