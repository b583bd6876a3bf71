/** What the gateway's helpers leave alone, and which requests are quiet: they write messages, conversations and lines
    but touch no name, no presence and no roster entry. */
module GatewayFrames {
  import opened Text
  import opened ClientProtocol
  import opened BackendLines
  import opened Gateway
  import D = Database
  import ChatState
  import ChatStateProofs

  // What the browser makes of a message.

  /** ChatProvider's dispatch. */
  function ToAction(m: ServerMessage, loggedIn: bool, errorId: string, now: nat): ChatState.ChatAction {
    match m
    case Ready(userId, username, users, conversations, messages) =>
      ChatState.ReadyAction(userId, username, users, conversations, messages)
    case LoggedOut => ChatState.LoggedOutAction
    case UserUpdate(user) => ChatState.UserUpdateAction(user)
    case UserOffline(id) => ChatState.UserOfflineAction(id)
    case ConversationCreated(conversation) => ChatState.ConversationCreatedAction(conversation)
    case NewMessage(message) => ChatState.MessageReceived(message)
    case ErrorMessage(code, text, conversationId) =>
      if loggedIn then ChatState.ErrorReceived(text, conversationId, errorId, now) else ChatState.AuthError(text)
  }

  /** Conversations are public exactly when their id says so, and the public one is never announced. */
  predicate Presentable(m: ServerMessage) {
    match m
    case Ready(userId, _, _, conversations, _) =>
      userId != "" && forall i :: 0 <= i < |conversations| ==> ChatStateProofs.SummaryOk(conversations[i])
    case ConversationCreated(conversation) => ChatStateProofs.SummaryOk(conversation) && conversation.kind != PublicKind
    case _ => true
  }

  /** What the gateway may send is what keeps the reducer's invariant and the public conversation's member list. */
  lemma PresentableIsActionOk(m: ServerMessage, c: ChatState.ChatState, loggedIn: bool, errorId: string, now: nat)
    requires c.userId.Some? && c.userId != Some("")
    ensures Presentable(m) <==>
            ChatStateProofs.ActionOk(ToAction(m, loggedIn, errorId, now))
            && !ChatStateProofs.RelistsPublic(c, ToAction(m, loggedIn, errorId, now))
  {
  }

  /** Says nothing about who is online. */
  predicate QuietMessage(m: ServerMessage) {
    (m.NewMessage? || m.ConversationCreated? || m.ErrorMessage?) && Presentable(m)
  }

  ghost predicate QuietNews(a: seq<ServerMessage>, b: seq<ServerMessage>) {
    a <= b && forall i :: |a| <= i < |b| ==> QuietMessage(b[i])
  }

  ghost predicate QuietSession(x: Session, x': Session) {
    && x'.(ws := x.ws, backend := x.backend) == x
    && x'.ws.open == x.ws.open && x'.backend.status == x.backend.status
    && QuietNews(x.ws.sent, x'.ws.sent)
  }

  ghost predicate SameRoster(g: Gateway, g': Gateway) {
    g'.order == g.order && g'.byId == g.byId && g'.now == g.now && g'.sessions.Keys == g.sessions.Keys
  }

  ghost predicate Quiet(g: Gateway, g': Gateway) {
    && SameRoster(g, g')
    && forall s :: s in g.sessions ==> QuietSession(g.sessions[s], g'.sessions[s])
  }

  lemma QuietTransitive(a: Gateway, b: Gateway, c: Gateway)
    requires Quiet(a, b) && Quiet(b, c)
    ensures Quiet(a, c)
  {
    forall s | s in a.sessions ensures QuietSession(a.sessions[s], c.sessions[s]) {
      QuietSessionTransitive(a.sessions[s], b.sessions[s], c.sessions[s]);
    }
  }

  lemma QuietSessionTransitive(x: Session, y: Session, z: Session)
    requires QuietSession(x, y) && QuietSession(y, z)
    ensures QuietSession(x, z)
  {
  }

  lemma WriteIsQuiet(x: Session, m: ServerMessage)
    requires QuietMessage(m)
    ensures QuietSession(x, Write(x, m))
  {
  }

  lemma SendToIsQuiet(g: Gateway, s: Sock, m: ServerMessage)
    requires QuietMessage(m)
    ensures Quiet(g, SendTo(g, s, m))
  {
    if s in g.sessions { WriteIsQuiet(g.sessions[s], m); }
  }

  lemma {:induction false} SendManyIsQuiet(g: Gateway, targets: seq<Sock>, m: ServerMessage)
    requires QuietMessage(m)
    ensures Quiet(g, SendMany(g, targets, m))
    decreases |targets|
  {
    if targets != [] {
      SendToIsQuiet(g, targets[0], m);
      SendManyIsQuiet(SendTo(g, targets[0], m), targets[1..], m);
      QuietTransitive(g, SendTo(g, targets[0], m), SendMany(g, targets, m));
    }
  }

  lemma LineIsQuiet(g: Gateway, s: Sock, line: string)
    ensures Quiet(g, Line(g, s, line))
  {
  }

  lemma StoresAreQuiet(g: Gateway, db: D.Tables, supply: nat)
    ensures Quiet(g, g.(db := db, supply := supply))
  {
  }

  /** SendTo, SendMany and Line leave the database alone. */
  lemma {:induction false} SendManyKeepsStores(g: Gateway, targets: seq<Sock>, m: ServerMessage)
    ensures var g' := SendMany(g, targets, m);
            g'.db == g.db && g'.supply == g.supply && g'.now == g.now && g'.order == g.order && g'.byId == g.byId
              && g'.sessions.Keys == g.sessions.Keys
    decreases |targets|
  {
    if targets != [] { SendManyKeepsStores(SendTo(g, targets[0], m), targets[1..], m); }
  }

  lemma IdsDiffer(a: Id, b: Id, uuid: string)
    ensures D.DirectConversationId(a, b) != PUBLIC_CONVERSATION_ID && D.GroupId(uuid) != PUBLIC_CONVERSATION_ID
    ensures D.GroupId(uuid) != D.DirectConversationId(a, b)
  {
    assert D.DirectConversationId(a, b)[0] == 'd' && PUBLIC_CONVERSATION_ID[0] == 'p' && D.GroupId(uuid)[0] == 'g';
  }

  lemma MakeGroupIsQuiet(g: Gateway, name: string, ids: seq<Id>)
    ensures Quiet(g, MakeGroup(g, name, ids))
  {
    var uuid := Decimal(g.supply);
    var g1 := g.(db := D.InsertGroup(g.db, uuid, name, ids), supply := g.supply + 1);
    StoresAreQuiet(g, g1.db, g1.supply);
    IdsDiffer("", "", uuid);
    var m := ConversationCreated(ConversationSummary(D.GroupId(uuid), GroupKind, name, ids));
    SendManyIsQuiet(g1, SocksOf(g, ids), m);
    QuietTransitive(g, g1, SendMany(g1, SocksOf(g, ids), m));
  }

  lemma CreateGroupIsQuiet(g: Gateway, s: Sock, name: string, memberIds: seq<Id>)
    requires s in g.sessions
    ensures Quiet(g, HandleCreateGroup(g, s, name, memberIds))
  {
    var ids := Distinct([g.sessions[s].id] + memberIds);
    var unknown := NotWelcomed(g, ids);
    SendToIsQuiet(g, s, UnknownMembers(unknown));
    MakeGroupIsQuiet(g, name, ids);
  }

  lemma SendPublicIsQuiet(g: Gateway, s: Sock, text: string)
    requires s in g.sessions
    ensures Quiet(g, SendPublic(g, s, text))
  {
    var own := Outgoing(g, g.sessions[s], PUBLIC_CONVERSATION_ID, text);
    var g1 := Store(g, own);
    var g2 := SendTo(g1, s, NewMessage(own));
    StoresAreQuiet(g, g1.db, g1.supply);
    SendToIsQuiet(g1, s, NewMessage(own));
    LineIsQuiet(g2, s, FormatChatLine(text));
    QuietTransitive(g, g1, g2);
    QuietTransitive(g, g2, SendPublic(g, s, text));
  }

  lemma DirectToIsQuiet(g: Gateway, s: Sock, peer: Sock, text: string)
    requires s in g.sessions && peer in g.sessions
    ensures Quiet(g, DirectTo(g, s, peer, text))
  {
    var x, target := g.sessions[s], g.sessions[peer];
    var conversation := D.DirectSummary(x.id, target.id);
    var m := ConversationCreated(conversation);
    IdsDiffer(x.id, target.id, "");
    var g1 := g.(db := D.EnsureDirect(g.db, x.id, target.id));
    StoresAreQuiet(g, g1.db, g1.supply);
    var told := SendTo(SendTo(g1, s, m), peer, m);
    SendToIsQuiet(g1, s, m);
    SendToIsQuiet(SendTo(g1, s, m), peer, m);
    QuietTransitive(g1, SendTo(g1, s, m), told);
    var g2 := if !D.HasDirect(g.db, conversation.id) then told else g1;
    QuietTransitive(g, g1, told);
    DirectTail(g, g2, s, Outgoing(g, x, conversation.id, text), FormatMsgCommand(target.nickname, text));
  }

  lemma SendDirectIsQuiet(g: Gateway, s: Sock, peerId: Id, text: string)
    requires s in g.sessions
    ensures Quiet(g, SendDirect(g, s, peerId, text))
  {
    if Welcomed(g, peerId) { DirectToIsQuiet(g, s, g.byId[peerId], text); }
    else {
      SendToIsQuiet(g, s, ErrorMessage("USER_NOT_FOUND", "That user is not currently online.",
                                       Some(D.DirectConversationId(g.sessions[s].id, peerId))));
    }
  }

  lemma DirectTail(g: Gateway, g2: Gateway, s: Sock, m: MessageSummary, line: string)
    requires Quiet(g, g2)
    ensures Quiet(g, Line(Store(g2, m), s, line))
  {
    var g3 := Store(g2, m);
    StoresAreQuiet(g2, g3.db, g3.supply);
    LineIsQuiet(g3, s, line);
    QuietTransitive(g, g2, g3);
    QuietTransitive(g, g3, Line(g3, s, line));
  }

  lemma SendGroupIsQuiet(g: Gateway, s: Sock, group: string, text: string)
    requires s in g.sessions
    ensures Quiet(g, SendGroup(g, s, group, text))
  {
    var x := g.sessions[s];
    if !MayPost(g, x.id, group) {
      SendToIsQuiet(g, s, ErrorMessage("NOT_A_MEMBER", "You are not a member of that group.", Some(group)));
    } else {
      var m := Outgoing(g, x, group, text);
      var g1 := Store(g, m);
      var targets := SocksOf(g, D.MemberList(g.db.members, group));
      StoresAreQuiet(g, g1.db, g1.supply);
      SendManyIsQuiet(g1, targets, NewMessage(m));
      QuietTransitive(g, g1, SendMany(g1, targets, NewMessage(m)));
    }
  }

  lemma QuietRequest(g: Gateway, s: Sock, m: ClientMessage)
    requires s in g.sessions && !m.SetPresence? && !m.RequestState?
    ensures Quiet(g, HandleClientMessage(g, s, m))
  {
    if m.SetNickname? { LineIsQuiet(g, s, FormatNickCommand(m.nickname)); }
    else if m.CreateGroup? { CreateGroupIsQuiet(g, s, m.name, m.memberIds); }
    else if m.target.ToPublic? { SendPublicIsQuiet(g, s, m.text); }
    else if m.target.ToDirect? { SendDirectIsQuiet(g, s, m.target.peerId, m.text); }
    else { SendGroupIsQuiet(g, s, m.target.groupId, m.text); }
  }

  /** Relayed chat, private messages and errors are quiet, but for the error that ends a login. */
  lemma QuietEvent(g: Gateway, s: Sock, e: BackendEvent)
    requires s in g.sessions && !e.Welcome? && !e.Nick?
    requires e.Err? ==> g.sessions[s].readyAnnounced || e.code != "NICK_TAKEN"
    ensures Quiet(g, OnBackendEvent(g, s, e))
  {
    if e.Msg? { OnMsgIsQuiet(g, s, e.sender, e.text); }
    else if e.Priv? { OnPrivIsQuiet(g, s, e.sender, e.text); }
    else if e.PrivSent? { OnPrivSentIsQuiet(g, s, e.recipient, e.text); }
    else if e.Err? { SendToIsQuiet(g, s, ErrorOf(e.code, e.text)); }
  }

  lemma RelayIsQuiet(g: Gateway, s: Sock, conversation: string, from: Option<Id>, sender: string, text: string)
    ensures Quiet(g, Relay(g, s, conversation, from, sender, text))
  {
    var g1 := g.(supply := g.supply + 1);
    var m := NewMessage(MessageSummary(Decimal(g.supply), conversation, ChatMessage, from, Some(sender), text, g.now));
    StoresAreQuiet(g, g.db, g1.supply);
    SendToIsQuiet(g1, s, m);
    QuietTransitive(g, g1, SendTo(g1, s, m));
  }

  lemma OnMsgIsQuiet(g: Gateway, s: Sock, sender: string, text: string)
    ensures Quiet(g, OnMsg(g, s, sender, text))
  {
    RelayIsQuiet(g, s, PUBLIC_CONVERSATION_ID, FindByNickname(g, g.order, sender), sender, text);
  }

  lemma ConverseAndRelay(g: Gateway, s: Sock, a: Id, b: Id, from: Option<Id>, sender: string, text: string)
    ensures Quiet(g, Relay(Converse(g, a, b), s, D.DirectConversationId(a, b), from, sender, text))
  {
    var g1 := Converse(g, a, b);
    StoresAreQuiet(g, g1.db, g1.supply);
    RelayIsQuiet(g1, s, D.DirectConversationId(a, b), from, sender, text);
    QuietTransitive(g, g1, Relay(g1, s, D.DirectConversationId(a, b), from, sender, text));
  }

  lemma OnPrivIsQuiet(g: Gateway, s: Sock, sender: string, text: string)
    requires s in g.sessions
    ensures Quiet(g, OnPriv(g, s, sender, text))
  {
    var from := FindByNickname(g, g.order, sender);
    ConverseAndRelay(g, s, g.sessions[s].id, OrName(from, sender), from, sender, text);
  }

  lemma OnPrivSentIsQuiet(g: Gateway, s: Sock, recipient: string, text: string)
    requires s in g.sessions
    ensures Quiet(g, OnPrivSent(g, s, recipient, text))
  {
    var x := g.sessions[s];
    ConverseAndRelay(g, s, x.id, OrName(FindByNickname(g, g.order, recipient), recipient), Some(x.id), x.nickname, text);
  }
}
