/** The browser's reducer. */
module ChatState {
  import opened Text
  import opened ClientProtocol

  datatype ConnectionStatus = Idle | Connecting | Connected | Disconnected | Reconnecting | Failed

  datatype User = User(id: string, nickname: string, presence: Presence)

  datatype LineKind = ChatLine | SystemLine | ErrorLine

  datatype Message = Message(
    id: string, kind: LineKind, senderId: Option<string>, sender: Option<string>,
    content: string, timestamp: nat, isOwn: bool)

  datatype Conversation = Conversation(
    id: string, kind: ConversationKind, title: string,
    peerId: Option<string>, memberIds: Option<seq<string>>,
    messages: seq<Message>, unreadCount: nat)

  datatype ChatState = ChatState(
    connectionStatus: ConnectionStatus,
    gatewayUrl: string,
    userId: Option<string>,
    nickname: string,
    presence: Presence,
    users: map<string, User>,
    conversations: map<string, Conversation>,
    activeConversationId: string,
    sidebarOpen: bool,
    nicknameModalOpen: bool,
    newGroupModalOpen: bool,
    pendingGroupCreation: bool,
    authenticating: bool,
    authError: Option<string>,
    lastError: Option<string>,
    hasConnectedOnce: bool)

  /** Random ids and the current time, which the source takes from its environment, are fields here. */
  datatype ChatAction =
    | SetStatus(status: ConnectionStatus)
    | ReadyAction(userId: string, username: string, users: seq<UserSummary>,
                  conversations: seq<ConversationSummary>, messages: seq<MessageSummary>)
    | UserUpdateAction(user: UserSummary)
    | UserOfflineAction(offlineId: string)
    | ConversationCreatedAction(conversation: ConversationSummary)
    | MessageReceived(message: MessageSummary)
    | ErrorReceived(text: string, conversationId: Option<string>, errorId: string, now: nat)
    | SetActiveConversation(target: string)
    | SetSidebarOpen(open: bool)
    | SetNicknameModal(open: bool)
    | SetNewGroupModal(open: bool)
    | MarkPendingGroupCreation
    | SetError(error: Option<string>)
    | SetAuthenticating(value: bool)
    | AuthError(text: string)
    | LoggedOutAction

  function PublicConversation(memberIds: seq<string>): Conversation {
    Conversation(PUBLIC_CONVERSATION_ID, PublicKind, "Public Chat", None, Some(memberIds), [], 0)
  }

  function ConversationFromSummary(summary: ConversationSummary, self: string): Conversation {
    match summary.kind
    case DirectKind =>
      Conversation(summary.id, DirectKind, summary.title, FirstOther(summary.memberIds, self), None, [], 0)
    case GroupKind => Conversation(summary.id, GroupKind, summary.title, None, Some(summary.memberIds), [], 0)
    case PublicKind => PublicConversation(summary.memberIds)
  }

  function MessageFromSummary(m: MessageSummary, self: string): Message {
    Message(m.id, if m.kind == ChatMessage then ChatLine else SystemLine, m.senderId, m.senderUsername,
            m.text, m.timestamp, m.senderId == Some(self))
  }

  // READY.

  function UserOf(u: UserSummary): User { User(u.id, u.username, u.presence) }

  function FillUsers(users: map<string, User>, us: seq<UserSummary>): map<string, User>
    decreases |us|
  {
    if us == [] then users else FillUsers(users[us[0].id := UserOf(us[0])], us[1..])
  }

  function FillConversations(convs: map<string, Conversation>, cs: seq<ConversationSummary>, self: string):
    map<string, Conversation>
    decreases |cs|
  {
    if cs == [] then convs
    else if cs[0].id == PUBLIC_CONVERSATION_ID then FillConversations(convs, cs[1..], self)
    else FillConversations(convs[cs[0].id := ConversationFromSummary(cs[0], self)], cs[1..], self)
  }

  function PushMessage(convs: map<string, Conversation>, m: MessageSummary, self: string): map<string, Conversation> {
    if m.conversationId in convs then
      var c := convs[m.conversationId];
      convs[m.conversationId := c.(messages := c.messages + [MessageFromSummary(m, self)])]
    else convs
  }

  function PushMessages(convs: map<string, Conversation>, ms: seq<MessageSummary>, self: string): map<string, Conversation>
    decreases |ms|
  {
    if ms == [] then convs else PushMessages(PushMessage(convs, ms[0], self), ms[1..], self)
  }

  function ListedConversations(us: seq<UserSummary>, cs: seq<ConversationSummary>, self: string): map<string, Conversation> {
    FillConversations(map[PUBLIC_CONVERSATION_ID := PublicConversation(UserIds(us))], cs, self)
  }

  function Restored(state: ChatState, userId: string, username: string,
                    users: map<string, User>, conversations: map<string, Conversation>): ChatState {
    state.(userId := Some(userId), nickname := username, presence := Online,
           users := users, conversations := conversations, activeConversationId := PUBLIC_CONVERSATION_ID,
           authenticating := false, authError := None, hasConnectedOnce := true)
  }

  // The other actions.

  function MembersOf(convs: map<string, Conversation>): seq<string> {
    if PUBLIC_CONVERSATION_ID in convs && convs[PUBLIC_CONVERSATION_ID].memberIds.Some?
    then convs[PUBLIC_CONVERSATION_ID].memberIds.value else []
  }

  function SetPublicMembers(convs: map<string, Conversation>, ids: seq<string>): map<string, Conversation> {
    if PUBLIC_CONVERSATION_ID in convs
    then convs[PUBLIC_CONVERSATION_ID := convs[PUBLIC_CONVERSATION_ID].(memberIds := Some(ids))] else convs
  }

  function OnUserUpdate(state: ChatState, u: UserSummary): ChatState {
    var members := MembersOf(state.conversations);
    var isSelf := state.userId == Some(u.id);
    state.(users := state.users[u.id := UserOf(u)],
           nickname := if isSelf then u.username else state.nickname,
           presence := if isSelf then u.presence else state.presence,
           conversations := SetPublicMembers(state.conversations, if u.id in members then members else members + [u.id]))
  }

  function OnUserOffline(state: ChatState, id: string): ChatState {
    state.(users := state.users - {id},
           conversations := SetPublicMembers(state.conversations, Without(MembersOf(state.conversations), id)))
  }

  /** A new group that this user has just asked for. */
  predicate JustCreated(state: ChatState, c: ConversationSummary) {
    && state.pendingGroupCreation && c.kind == GroupKind
    && state.userId.Some? && state.userId.value in c.memberIds && c.id !in state.conversations
  }

  /** The announced conversation, with what is already known of its messages. */
  function Merged(convs: map<string, Conversation>, c: ConversationSummary, self: string): Conversation {
    var incoming := ConversationFromSummary(c, self);
    if c.id in convs then incoming.(messages := convs[c.id].messages, unreadCount := convs[c.id].unreadCount) else incoming
  }

  function OnConversationCreated(state: ChatState, c: ConversationSummary): ChatState {
    if state.userId.None? || state.userId == Some("") then state
    else
      var merged := Merged(state.conversations, c, state.userId.value);
      var mine := JustCreated(state, c);
      state.(conversations := state.conversations[merged.id := merged],
             activeConversationId := if mine then merged.id else state.activeConversationId,
             pendingGroupCreation := if mine then false else state.pendingGroupCreation,
             newGroupModalOpen := if mine then false else state.newGroupModalOpen)
  }

  /** The conversation a message belongs to, invented when nothing is known of it yet. */
  function ConversationFor(convs: map<string, Conversation>, m: MessageSummary): Conversation {
    if m.conversationId in convs then convs[m.conversationId]
    else if m.conversationId == PUBLIC_CONVERSATION_ID then PublicConversation([])
    else
      Conversation(m.conversationId, DirectKind,
        if m.senderUsername.Some? then m.senderUsername.value else "Unknown", None, None, [], 0)
  }

  function OnMessage(state: ChatState, m: MessageSummary): ChatState {
    var c := ConversationFor(state.conversations, m);
    var self := if state.userId.Some? then state.userId.value else "";
    var active := state.activeConversationId == c.id;
    state.(conversations := state.conversations[c.id :=
      c.(messages := c.messages + [MessageFromSummary(m, self)], unreadCount := if active then 0 else c.unreadCount + 1)])
  }

  function AddLine(convs: map<string, Conversation>, id: string, line: Message): map<string, Conversation> {
    if id in convs then convs[id := convs[id].(messages := convs[id].messages + [line])] else convs
  }

  function OnError(state: ChatState, text: string, conversationId: Option<string>, errorId: string, now: nat): ChatState {
    var id := if conversationId.Some? then conversationId.value else state.activeConversationId;
    state.(lastError := Some(text),
           conversations := AddLine(state.conversations, id, Message(errorId, ErrorLine, None, None, text, now, false)))
  }

  function ChatReducer(state: ChatState, action: ChatAction): ChatState {
    match action
    case SetStatus(status) => state.(connectionStatus := status)
    case ReadyAction(userId, username, users, conversations, messages) =>
      Restored(state, userId, username, FillUsers(map[], users),
               PushMessages(ListedConversations(users, conversations, userId), messages, userId))
    case UserUpdateAction(user) => OnUserUpdate(state, user)
    case UserOfflineAction(id) => OnUserOffline(state, id)
    case ConversationCreatedAction(conversation) => OnConversationCreated(state, conversation)
    case MessageReceived(message) => OnMessage(state, message)
    case ErrorReceived(text, conversationId, errorId, now) => OnError(state, text, conversationId, errorId, now)
    case SetActiveConversation(id) =>
      if id !in state.conversations then state
      else state.(activeConversationId := id, sidebarOpen := false,
                  conversations := state.conversations[id := state.conversations[id].(unreadCount := 0)])
    case SetSidebarOpen(open) => state.(sidebarOpen := open)
    case SetNicknameModal(open) => state.(nicknameModalOpen := open)
    case SetNewGroupModal(open) => state.(newGroupModalOpen := open)
    case MarkPendingGroupCreation => state.(pendingGroupCreation := true)
    case SetError(error) => state.(lastError := error)
    case SetAuthenticating(value) => state.(authenticating := value, authError := if value then None else state.authError)
    case AuthError(text) => state.(authenticating := false, authError := Some(text))
    case LoggedOutAction =>
      state.(userId := None, nickname := "", presence := Online, users := map[],
             conversations := map[PUBLIC_CONVERSATION_ID := PublicConversation([])],
             activeConversationId := PUBLIC_CONVERSATION_ID, authenticating := false, lastError := None)
  }

  function InitialState(gatewayUrl: string): ChatState {
    ChatState(Idle, gatewayUrl, None, "", Online, map[], map[PUBLIC_CONVERSATION_ID := PublicConversation([])],
              PUBLIC_CONVERSATION_ID, false, false, false, false, false, None, None, false)
  }

  /** The READY branch as written: three loops that fill local records. */
  method HandleReady(state: ChatState, userId: string, username: string, users: seq<UserSummary>,
                     conversations: seq<ConversationSummary>, messages: seq<MessageSummary>) returns (next: ChatState)
    ensures next == ChatReducer(state, ReadyAction(userId, username, users, conversations, messages))
  {
    var byId: map<string, User> := map[];
    for i := 0 to |users|
      invariant FillUsers(byId, users[i..]) == FillUsers(map[], users)
    {
      byId := byId[users[i].id := UserOf(users[i])];
      assert users[i..][1..] == users[i + 1..];
    }
    assert users[|users|..] == [];
    var convs := map[PUBLIC_CONVERSATION_ID := PublicConversation(UserIds(users))];
    for i := 0 to |conversations|
      invariant FillConversations(convs, conversations[i..], userId) == ListedConversations(users, conversations, userId)
    {
      assert conversations[i..][1..] == conversations[i + 1..];
      if conversations[i].id == PUBLIC_CONVERSATION_ID { continue; }
      convs := convs[conversations[i].id := ConversationFromSummary(conversations[i], userId)];
    }
    assert conversations[|conversations|..] == [];
    var listed := convs;
    for i := 0 to |messages|
      invariant PushMessages(convs, messages[i..], userId) == PushMessages(listed, messages, userId)
    {
      assert messages[i..][1..] == messages[i + 1..];
      if messages[i].conversationId !in convs { continue; }
      var c := convs[messages[i].conversationId];
      convs := convs[messages[i].conversationId := c.(messages := c.messages + [MessageFromSummary(messages[i], userId)])];
    }
    assert messages[|messages|..] == [];
    next := Restored(state, userId, username, byId, convs);
  }
}
