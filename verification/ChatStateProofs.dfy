/** What the reducer keeps, and how its actions relate. */
module ChatStateProofs {
  import opened Text
  import opened ClientProtocol
  import opened ChatState

  // Invariant.

  /** Keys match ids, and the active conversation exists with nothing unread. */
  ghost predicate StateOk(s: ChatState) {
    && (forall id :: id in s.conversations ==> s.conversations[id].id == id)
    && s.activeConversationId in s.conversations
    && s.conversations[s.activeConversationId].unreadCount == 0
    && PUBLIC_CONVERSATION_ID in s.conversations
    && s.conversations[PUBLIC_CONVERSATION_ID].memberIds.Some?
  }

  /** The public conversation lists exactly the online users. */
  ghost predicate RosterOk(s: ChatState) {
    && (forall id :: id in MembersOf(s.conversations) <==> id in s.users)
    && (forall id :: id in s.users ==> s.users[id].id == id)
  }

  predicate SummaryOk(c: ConversationSummary) {
    c.kind == PublicKind <==> c.id == PUBLIC_CONVERSATION_ID
  }

  /** Well-formed input: a conversation is public exactly when its id says so, and users have ids. */
  predicate ActionOk(a: ChatAction) {
    match a
    case ReadyAction(userId, _, _, cs, _) => userId != "" && forall i :: 0 <= i < |cs| ==> SummaryOk(cs[i])
    case ConversationCreatedAction(c) => SummaryOk(c)
    case _ => true
  }

  ghost predicate ConvsOk(convs: map<string, Conversation>) {
    && PUBLIC_CONVERSATION_ID in convs && convs[PUBLIC_CONVERSATION_ID].memberIds.Some?
    && forall id :: id in convs ==> convs[id].id == id && convs[id].unreadCount == 0
  }

  lemma {:induction false} FillConversationsOk(convs: map<string, Conversation>, cs: seq<ConversationSummary>, self: string)
    requires ConvsOk(convs) && forall i :: 0 <= i < |cs| ==> SummaryOk(cs[i])
    ensures var filled := FillConversations(convs, cs, self);
            && ConvsOk(filled) && filled[PUBLIC_CONVERSATION_ID] == convs[PUBLIC_CONVERSATION_ID]
            && forall id :: id in filled <==> id in convs || exists i :: 0 <= i < |cs| && cs[i].id == id
    decreases |cs|
  {
    if cs != [] {
      var next := if cs[0].id == PUBLIC_CONVERSATION_ID then convs else convs[cs[0].id := ConversationFromSummary(cs[0], self)];
      assert forall i :: 0 <= i < |cs[1..]| ==> cs[1..][i] == cs[i + 1];
      FillConversationsOk(next, cs[1..], self);
      var filled := FillConversations(convs, cs, self);
      assert filled == FillConversations(next, cs[1..], self);
      forall id ensures id in filled <==> id in convs || exists i :: 0 <= i < |cs| && cs[i].id == id {
        if exists i :: 0 <= i < |cs| && cs[i].id == id {
          var i :| 0 <= i < |cs| && cs[i].id == id;
          assert i == 0 || cs[1..][i - 1].id == id;
        }
        if exists i :: 0 <= i < |cs[1..]| && cs[1..][i].id == id {
          var i :| 0 <= i < |cs[1..]| && cs[1..][i].id == id;
          assert cs[i + 1].id == id;
        }
      }
    }
  }

  lemma {:induction false} PushMessagesOk(convs: map<string, Conversation>, ms: seq<MessageSummary>, self: string)
    requires ConvsOk(convs)
    ensures var pushed := PushMessages(convs, ms, self);
            && ConvsOk(pushed) && pushed.Keys == convs.Keys
            && pushed[PUBLIC_CONVERSATION_ID].memberIds == convs[PUBLIC_CONVERSATION_ID].memberIds
    decreases |ms|
  {
    if ms != [] { PushMessagesOk(PushMessage(convs, ms[0], self), ms[1..], self); }
  }

  lemma {:induction false} FillUsersOk(users: map<string, User>, us: seq<UserSummary>)
    requires forall id :: id in users ==> users[id].id == id
    ensures forall id :: id in FillUsers(users, us) ==> FillUsers(users, us)[id].id == id
    decreases |us|
  {
    if us != [] { FillUsersOk(users[us[0].id := UserOf(us[0])], us[1..]); }
  }

  lemma {:induction false} FillUsersHas(users: map<string, User>, us: seq<UserSummary>, id: string)
    ensures id in FillUsers(users, us) <==> id in users || id in UserIds(us)
    decreases |us|
  {
    if us != [] {
      FillUsersHas(users[us[0].id := UserOf(us[0])], us[1..], id);
      assert UserIds(us) == [us[0].id] + UserIds(us[1..]);
    }
  }

  lemma ReadyOk(s: ChatState, a: ChatAction)
    requires a.ReadyAction? && ActionOk(a)
    ensures StateOk(ChatReducer(s, a)) && RosterOk(ChatReducer(s, a))
  {
    FillConversationsOk(map[PUBLIC_CONVERSATION_ID := PublicConversation(UserIds(a.users))], a.conversations, a.userId);
    PushMessagesOk(ListedConversations(a.users, a.conversations, a.userId), a.messages, a.userId);
    FillUsersOk(map[], a.users);
    forall id ensures id in FillUsers(map[], a.users) <==> id in UserIds(a.users) { FillUsersHas(map[], a.users, id); }
  }

  lemma MergedFields(convs: map<string, Conversation>, c: ConversationSummary, self: string)
    requires SummaryOk(c)
    ensures var merged := Merged(convs, c, self);
            && merged.id == c.id
            && merged.unreadCount == (if c.id in convs then convs[c.id].unreadCount else 0)
            && merged.messages == (if c.id in convs then convs[c.id].messages else [])
            && (c.kind == PublicKind ==> merged.memberIds == Some(c.memberIds))
  {
  }

  lemma CreatedOk(s: ChatState, c: ConversationSummary)
    requires StateOk(s) && SummaryOk(c)
    ensures StateOk(OnConversationCreated(s, c))
  {
    if s.userId.Some? && s.userId != Some("") {
      var merged := Merged(s.conversations, c, s.userId.value);
      MergedFields(s.conversations, c, s.userId.value);
      ConvsWith(s.conversations, s.activeConversationId, merged);
    }
  }

  lemma ConvsWith(convs: map<string, Conversation>, active: string, c: Conversation)
    requires forall id :: id in convs ==> convs[id].id == id
    requires active in convs && convs[active].unreadCount == 0
    requires PUBLIC_CONVERSATION_ID in convs && convs[PUBLIC_CONVERSATION_ID].memberIds.Some?
    requires c.id == PUBLIC_CONVERSATION_ID ==> c.memberIds.Some?
    requires c.unreadCount == if c.id in convs then convs[c.id].unreadCount else 0
    ensures var after := convs[c.id := c];
            && (forall id :: id in after ==> after[id].id == id)
            && active in after && after[active].unreadCount == 0
            && (c.id !in convs ==> after[c.id].unreadCount == 0)
            && PUBLIC_CONVERSATION_ID in after && after[PUBLIC_CONVERSATION_ID].memberIds.Some?
  {
  }

  lemma MessageOk(s: ChatState, m: MessageSummary)
    requires StateOk(s)
    ensures StateOk(OnMessage(s, m))
  {
  }

  lemma UserUpdateOk(s: ChatState, u: UserSummary)
    requires StateOk(s)
    ensures StateOk(OnUserUpdate(s, u)) && (RosterOk(s) ==> RosterOk(OnUserUpdate(s, u)))
  {
    var members := MembersOf(s.conversations);
    var now := if u.id in members then members else members + [u.id];
    assert MembersOf(OnUserUpdate(s, u).conversations) == now;
    assert forall id :: id in now <==> id in members || id == u.id;
  }

  lemma UserOfflineOk(s: ChatState, id: string)
    requires StateOk(s)
    ensures StateOk(OnUserOffline(s, id)) && (RosterOk(s) ==> RosterOk(OnUserOffline(s, id)))
  {
    assert MembersOf(OnUserOffline(s, id).conversations) == Without(MembersOf(s.conversations), id);
  }

  lemma ErrorOk(s: ChatState, text: string, conversationId: Option<string>, errorId: string, now: nat)
    requires StateOk(s)
    ensures StateOk(OnError(s, text, conversationId, errorId, now))
  {
  }

  lemma SetActiveOk(s: ChatState, id: string)
    requires StateOk(s)
    ensures StateOk(ChatReducer(s, SetActiveConversation(id)))
  {
  }

  /** Every action keeps the reducer's invariant. */
  lemma StateOkKept(s: ChatState, a: ChatAction)
    requires StateOk(s) && ActionOk(a)
    ensures StateOk(ChatReducer(s, a))
  {
    if a.ReadyAction? { ReadyOk(s, a); }
    else if a.UserUpdateAction? { UserUpdateOk(s, a.user); }
    else if a.UserOfflineAction? { UserOfflineOk(s, a.offlineId); }
    else if a.ConversationCreatedAction? { CreatedOk(s, a.conversation); }
    else if a.MessageReceived? { MessageOk(s, a.message); }
    else if a.ErrorReceived? { ErrorOk(s, a.text, a.conversationId, a.errorId, a.now); }
    else if a.SetActiveConversation? { SetActiveOk(s, a.target); }
  }

  /** A conversationCreated whose list replaces that of the public conversation. */
  predicate RelistsPublic(s: ChatState, a: ChatAction) {
    a.ConversationCreatedAction? && a.conversation.kind == PublicKind && s.userId.Some? && s.userId != Some("")
  }

  lemma MembersAfterCreated(s: ChatState, c: ConversationSummary)
    requires SummaryOk(c) && c.id != PUBLIC_CONVERSATION_ID
    ensures OnConversationCreated(s, c).users == s.users
    ensures MembersOf(OnConversationCreated(s, c).conversations) == MembersOf(s.conversations)
  {
    if s.userId.Some? && s.userId != Some("") { MergedFields(s.conversations, c, s.userId.value); }
  }

  lemma MembersAfterMessage(s: ChatState, m: MessageSummary)
    requires StateOk(s)
    ensures OnMessage(s, m).users == s.users && MembersOf(OnMessage(s, m).conversations) == MembersOf(s.conversations)
  {
  }

  lemma MembersAfterSetActive(s: ChatState, id: string)
    requires StateOk(s)
    ensures var s' := ChatReducer(s, SetActiveConversation(id));
            s'.users == s.users && MembersOf(s'.conversations) == MembersOf(s.conversations)
  {
  }

  lemma MembersAfterError(s: ChatState, text: string, conversationId: Option<string>, errorId: string, now: nat)
    requires StateOk(s)
    ensures var s' := OnError(s, text, conversationId, errorId, now);
            s'.users == s.users && MembersOf(s'.conversations) == MembersOf(s.conversations)
  {
  }

  lemma MembersUntouched(s: ChatState, a: ChatAction)
    requires StateOk(s) && ActionOk(a) && !Resets(a) && !a.UserUpdateAction? && !a.UserOfflineAction? && !RelistsPublic(s, a)
    ensures ChatReducer(s, a).users == s.users && MembersOf(ChatReducer(s, a).conversations) == MembersOf(s.conversations)
  {
    if a.ConversationCreatedAction? {
      if a.conversation.kind != PublicKind { MembersAfterCreated(s, a.conversation); }
    }
    else if a.MessageReceived? { MembersAfterMessage(s, a.message); }
    else if a.ErrorReceived? { MembersAfterError(s, a.text, a.conversationId, a.errorId, a.now); }
    else if a.SetActiveConversation? { MembersAfterSetActive(s, a.target); }
  }

  /** The roster stays in step under every action but one: a conversationCreated that names the public conversation
      keeps it exactly when it lists exactly the online users. */
  lemma RosterOkKept(s: ChatState, a: ChatAction)
    requires StateOk(s) && RosterOk(s) && ActionOk(a)
    ensures RosterOk(ChatReducer(s, a)) <==>
            (RelistsPublic(s, a) ==> forall id :: id in a.conversation.memberIds <==> id in s.users)
  {
    if a.ReadyAction? { ReadyOk(s, a); }
    else if a.UserUpdateAction? { UserUpdateOk(s, a.user); }
    else if a.UserOfflineAction? { UserOfflineOk(s, a.offlineId); }
    else if RelistsPublic(s, a) { assert MembersOf(ChatReducer(s, a).conversations) == a.conversation.memberIds; }
    else if !Resets(a) { MembersUntouched(s, a); }
  }

  // The user's own card.

  /** What the state says of its own user is what the user list says. */
  predicate SelfOk(s: ChatState) {
    s.userId.Some? && s.userId.value in s.users ==>
      s.users[s.userId.value].nickname == s.nickname && s.users[s.userId.value].presence == s.presence
  }

  /** Every action but READY keeps the user's own name and presence in step with the user list. */
  lemma SelfOkKept(s: ChatState, a: ChatAction)
    requires SelfOk(s) && !a.ReadyAction?
    ensures SelfOk(ChatReducer(s, a))
  {
    if a.UserUpdateAction? { SelfAfterUpdate(s, a.user); }
    else if a.UserOfflineAction? { SelfAfterOffline(s, a.offlineId); }
    else if !a.LoggedOutAction? { SelfUntouched(s, a); }
  }

  lemma SelfAfterUpdate(s: ChatState, u: UserSummary)
    requires SelfOk(s)
    ensures SelfOk(OnUserUpdate(s, u))
  {
  }

  lemma SelfAfterOffline(s: ChatState, id: string)
    requires SelfOk(s)
    ensures SelfOk(OnUserOffline(s, id))
  {
  }

  lemma SelfUntouched(s: ChatState, a: ChatAction)
    requires !a.ReadyAction? && !a.UserUpdateAction? && !a.UserOfflineAction? && !a.LoggedOutAction?
    ensures var s' := ChatReducer(s, a);
            s'.userId == s.userId && s'.users == s.users && s'.nickname == s.nickname && s'.presence == s.presence
  {
    if a.ConversationCreatedAction? { SelfAfterCreated(s, a.conversation); }
    else if a.ErrorReceived? { SelfAfterError(s, a.text, a.conversationId, a.errorId, a.now); }
  }

  lemma SelfAfterCreated(s: ChatState, c: ConversationSummary)
    ensures var s' := OnConversationCreated(s, c);
            s'.userId == s.userId && s'.users == s.users && s'.nickname == s.nickname && s'.presence == s.presence
  {
  }

  lemma SelfAfterError(s: ChatState, text: string, conversationId: Option<string>, errorId: string, now: nat)
    ensures var s' := OnError(s, text, conversationId, errorId, now);
            s'.userId == s.userId && s'.users == s.users && s'.nickname == s.nickname && s'.presence == s.presence
  {
  }

  // Unread counters.

  ghost function StateAfter(start: ChatState, trace: seq<ChatAction>): ChatState {
    if trace == [] then start else ChatReducer(StateAfter(start, trace[..|trace| - 1]), trace[|trace| - 1])
  }

  predicate Resets(a: ChatAction) { a.ReadyAction? || a.LoggedOutAction? }

  /** How many messages arrived for a conversation since it was last the active one or the state was last reset. */
  ghost function ArrivedSince(start: ChatState, trace: seq<ChatAction>, id: string): nat {
    if trace == [] || StateAfter(start, trace).activeConversationId == id || Resets(trace[|trace| - 1]) then 0
    else
      var last := trace[|trace| - 1];
      ArrivedSince(start, trace[..|trace| - 1], id) +
        if Brings(last, id) then 1 else 0
  }

  lemma {:induction false} TraceOk(url: string, trace: seq<ChatAction>)
    requires forall i :: 0 <= i < |trace| ==> ActionOk(trace[i])
    ensures StateOk(StateAfter(InitialState(url), trace))
  {
    if trace != [] {
      TraceOk(url, trace[..|trace| - 1]);
      StateOkKept(StateAfter(InitialState(url), trace[..|trace| - 1]), trace[|trace| - 1]);
    }
  }

  function UnreadOf(s: ChatState, id: string): nat {
    if id in s.conversations then s.conversations[id].unreadCount else 0
  }

  predicate Brings(a: ChatAction, id: string) { a.MessageReceived? && a.message.conversationId == id }

  lemma UnreadReset(s: ChatState, a: ChatAction, id: string)
    requires StateOk(s) && ActionOk(a) && Resets(a)
    ensures UnreadOf(ChatReducer(s, a), id) == 0
  {
    if a.ReadyAction? {
      FillConversationsOk(map[PUBLIC_CONVERSATION_ID := PublicConversation(UserIds(a.users))], a.conversations, a.userId);
      PushMessagesOk(ListedConversations(a.users, a.conversations, a.userId), a.messages, a.userId);
    }
  }

  lemma UnreadCreated(s: ChatState, c: ConversationSummary, id: string)
    requires SummaryOk(c)
    ensures UnreadOf(OnConversationCreated(s, c), id) == UnreadOf(s, id)
  {
    if s.userId.Some? && s.userId != Some("") { MergedFields(s.conversations, c, s.userId.value); }
  }

  lemma UnreadSetActive(s: ChatState, target: string, id: string)
    requires StateOk(s)
    ensures var s' := ChatReducer(s, SetActiveConversation(target));
            UnreadOf(s', id) == if s'.activeConversationId == id then 0 else UnreadOf(s, id)
  {
  }

  lemma UnreadError(s: ChatState, text: string, conversationId: Option<string>, errorId: string, now: nat, id: string)
    ensures UnreadOf(OnError(s, text, conversationId, errorId, now), id) == UnreadOf(s, id)
  {
  }

  lemma UnreadUserUpdate(s: ChatState, u: UserSummary, id: string)
    ensures UnreadOf(OnUserUpdate(s, u), id) == UnreadOf(s, id)
  {
  }

  lemma UnreadUserOffline(s: ChatState, gone: string, id: string)
    ensures UnreadOf(OnUserOffline(s, gone), id) == UnreadOf(s, id)
  {
  }

  lemma UnreadMessage(s: ChatState, m: MessageSummary, id: string)
    requires StateOk(s)
    ensures UnreadOf(OnMessage(s, m), id) ==
            if s.activeConversationId == id then 0 else UnreadOf(s, id) + if m.conversationId == id then 1 else 0
  {
    assert ConversationFor(s.conversations, m).id == m.conversationId;
    assert ConversationFor(s.conversations, m).unreadCount == UnreadOf(s, m.conversationId);
  }

  /** What one action does to one conversation's counter. */
  lemma UnreadStep(s: ChatState, a: ChatAction, id: string)
    requires StateOk(s) && ActionOk(a)
    ensures UnreadOf(ChatReducer(s, a), id) ==
            if ChatReducer(s, a).activeConversationId == id || Resets(a) then 0
            else UnreadOf(s, id) + if Brings(a, id) then 1 else 0
  {
    if Resets(a) { UnreadReset(s, a, id); }
    else {
      StateOkKept(s, a);
      if a.ConversationCreatedAction? { UnreadCreated(s, a.conversation, id); }
      else if a.MessageReceived? { UnreadMessage(s, a.message, id); }
      else if a.SetActiveConversation? { UnreadSetActive(s, a.target, id); }
      else if a.ErrorReceived? { UnreadError(s, a.text, a.conversationId, a.errorId, a.now, id); }
      else if a.UserUpdateAction? { UnreadUserUpdate(s, a.user, id); }
      else if a.UserOfflineAction? { UnreadUserOffline(s, a.offlineId, id); }
    }
  }

  /** Every unread counter is the number of messages that arrived since the conversation was last active or the state
      last reset; of a conversation that is not there, none have. */
  lemma {:induction false} UnreadCountsArrivals(url: string, trace: seq<ChatAction>, id: string)
    requires forall i :: 0 <= i < |trace| ==> ActionOk(trace[i])
    ensures UnreadOf(StateAfter(InitialState(url), trace), id) == ArrivedSince(InitialState(url), trace, id)
    decreases |trace|
  {
    if trace != [] {
      var front := trace[..|trace| - 1];
      TraceOk(url, front);
      UnreadCountsArrivals(url, front, id);
      UnreadStep(StateAfter(InitialState(url), front), trace[|trace| - 1], id);
    }
  }

  // Order of a conversation's announcement and its messages.

  ghost predicate KeysOk(s: ChatState) {
    forall id :: id in s.conversations ==> s.conversations[id].id == id
  }

  function Noted(c: Conversation, line: Message, unread: nat): Conversation {
    c.(messages := c.messages + [line], unreadCount := unread)
  }

  function UnreadAfter(s: ChatState, m: MessageSummary): nat {
    if s.activeConversationId == m.conversationId then 0 else UnreadOf(s, m.conversationId) + 1
  }

  lemma OnMessageAt(s: ChatState, m: MessageSummary, self: string)
    requires KeysOk(s) && s.userId == Some(self)
    ensures OnMessage(s, m) == s.(conversations := s.conversations[m.conversationId :=
              Noted(ConversationFor(s.conversations, m), MessageFromSummary(m, self), UnreadAfter(s, m))])
  {
    var c := ConversationFor(s.conversations, m);
    assert c.id == m.conversationId && c.unreadCount == UnreadOf(s, c.id);
  }

  lemma OnCreatedAt(s: ChatState, c: ConversationSummary, self: string)
    requires SummaryOk(c) && s.userId == Some(self) && self != "" && !JustCreated(s, c)
    ensures OnConversationCreated(s, c) == s.(conversations := s.conversations[c.id := Merged(s.conversations, c, self)])
  {
    MergedFields(s.conversations, c, self);
  }

  lemma MergedCommutes(convs: map<string, Conversation>, c: ConversationSummary, m: MessageSummary, self: string,
                       line: Message, unread: nat)
    requires SummaryOk(c) && m.conversationId == c.id
    ensures Merged(convs[c.id := Noted(ConversationFor(convs, m), line, unread)], c, self)
         == Noted(Merged(convs, c, self), line, unread)
  {
    MergedFields(convs, c, self);
  }

  lemma Overwrite<V>(convs: map<string, V>, id: string, old1: V, now: V)
    ensures convs[id := old1][id := now] == convs[id := now]
  {
  }

  lemma SameConversation(s: ChatState, c: ConversationSummary, m: MessageSummary, self: string)
    requires KeysOk(s) && SummaryOk(c) && m.conversationId == c.id
    requires s.userId == Some(self) && self != "" && !JustCreated(s, c)
    ensures OnMessage(OnConversationCreated(s, c), m) == OnConversationCreated(OnMessage(s, m), c)
  {
    var announced, received := OnConversationCreated(s, c), OnMessage(s, m);
    var line, unread := MessageFromSummary(m, self), UnreadAfter(s, m);
    var merged := Merged(s.conversations, c, self);
    MergedFields(s.conversations, c, self);
    OnCreatedAt(s, c, self);
    OnMessageAt(s, m, self);
    OnMessageAt(announced, m, self);
    OnCreatedAt(received, c, self);
    Overwrite(s.conversations, c.id, merged, Noted(merged, line, unread));
    var seen := Noted(ConversationFor(s.conversations, m), line, unread);
    MergedCommutes(s.conversations, c, m, self, line, unread);
    Overwrite(s.conversations, c.id, seen, Noted(merged, line, unread));
  }

  /** Announcement and message of one conversation may arrive in either order, unless the announcement is of the group
      this user has just asked for and that is not known yet. */
  lemma AnnouncementAndMessageCommute(s: ChatState, c: ConversationSummary, m: MessageSummary)
    requires StateOk(s) && SummaryOk(c) && m.conversationId == c.id
    ensures (OnMessage(OnConversationCreated(s, c), m) == OnConversationCreated(OnMessage(s, m), c)) <==>
            !(JustCreated(s, c) && s.userId != Some(""))
  {
    if s.userId.Some? && s.userId != Some("") {
      if JustCreated(s, c) {
        MergedFields(s.conversations, c, s.userId.value);
        assert OnMessage(OnConversationCreated(s, c), m).activeConversationId == c.id;
        assert OnConversationCreated(OnMessage(s, m), c).activeConversationId == s.activeConversationId;
      } else { SameConversation(s, c, m, s.userId.value); }
    }
  }

  // A login snapshot against incremental delivery.

  function ZeroUnread(convs: map<string, Conversation>): map<string, Conversation> {
    map id | id in convs :: convs[id].(unreadCount := 0)
  }

  ghost predicate SameButUnread(a: ChatState, b: ChatState) {
    a.(conversations := map[]) == b.(conversations := map[]) && ZeroUnread(a.conversations) == ZeroUnread(b.conversations)
  }

  function Replay(s: ChatState, ms: seq<MessageSummary>): ChatState
    decreases |ms|
  {
    if ms == [] then s else Replay(ChatReducer(s, MessageReceived(ms[0])), ms[1..])
  }

  lemma {:induction false} ReplayKeeps(s: ChatState, ms: seq<MessageSummary>)
    requires KeysOk(s)
    ensures Replay(s, ms).(conversations := map[]) == s.(conversations := map[])
    ensures forall id :: id in Replay(s, ms).conversations <==> id in s.conversations || exists m :: m in ms && m.conversationId == id
    decreases |ms|
  {
    if ms != [] {
      ReplayKeeps(ChatReducer(s, MessageReceived(ms[0])), ms[1..]);
      assert ms == [ms[0]] + ms[1..];
    }
  }

  lemma PushKeepsMatch(s: ChatState, convs: map<string, Conversation>, m: MessageSummary, self: string)
    requires s.userId == Some(self) && KeysOk(s) && ZeroUnread(s.conversations) == ZeroUnread(convs)
    requires m.conversationId in convs
    ensures ZeroUnread(ChatReducer(s, MessageReceived(m)).conversations) == ZeroUnread(PushMessage(convs, m, self))
    ensures PushMessage(convs, m, self).Keys == convs.Keys
  {
    var id := m.conversationId;
    assert ZeroUnread(s.conversations).Keys == s.conversations.Keys && ZeroUnread(convs).Keys == convs.Keys;
    assert ZeroUnread(s.conversations)[id] == ZeroUnread(convs)[id];
    var line := MessageFromSummary(m, self);
    OnMessageAt(s, m, self);
    ZeroUnreadWith(s.conversations, id, Noted(s.conversations[id], line, UnreadAfter(s, m)));
    ZeroUnreadWith(convs, id, Noted(convs[id], line, convs[id].unreadCount));
    assert PushMessage(convs, m, self) == convs[id := Noted(convs[id], line, convs[id].unreadCount)];
  }

  lemma ZeroUnreadWith(convs: map<string, Conversation>, id: string, c: Conversation)
    ensures ZeroUnread(convs[id := c]) == ZeroUnread(convs)[id := c.(unreadCount := 0)]
  {
  }

  lemma {:induction false} PushMatchesReplay(s: ChatState, convs: map<string, Conversation>, ms: seq<MessageSummary>, self: string)
    requires s.userId == Some(self) && KeysOk(s) && ZeroUnread(s.conversations) == ZeroUnread(convs)
    requires forall m :: m in ms ==> m.conversationId in convs
    ensures ZeroUnread(Replay(s, ms).conversations) == ZeroUnread(PushMessages(convs, ms, self))
    decreases |ms|
  {
    if ms != [] {
      PushKeepsMatch(s, convs, ms[0], self);
      PushMatchesReplay(ChatReducer(s, MessageReceived(ms[0])), PushMessage(convs, ms[0], self), ms[1..], self);
    }
  }

  /** READY with a history is READY without one followed by the messages one by one, up to unread counters,
      exactly when every message's conversation is listed. */
  lemma SnapshotEqualsReplay(s: ChatState, a: ChatAction)
    requires a.ReadyAction? && ActionOk(a)
    ensures var start := ChatReducer(s, a.(messages := []));
            SameButUnread(ChatReducer(s, a), Replay(start, a.messages)) <==>
            forall m :: m in a.messages ==> m.conversationId in start.conversations
  {
    var start := ChatReducer(s, a.(messages := []));
    var convs := ListedConversations(a.users, a.conversations, a.userId);
    FillConversationsOk(map[PUBLIC_CONVERSATION_ID := PublicConversation(UserIds(a.users))], a.conversations, a.userId);
    assert start.conversations == convs;
    PushMessagesOk(convs, a.messages, a.userId);
    ReplayKeeps(start, a.messages);
    if forall m :: m in a.messages ==> m.conversationId in convs {
      PushMatchesReplay(start, convs, a.messages, a.userId);
    } else {
      var m :| m in a.messages && m.conversationId !in convs;
      assert m.conversationId in ZeroUnread(Replay(start, a.messages).conversations);
      assert m.conversationId !in ZeroUnread(ChatReducer(s, a).conversations);
    }
  }

  // What READY shows of the history.

  function LinesOf(ms: seq<MessageSummary>, id: string, self: string): seq<Message> {
    if ms == [] then []
    else
      var rest := LinesOf(ms[1..], id, self);
      if ms[0].conversationId == id then [MessageFromSummary(ms[0], self)] + rest else rest
  }

  lemma {:induction false} PushedLines(convs: map<string, Conversation>, ms: seq<MessageSummary>, self: string, id: string)
    requires id in convs
    ensures id in PushMessages(convs, ms, self)
    ensures PushMessages(convs, ms, self)[id] == convs[id].(messages := convs[id].messages + LinesOf(ms, id, self))
    decreases |ms|
  {
    if ms != [] {
      var next := PushMessage(convs, ms[0], self);
      PushedLines(next, ms[1..], self, id);
      assert next[id].messages + LinesOf(ms[1..], id, self) == convs[id].messages + LinesOf(ms, id, self);
    }
  }

  /** After READY each conversation that is listed holds exactly its own messages, in the order of the history. */
  lemma ReadyShowsTheHistory(s: ChatState, a: ChatAction, id: string)
    requires a.ReadyAction? && ActionOk(a)
    ensures var convs := ChatReducer(s, a).conversations;
            && (id in convs <==> id == PUBLIC_CONVERSATION_ID || exists i :: 0 <= i < |a.conversations| && a.conversations[i].id == id)
            && (id in convs ==> convs[id].messages == LinesOf(a.messages, id, a.userId))
  {
    var convs := ListedConversations(a.users, a.conversations, a.userId);
    FillConversationsOk(map[PUBLIC_CONVERSATION_ID := PublicConversation(UserIds(a.users))], a.conversations, a.userId);
    PushMessagesOk(convs, a.messages, a.userId);
    if id in convs {
      PushedLines(convs, a.messages, a.userId, id);
      FilledEmpty(map[PUBLIC_CONVERSATION_ID := PublicConversation(UserIds(a.users))], a.conversations, a.userId);
      assert convs[id].messages + LinesOf(a.messages, id, a.userId) == LinesOf(a.messages, id, a.userId);
    }
  }

  lemma {:induction false} FilledEmpty(convs: map<string, Conversation>, cs: seq<ConversationSummary>, self: string)
    requires forall id :: id in convs ==> convs[id].messages == []
    ensures forall id :: id in FillConversations(convs, cs, self) ==> FillConversations(convs, cs, self)[id].messages == []
    decreases |cs|
  {
    if cs != [] {
      FilledEmpty(if cs[0].id == PUBLIC_CONVERSATION_ID then convs else convs[cs[0].id := ConversationFromSummary(cs[0], self)], cs[1..], self);
    }
  }
}
