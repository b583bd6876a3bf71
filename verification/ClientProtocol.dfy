/** The JSON messages between browser and gateway, after validation. */
module ClientProtocol {
  import opened Text

  const PUBLIC_CONVERSATION_ID := "public"

  datatype Presence = Online | Away | Offline

  datatype MessageTarget = ToPublic | ToDirect(peerId: string) | ToGroup(groupId: string)

  /** Client messages other than register and login, which the authentication steps carry. */
  datatype ClientMessage =
    | SetNickname(nickname: string)
    | SendMessage(target: MessageTarget, text: string)
    | CreateGroup(name: string, memberIds: seq<string>)
    | SetPresence(presence: Presence)
    | RequestState

  datatype UserSummary = UserSummary(id: string, username: string, presence: Presence)

  function UserIds(us: seq<UserSummary>): (ids: seq<string>)
    ensures |ids| == |us|
  {
    seq(|us|, i requires 0 <= i < |us| => us[i].id)
  }

  datatype ConversationKind = PublicKind | DirectKind | GroupKind

  datatype ConversationSummary =
    ConversationSummary(id: string, kind: ConversationKind, title: string, memberIds: seq<string>)

  datatype MessageKind = ChatMessage | SystemMessage

  datatype MessageSummary = MessageSummary(
    id: string, conversationId: string, kind: MessageKind,
    senderId: Option<string>, senderUsername: Option<string>, text: string, timestamp: nat)

  datatype ServerMessage =
    | Ready(userId: string, username: string, users: seq<UserSummary>,
            conversations: seq<ConversationSummary>, messages: seq<MessageSummary>)
    | LoggedOut
    | UserUpdate(user: UserSummary)
    | UserOffline(offlineId: string)
    | ConversationCreated(conversation: ConversationSummary)
    | NewMessage(message: MessageSummary)
    | ErrorMessage(code: string, text: string, conversationId: Option<string>)
}
