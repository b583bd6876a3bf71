/** The gateway: sessions, the live roster, routing, and what each event does to them. */
module Gateway {
  import opened Text
  import opened ClientProtocol
  import opened BackendLines
  import D = Database

  type Id = D.Id
  type Sock = nat

  /** A browser's WebSocket: whether it is OPEN, and everything written to it. */
  datatype Socket = Socket(open: bool, sent: seq<ServerMessage>)

  datatype BackendStatus = NoBackend | BackendConnecting | BackendOpen | BackendClosed

  /** A session's own connection to the C++ server and the lines sent on it. */
  datatype Backend = Backend(status: BackendStatus, lines: seq<string>)

  /** What was ever queued and what was replayed from the queue. */
  datatype QueueLog = QueueLog(queued: seq<ClientMessage>, replayed: seq<ClientMessage>)

  datatype Session = Session(
    id: Id, authenticated: bool, nickname: string, desired: Option<string>,
    readyAnnounced: bool, presence: Presence, welcomed: bool, closed: bool,
    pending: seq<ClientMessage>, ws: Socket, backend: Backend, authsInFlight: nat, log: QueueLog)

  /** `order` holds the keys of `byId` as a JavaScript Map iterates them. Fresh ids come from `supply`. */
  datatype Gateway = Gateway(
    sessions: map<Sock, Session>, order: seq<Id>, byId: map<Id, Sock>,
    db: D.Tables, now: nat, supply: nat)

  function EmptyGateway(): Gateway {
    Gateway(map[], [], map[], D.EmptyTables(), 0, 0)
  }

  function NewSession(placeholder: string): Session {
    Session("pending:" + placeholder, false, "", None, false, Online, false, false, [],
            Socket(true, []), Backend(NoBackend, []), 0, QueueLog([], []))
  }

  // The roster.

  function RosterSet(g: Gateway, id: Id, s: Sock): Gateway {
    g.(order := if id in g.byId then g.order else g.order + [id], byId := g.byId[id := s])
  }

  function RosterDelete(g: Gateway, id: Id): Gateway {
    g.(order := Without(g.order, id), byId := g.byId - {id})
  }

  /** Some live session of that id has its WELCOME. */
  predicate Welcomed(g: Gateway, id: Id) {
    id in g.byId && g.byId[id] in g.sessions && g.sessions[g.byId[id]].welcomed
  }

  function SummaryOf(x: Session): UserSummary { UserSummary(x.id, x.nickname, x.presence) }

  function WelcomedUsers(g: Gateway, ids: seq<Id>): seq<UserSummary>
    decreases |ids|
  {
    if ids == [] then []
    else
      var rest := WelcomedUsers(g, ids[1..]);
      if Welcomed(g, ids[0]) then [SummaryOf(g.sessions[g.byId[ids[0]]])] + rest else rest
  }

  function FindByNickname(g: Gateway, ids: seq<Id>, nickname: string): Option<Id>
    decreases |ids|
  {
    if ids == [] then None
    else if Welcomed(g, ids[0]) && g.sessions[g.byId[ids[0]]].nickname == nickname then Some(g.sessions[g.byId[ids[0]]].id)
    else FindByNickname(g, ids[1..], nickname)
  }

  // Sending.

  function Write(x: Session, m: ServerMessage): Session {
    if x.ws.open then x.(ws := x.ws.(sent := x.ws.sent + [m])) else x
  }

  function SendLine(x: Session, line: string): Session {
    if x.backend.status == BackendOpen then x.(backend := x.backend.(lines := x.backend.lines + [line])) else x
  }

  function CloseSocket(x: Session): Session { x.(ws := x.ws.(open := false)) }

  function BackendGone(x: Session): Session { x.(backend := x.backend.(status := BackendClosed)) }

  /** Told why, then closed by the gateway. */
  function Dismissed(x: Session, m: ServerMessage): Session { CloseSocket(Write(x, m)) }

  function With(g: Gateway, s: Sock, x: Session): Gateway { g.(sessions := g.sessions[s := x]) }

  function SendTo(g: Gateway, s: Sock, m: ServerMessage): Gateway {
    if s in g.sessions then With(g, s, Write(g.sessions[s], m)) else g
  }

  function SendMany(g: Gateway, targets: seq<Sock>, m: ServerMessage): Gateway
    decreases |targets|
  {
    if targets == [] then g else SendMany(SendTo(g, targets[0], m), targets[1..], m)
  }

  function Line(g: Gateway, s: Sock, line: string): Gateway {
    if s in g.sessions then With(g, s, SendLine(g.sessions[s], line)) else g
  }

  /** The welcomed sessions of the roster in order, but for one id. */
  function Recipients(g: Gateway, ids: seq<Id>, exclude: Option<Id>): seq<Sock>
    decreases |ids|
  {
    if ids == [] then []
    else
      var rest := Recipients(g, ids[1..], exclude);
      if Welcomed(g, ids[0]) && exclude != Some(g.sessions[g.byId[ids[0]]].id) then [g.byId[ids[0]]] + rest else rest
  }

  function Broadcast(g: Gateway, m: ServerMessage, exclude: Option<Id>): Gateway {
    SendMany(g, Recipients(g, g.order, exclude), m)
  }

  /** The live sessions of some ids, in order. */
  function SocksOf(g: Gateway, ids: seq<Id>): seq<Sock>
    decreases |ids|
  {
    if ids == [] then []
    else
      var rest := SocksOf(g, ids[1..]);
      if ids[0] in g.byId then [g.byId[ids[0]]] + rest else rest
  }

  lemma {:induction false} SameSocks(g: Gateway, g': Gateway, ids: seq<Id>)
    requires g.byId == g'.byId
    ensures SocksOf(g, ids) == SocksOf(g', ids)
    decreases |ids|
  {
    if ids != [] { SameSocks(g, g', ids[1..]); }
  }

  function ErrorOf(code: string, text: string): ServerMessage { ErrorMessage(code, text, None) }

  function LoginFailed(): ServerMessage { ErrorOf("LOGIN_FAILED", "This account appears to be connected elsewhere already. Try again shortly.") }
  function BackendDisconnected(): ServerMessage { ErrorOf("BACKEND_DISCONNECTED", "Lost connection to the ThreadLink server.") }
  function BackendUnavailable(): ServerMessage { ErrorOf("BACKEND_UNAVAILABLE", "Could not reach the ThreadLink server.") }
  function AlreadyLoggedIn(): ServerMessage { ErrorOf("ALREADY_LOGGED_IN", "This account is already connected elsewhere.") }

  // Requests of ready clients.

  /** [...new Set(ids)] */
  function Distinct(ids: seq<Id>): (r: seq<Id>)
    ensures forall x :: x in r <==> x in ids
    ensures forall i, j :: 0 <= i < j < |r| ==> r[i] != r[j]
    decreases |ids|
  {
    if ids == [] then []
    else
      var front := Distinct(ids[..|ids| - 1]);
      var last := ids[|ids| - 1];
      assert ids == ids[..|ids| - 1] + [last];
      if last in front then front else front + [last]
  }

  function NotWelcomed(g: Gateway, ids: seq<Id>): seq<Id>
    decreases |ids|
  {
    if ids == [] then []
    else
      var rest := NotWelcomed(g, ids[1..]);
      if Welcomed(g, ids[0]) then rest else [ids[0]] + rest
  }

  function Joined(parts: seq<string>): string {
    if parts == [] then "" else if |parts| == 1 then parts[0] else parts[0] + ", " + Joined(parts[1..])
  }

  function UnknownMembers(ids: seq<Id>): ServerMessage {
    ErrorOf("UNKNOWN_MEMBER", "Unknown or offline user id(s): " + Joined(ids))
  }

  /** A new group of these users, announced to each of them that is live. */
  function MakeGroup(g: Gateway, name: string, ids: seq<Id>): Gateway {
    var uuid := Decimal(g.supply);
    SendMany(g.(db := D.InsertGroup(g.db, uuid, name, ids), supply := g.supply + 1), SocksOf(g, ids),
             ConversationCreated(ConversationSummary(D.GroupId(uuid), GroupKind, name, ids)))
  }

  function HandleCreateGroup(g: Gateway, s: Sock, name: string, memberIds: seq<Id>): Gateway
    requires s in g.sessions
  {
    var ids := Distinct([g.sessions[s].id] + memberIds);
    var unknown := NotWelcomed(g, ids);
    if unknown != [] then
      SendTo(g, s, UnknownMembers(unknown))
    else MakeGroup(g, name, ids)
  }

  /** The stored form of a text that this session sends now. */
  function Outgoing(g: Gateway, x: Session, conversation: string, text: string): MessageSummary {
    MessageSummary(Decimal(g.supply), conversation, ChatMessage, Some(x.id), Some(x.nickname), text, g.now)
  }

  function Store(g: Gateway, m: MessageSummary): Gateway {
    g.(db := D.Append(g.db, m), supply := g.supply + 1)
  }

  function SendPublic(g: Gateway, s: Sock, text: string): Gateway
    requires s in g.sessions
  {
    var own := Outgoing(g, g.sessions[s], PUBLIC_CONVERSATION_ID, text);
    Line(SendTo(Store(g, own), s, NewMessage(own)), s, FormatChatLine(text))
  }

  /** Persists and forwards a private text; a new conversation is announced to both sides first. */
  function DirectTo(g: Gateway, s: Sock, peer: Sock, text: string): Gateway
    requires s in g.sessions && peer in g.sessions
  {
    var x, target := g.sessions[s], g.sessions[peer];
    var conversation := D.DirectSummary(x.id, target.id);
    var isNew := !D.HasDirect(g.db, conversation.id);
    var g1 := g.(db := D.EnsureDirect(g.db, x.id, target.id));
    var g2 := if isNew then SendTo(SendTo(g1, s, ConversationCreated(conversation)), peer, ConversationCreated(conversation)) else g1;
    Line(Store(g2, Outgoing(g, x, conversation.id, text)), s, FormatMsgCommand(target.nickname, text))
  }

  function SendDirect(g: Gateway, s: Sock, peerId: Id, text: string): Gateway
    requires s in g.sessions
  {
    if Welcomed(g, peerId) then DirectTo(g, s, g.byId[peerId], text)
    else
      SendTo(g, s, ErrorMessage("USER_NOT_FOUND", "That user is not currently online.",
                                Some(D.DirectConversationId(g.sessions[s].id, peerId))))
  }

  predicate MayPost(g: Gateway, id: Id, group: string) {
    group in g.db.conversations && g.db.conversations[group].kind == GroupKind && D.IsMember(g.db, group, id)
  }

  function SendGroup(g: Gateway, s: Sock, group: string, text: string): Gateway
    requires s in g.sessions
  {
    var x := g.sessions[s];
    if !MayPost(g, x.id, group) then
      SendTo(g, s, ErrorMessage("NOT_A_MEMBER", "You are not a member of that group.", Some(group)))
    else
      var m := Outgoing(g, x, group, text);
      SendMany(Store(g, m), SocksOf(g, D.MemberList(g.db.members, group)), NewMessage(m))
  }

  function ReadyFor(g: Gateway, x: Session): ServerMessage {
    var users := WelcomedUsers(g, g.order);
    Ready(x.id, x.nickname, users,
          [ConversationSummary(PUBLIC_CONVERSATION_ID, PublicKind, "Public Chat", UserIds(users))] + D.ConversationsFor(g.db, x.id),
          D.HistoryForUser(g.db, x.id))
  }

  function SendReady(g: Gateway, s: Sock): Gateway
    requires s in g.sessions
  {
    SendTo(g, s, ReadyFor(g, g.sessions[s]))
  }

  function SetPresenceOf(g: Gateway, s: Sock, presence: Presence): Gateway
    requires s in g.sessions
  {
    var x := g.sessions[s].(presence := presence);
    Broadcast(With(g, s, x), UserUpdate(SummaryOf(x)), None)
  }

  function HandleClientMessage(g: Gateway, s: Sock, m: ClientMessage): Gateway
    requires s in g.sessions
  {
    match m
    case SetNickname(nickname) => Line(g, s, FormatNickCommand(nickname))
    case SetPresence(presence) => SetPresenceOf(g, s, presence)
    case RequestState => SendReady(g, s)
    case CreateGroup(name, memberIds) => HandleCreateGroup(g, s, name, memberIds)
    case SendMessage(target, text) =>
      match target
      case ToPublic => SendPublic(g, s, text)
      case ToDirect(peerId) => SendDirect(g, s, peerId, text)
      case ToGroup(group) => SendGroup(g, s, group, text)
  }

  // Becoming ready.

  /** Starts one queued message. */
  function ReplayOne(g: Gateway, s: Sock, m: ClientMessage): Gateway
    requires s in g.sessions
  {
    var x := g.sessions[s];
    HandleClientMessage(With(g, s, x.(log := x.log.(replayed := x.log.replayed + [m]))), s, m)
  }

  /** Handles queued messages one after the other. */
  function Replay(g: Gateway, s: Sock, ms: seq<ClientMessage>): Gateway
    decreases |ms|
  {
    if ms == [] || s !in g.sessions then g else Replay(ReplayOne(g, s, ms[0]), s, ms[1..])
  }

  /** The `ready` snapshot, and the news to everyone else. */
  function Announce(g: Gateway, s: Sock): Gateway
    requires s in g.sessions
  {
    var x := g.sessions[s].(readyAnnounced := true);
    Broadcast(SendReady(With(g, s, x), s), UserUpdate(SummaryOf(x)), Some(x.id))
  }

  function AnnounceReady(g: Gateway, s: Sock): Gateway
    requires s in g.sessions
  {
    var announced := Announce(g, s);
    if s in announced.sessions then
      var x := announced.sessions[s];
      Replay(With(announced, s, x.(pending := [])), s, x.pending)
    else announced
  }

  // Backend events.

  /** The account's own username, while the server knows the session by another. */
  function Claim(x: Session): Option<string> {
    if x.desired.Some? && x.desired.value != "" && x.desired.value != x.nickname then x.desired else None
  }

  function OnWelcome(g: Gateway, s: Sock, nickname: string): Gateway
    requires s in g.sessions
  {
    var x := g.sessions[s].(welcomed := true, nickname := nickname);
    var greeted := With(g, s, x);
    if Claim(x).Some? then Line(greeted, s, FormatNickCommand(Claim(x).value)) else AnnounceReady(greeted, s)
  }

  function Renamed(x: Session, newNick: string): Session {
    x.(nickname := newNick, desired := if x.desired == Some(newNick) then None else x.desired)
  }

  function OnNick(g: Gateway, s: Sock, oldNick: string, newNick: string): Gateway
    requires s in g.sessions
  {
    var x := g.sessions[s];
    if oldNick != x.nickname then g
    else
      var now := Renamed(x, newNick);
      if !x.readyAnnounced then AnnounceReady(With(g, s, now), s)
      else
        var told := Broadcast(With(g, s, now), UserUpdate(SummaryOf(now)), None);
        told.(db := told.db.(users := D.Rename(told.db.users, x.id, newNick)))
  }

  /** Passes a text on to one browser, under a fresh id. */
  function Relay(g: Gateway, s: Sock, conversation: string, from: Option<Id>, sender: string, text: string): Gateway {
    SendTo(g.(supply := g.supply + 1), s,
           NewMessage(MessageSummary(Decimal(g.supply), conversation, ChatMessage, from, Some(sender), text, g.now)))
  }

  function OnMsg(g: Gateway, s: Sock, sender: string, text: string): Gateway {
    Relay(g, s, PUBLIC_CONVERSATION_ID, FindByNickname(g, g.order, sender), sender, text)
  }

  function OrName(found: Option<Id>, name: string): Id {
    if found.Some? then found.value else name
  }

  function Converse(g: Gateway, a: Id, b: Id): Gateway { g.(db := D.EnsureDirect(g.db, a, b)) }

  /** A private text, inside the pair's conversation. */
  function RelayPrivate(g: Gateway, s: Sock, self: Id, peer: Id, from: Option<Id>, sender: string, text: string): Gateway {
    Relay(Converse(g, self, peer), s, D.DirectConversationId(self, peer), from, sender, text)
  }

  function OnPriv(g: Gateway, s: Sock, sender: string, text: string): Gateway
    requires s in g.sessions
  {
    var x := g.sessions[s];
    var from := FindByNickname(g, g.order, sender);
    var peer := OrName(from, sender);
    RelayPrivate(g, s, x.id, peer, from, sender, text)
  }

  function OnPrivSent(g: Gateway, s: Sock, recipient: string, text: string): Gateway
    requires s in g.sessions
  {
    var x := g.sessions[s];
    var peer := OrName(FindByNickname(g, g.order, recipient), recipient);
    RelayPrivate(g, s, x.id, peer, Some(x.id), x.nickname, text)
  }

  function OnErr(g: Gateway, s: Sock, code: string, text: string): Gateway
    requires s in g.sessions
  {
    var x := g.sessions[s];
    if !x.readyAnnounced && code == "NICK_TAKEN" then
      With(g, s, Dismissed(x, LoginFailed()))
    else SendTo(g, s, ErrorOf(code, text))
  }

  function OnBackendEvent(g: Gateway, s: Sock, e: BackendEvent): Gateway
    requires s in g.sessions
  {
    match e
    case Welcome(nickname) => OnWelcome(g, s, nickname)
    case Nick(oldNick, newNick) => OnNick(g, s, oldNick, newNick)
    case Msg(sender, text) => OnMsg(g, s, sender, text)
    case Priv(sender, text) => OnPriv(g, s, sender, text)
    case PrivSent(recipient, text) => OnPrivSent(g, s, recipient, text)
    case Err(code, text) => OnErr(g, s, code, text)
    case Sys(_) => g
    case Listing(_, _) => g
    case Unknown(_) => g
  }

  // Connection lifecycle.

  /** A session that is in no roster yet. */
  function OnConnection(g: Gateway, s: Sock): Gateway {
    With(g.(supply := g.supply + 1), s, NewSession(Decimal(g.supply)))
  }

  function OnBackendConnected(g: Gateway, s: Sock): Gateway
    requires s in g.sessions
  {
    With(g, s, g.sessions[s].(backend := g.sessions[s].backend.(status := BackendOpen)))
  }

  function OnBackendClosed(g: Gateway, s: Sock): Gateway
    requires s in g.sessions
  {
    var x := g.sessions[s];
    var lost := BackendGone(x);
    With(g, s, if x.closed then lost
               else Dismissed(lost, BackendDisconnected()))
  }

  function Closed(x: Session): Session {
    var quiet := x.(closed := true, ws := x.ws.(open := false));
    if x.authenticated && !x.closed then BackendGone(quiet) else quiet
  }

  function OnClientClosed(g: Gateway, s: Sock): Gateway
    requires s in g.sessions
  {
    var x := g.sessions[s];
    var shut := With(g, s, Closed(x));
    if x.closed || !x.authenticated then shut
    else
      var removed := RosterDelete(shut, x.id);
      if x.welcomed then Broadcast(removed, UserOffline(x.id), Some(x.id)) else removed
  }

  function OnClientMessage(g: Gateway, s: Sock, m: ClientMessage): Gateway
    requires s in g.sessions
  {
    var x := g.sessions[s];
    if !x.authenticated || !x.welcomed
    then With(g, s, x.(pending := x.pending + [m], log := x.log.(queued := x.log.queued + [m])))
    else HandleClientMessage(g, s, m)
  }

  // Authentication: a request, the end of the key derivation, the end of the connect.

  datatype Account = Account(id: Id, username: string)

  datatype AuthOutcome = Accepted(account: Account) | Refused(code: string, text: string)

  function OnAuthRequest(g: Gateway, s: Sock): Gateway
    requires s in g.sessions
  {
    var x := g.sessions[s];
    if x.authenticated then SendTo(g, s, ErrorOf("ALREADY_AUTHENTICATED", "Already logged in."))
    else With(g, s, x.(authsInFlight := x.authsInFlight + 1))
  }

  function Authenticated(x: Session, account: Account): Session {
    x.(id := account.id, authenticated := true, desired := Some(account.username), backend := Backend(BackendConnecting, []))
  }

  predicate HeldElsewhere(g: Gateway, id: Id) {
    id in g.byId && g.byId[id] in g.sessions && !g.sessions[g.byId[id]].closed
  }

  function OnAuthOutcome(g: Gateway, s: Sock, outcome: AuthOutcome): Gateway
    requires s in g.sessions && g.sessions[s].authsInFlight > 0
  {
    var x := g.sessions[s].(authsInFlight := g.sessions[s].authsInFlight - 1);
    match outcome
    case Refused(code, text) => With(g, s, Write(x, ErrorOf(code, text)))
    case Accepted(account) =>
      var stored := g.(db := g.db.(users := D.Register(g.db.users, account.id, account.username)));
      if HeldElsewhere(stored, account.id) then
        With(stored, s, Write(x, AlreadyLoggedIn()))
      else
        RosterSet(With(stored, s, Authenticated(x, account)), account.id, s)
  }

  function OnBackendRefused(g: Gateway, s: Sock): Gateway
    requires s in g.sessions
  {
    var x := g.sessions[s];
    RosterDelete(With(g, s, BackendGone(Dismissed(x, BackendUnavailable()))), x.id)
  }

  function OnLogout(g: Gateway, s: Sock): Gateway
    requires s in g.sessions
  {
    var x := g.sessions[s];
    if !x.authenticated then SendTo(g, s, ErrorOf("NOT_AUTHENTICATED", "Not logged in."))
    else With(g, s, Dismissed(x, LoggedOut))
  }

  // Events.

  datatype Event =
    | Tick(time: nat)
    | Opened(sock: Sock)
    | AuthRequested(sock: Sock)
    | AuthDone(sock: Sock, outcome: AuthOutcome)
    | BackendConnected(sock: Sock)
    | BackendRefused(sock: Sock)
    | BackendSays(sock: Sock, said: BackendEvent)
    | BackendLost(sock: Sock)
    | ClientSays(sock: Sock, message: ClientMessage)
    | ClientMalformed(sock: Sock, code: string, text: string)
    | LogoutRequested(sock: Sock)
    | SocketClosed(sock: Sock)

  predicate HasBackend(g: Gateway, s: Sock, status: BackendStatus) {
    s in g.sessions && g.sessions[s].backend.status == status
  }

  /** When the environment can raise an event: a closed WebSocket says nothing more, and a backend speaks while its
      connection is open, first its one WELCOME or a refusal. */
  predicate Enabled(g: Gateway, e: Event) {
    match e
    case Tick(time) => g.now <= time
    case Opened(s) => s !in g.sessions
    case AuthDone(s, _) => s in g.sessions && g.sessions[s].authsInFlight > 0
    case BackendConnected(s) => HasBackend(g, s, BackendConnecting)
    case BackendRefused(s) => HasBackend(g, s, BackendConnecting)
    case BackendSays(s, said) =>
      HasBackend(g, s, BackendOpen) && if g.sessions[s].welcomed then !said.Welcome? else said.Welcome? || said.Err?
    case BackendLost(s) => HasBackend(g, s, BackendOpen)
    case AuthRequested(s) => s in g.sessions && !g.sessions[s].closed
    case ClientSays(s, _) => s in g.sessions && !g.sessions[s].closed
    case ClientMalformed(s, _, _) => s in g.sessions && !g.sessions[s].closed
    case LogoutRequested(s) => s in g.sessions && !g.sessions[s].closed
    case SocketClosed(s) => s in g.sessions && !g.sessions[s].closed
  }

  function Handle(g: Gateway, e: Event): Gateway
    requires Enabled(g, e)
  {
    match e
    case Tick(time) => g.(now := time)
    case Opened(s) => OnConnection(g, s)
    case AuthRequested(s) => OnAuthRequest(g, s)
    case AuthDone(s, outcome) => OnAuthOutcome(g, s, outcome)
    case BackendConnected(s) => OnBackendConnected(g, s)
    case BackendRefused(s) => OnBackendRefused(g, s)
    case BackendSays(s, said) => OnBackendEvent(g, s, said)
    case BackendLost(s) => OnBackendClosed(g, s)
    case ClientSays(s, message) => OnClientMessage(g, s, message)
    case ClientMalformed(s, code, text) => SendTo(g, s, ErrorOf(code, text))
    case LogoutRequested(s) => OnLogout(g, s)
    case SocketClosed(s) => OnClientClosed(g, s)
  }

  // Runs.

  /** What the outside world supplies: account ids without ':' and never empty, nicknames the server accepts. */
  predicate Supplied(e: Event) {
    match e
    case AuthDone(_, Accepted(account)) => ColonFree(account.id) && account.id != "" && ValidNickname(account.username)
    case BackendSays(_, Priv(sender, _)) => ColonFree(sender)
    case BackendSays(_, PrivSent(recipient, _)) => ColonFree(recipient)
    case _ => true
  }

  /** The roster leads from this session's id to this session. */
  predicate InRoster(g: Gateway, s: Sock)
    requires s in g.sessions
  {
    g.sessions[s].id in g.byId && g.byId[g.sessions[s].id] == s
  }

  /** Closed by the gateway, without a backend, and never welcomed: nobody hears of this session any more. */
  predicate Silent(x: Session) { !x.ws.open && !x.welcomed && x.backend.status == BackendClosed }

  /** A login that would be let in finds its socket neither closed nor logged in already, and a socket that closes does
      not take another session's place in the roster with it. Both can be tested where they happen. */
  predicate Orderly(g: Gateway, e: Event)
    requires Enabled(g, e)
  {
    match e
    case AuthDone(s, Accepted(account)) => HeldElsewhere(g, account.id) || (!g.sessions[s].closed && !InRoster(g, s))
    case SocketClosed(s) =>
      var x := g.sessions[s];
      x.authenticated && x.id in g.byId ==> g.byId[x.id] in g.sessions && (InRoster(g, s) || Silent(g.sessions[g.byId[x.id]]))
    case _ => true
  }

  ghost predicate Step(g: Gateway, e: Event, g': Gateway) {
    Enabled(g, e) && Supplied(e) && g' == Handle(g, e)
  }

  ghost predicate Run(gs: seq<Gateway>, es: seq<Event>) {
    && |gs| == |es| + 1 && gs[0] == EmptyGateway()
    && forall i {:trigger es[i]} :: 0 <= i < |es| ==> Step(gs[i], es[i], gs[i + 1])
  }

  ghost predicate OrderlyRun(gs: seq<Gateway>, es: seq<Event>) {
    Run(gs, es) && forall i {:trigger es[i]} :: 0 <= i < |es| ==> Enabled(gs[i], es[i]) && Orderly(gs[i], es[i])
  }
}
