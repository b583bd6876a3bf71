/** The gateway as it runs: session objects that handlers update in place, a roster and a store they share. Every
    handler is proved to do what the functions of Gateway say. */
module GatewayServer {
  import opened Text
  import opened ClientProtocol
  import opened BackendLines
  import opened Sessions
  import opened Stores
  import D = Database
  import G = Gateway

  lemma RecipientsStep(g: G.Gateway, ids: seq<D.Id>, i: nat, exclude: Option<D.Id>, m: ServerMessage, x: G.Session)
    requires i < |ids| && ids[i] in g.byId && g.byId[ids[i]] in g.sessions && x == g.sessions[g.byId[ids[i]]]
    ensures var s := g.byId[ids[i]];
            G.SendMany(g, G.Recipients(g, ids[i..], exclude), m) ==
              if x.welcomed && exclude != Some(x.id)
              then var g' := G.SendTo(g, s, m); G.SendMany(g', G.Recipients(g', ids[i + 1..], exclude), m)
              else G.SendMany(g, G.Recipients(g, ids[i + 1..], exclude), m)
  {
    var s := g.byId[ids[i]];
    assert ids[i..][1..] == ids[i + 1..];
    SameRecipients(g, s, m, ids[i + 1..], exclude);
    var rest := G.Recipients(g, ids[i + 1..], exclude);
    if x.welcomed && exclude != Some(x.id) {
      assert ([s] + rest)[1..] == rest;
    }
  }

  lemma {:induction false} SameRecipients(g: G.Gateway, s: G.Sock, m: ServerMessage, ids: seq<D.Id>, exclude: Option<D.Id>)
    ensures G.Recipients(G.SendTo(g, s, m), ids, exclude) == G.Recipients(g, ids, exclude)
    decreases |ids|
  {
    if ids != [] {
      SameRecipients(g, s, m, ids[1..], exclude);
      SameStanding(g, s, m, ids[0]);
    }
  }

  lemma SameStanding(g: G.Gateway, s: G.Sock, m: ServerMessage, id: D.Id)
    ensures G.Welcomed(G.SendTo(g, s, m), id) <==> G.Welcomed(g, id)
    ensures G.Welcomed(g, id) ==> G.SendTo(g, s, m).sessions[g.byId[id]].id == g.sessions[g.byId[id]].id
  {
  }

  lemma SocksStep(g: G.Gateway, ids: seq<D.Id>, i: nat, m: ServerMessage)
    requires i < |ids|
    ensures G.SendMany(g, G.SocksOf(g, ids[i..]), m) ==
              if ids[i] in g.byId
              then var g' := G.SendTo(g, g.byId[ids[i]], m); G.SendMany(g', G.SocksOf(g', ids[i + 1..]), m)
              else G.SendMany(g, G.SocksOf(g, ids[i + 1..]), m)
  {
    assert ids[i..][1..] == ids[i + 1..];
    var rest := G.SocksOf(g, ids[i + 1..]);
    if ids[i] in g.byId {
      assert ([g.byId[ids[i]]] + rest)[1..] == rest;
      G.SameSocks(g, G.SendTo(g, g.byId[ids[i]], m), ids[i + 1..]);
    }
  }

  lemma AnnounceParts(g: G.Gateway, s: G.Sock, marked: G.Gateway, told: G.Gateway)
    requires s in g.sessions
    requires marked == G.With(g, s, g.sessions[s].(readyAnnounced := true)) && told == G.SendReady(marked, s)
    ensures var card := G.SummaryOf(g.sessions[s].(readyAnnounced := true));
            G.Announce(g, s) == G.Broadcast(told, UserUpdate(card), Some(card.id))
  {
  }

  lemma EventIsOwn(g: G.Gateway, s: G.Sock, e: BackendEvent)
    requires s in g.sessions
    ensures e.Welcome? ==> G.OnBackendEvent(g, s, e) == G.OnWelcome(g, s, e.nickname)
    ensures e.Nick? ==> G.OnBackendEvent(g, s, e) == G.OnNick(g, s, e.oldNick, e.newNick)
    ensures e.Err? ==> G.OnBackendEvent(g, s, e) == G.OnErr(g, s, e.code, e.text)
  {
  }

  lemma EventIsRelayed(g: G.Gateway, s: G.Sock, e: BackendEvent)
    requires s in g.sessions
    ensures e.Msg? ==> G.OnBackendEvent(g, s, e) == G.OnMsg(g, s, e.sender, e.text)
    ensures e.Priv? ==> G.OnBackendEvent(g, s, e) == G.OnPriv(g, s, e.sender, e.text)
    ensures e.PrivSent? ==> G.OnBackendEvent(g, s, e) == G.OnPrivSent(g, s, e.recipient, e.text)
    ensures e.Sys? || e.Listing? || e.Unknown? ==> G.OnBackendEvent(g, s, e) == g
  {
  }

  /** Let in, or turned away because the account is held elsewhere. */
  function Settled(g: G.Gateway, s: G.Sock, account: G.Account): G.Gateway
    requires s in g.sessions && g.sessions[s].authsInFlight > 0
  {
    var x := g.sessions[s].(authsInFlight := g.sessions[s].authsInFlight - 1);
    if G.HeldElsewhere(g, account.id) then G.With(g, s, G.Write(x, G.AlreadyLoggedIn()))
    else G.RosterSet(G.With(g, s, G.Authenticated(x, account)), account.id, s)
  }

  function Registered(g: G.Gateway, account: G.Account): G.Gateway {
    g.(db := g.db.(users := D.Register(g.db.users, account.id, account.username)))
  }

  lemma AcceptedIs(g: G.Gateway, s: G.Sock, account: G.Account)
    requires s in g.sessions && g.sessions[s].authsInFlight > 0
    ensures G.OnAuthOutcome(g, s, G.Accepted(account)) == Settled(Registered(g, account), s, account)
  {
  }

  lemma NotWelcomedStep(unknown: seq<D.Id>, g: G.Gateway, ids: seq<D.Id>, i: nat)
    requires i < |ids|
    ensures (if G.Welcomed(g, ids[i]) then unknown else unknown + [ids[i]]) + G.NotWelcomed(g, ids[i + 1..])
         == unknown + G.NotWelcomed(g, ids[i..])
  {
    assert ids[i..][1..] == ids[i + 1..];
  }

  class GatewayServer {
    const sessions: SessionManager
    const db: Db
    const conversations: ConversationManager
    const messages: MessageStore
    const users: UserStore
    var now: nat
    var supply: nat
    ghost var live: map<G.Sock, Session>

    ghost predicate Valid()
      reads this, sessions, db
    {
      && sessions.Valid()
      && (forall s :: s in live ==> live[s].sock == s)
      && (forall id :: id in sessions.byId ==> Known(sessions.byId[id]))
      && conversations.db == db && messages.db == db && users.db == db && D.NamesUnique(db.users)
    }

    ghost predicate Known(session: Session)
      reads this
    {
      session.sock in live && live[session.sock] == session
    }

    /** Everything the objects hold, as a value. */
    ghost function State(): G.Gateway
      reads this, sessions, db, live.Values
    {
      G.Gateway(map s | s in live :: live[s].Value(), sessions.order,
                map id | id in sessions.byId :: sessions.byId[id].sock, db.State(), now, supply)
    }

    constructor ()
      ensures Valid() && State() == G.EmptyGateway()
    {
      var db := new Db();
      this.db := db;
      sessions := new SessionManager();
      conversations := new ConversationManager(db);
      messages := new MessageStore(db);
      users := new UserStore(db);
      now, supply, live := 0, 0, map[];
    }

    method Tick(time: nat)
      requires Valid() && now <= time
      modifies this`now
      ensures Valid() && State() == old(State()).(now := time)
    {
      now := time;
    }

    /** When one session object changed and nothing else did since `was`. */
    lemma Touched(was: G.Gateway, session: Session, x: G.Session)
      requires Valid() && Known(session) && x == session.Value()
      requires was.sessions.Keys == live.Keys
      requires forall s :: s in live && s != session.sock ==> live[s].Value() == was.sessions[s]
      requires RosterAndStore(was)
      ensures State() == G.With(was, session.sock, x)
    {
    }

    /** When only the database and the id supply changed since `was`. */
    lemma Stored(was: G.Gateway)
      requires Valid() && was.sessions == State().sessions && was.order == State().order
      requires was.byId == State().byId && was.now == now
      ensures State() == was.(db := db.State(), supply := supply)
    {
    }

    /** When only the roster changed since `was`, by one entry. */
    lemma Rostered(was: G.Gateway, entries: map<D.Id, Session>, session: Session)
      requires Valid() && State().sessions == was.sessions
      requires was.byId == (map id | id in entries :: entries[id].sock) && sessions.byId == entries[session.id := session]
      requires sessions.order == (if session.id in entries then was.order else was.order + [session.id])
      requires db.State() == was.db && now == was.now && supply == was.supply
      ensures State() == G.RosterSet(was, session.id, session.sock)
    {
      var byId := was.byId[session.id := session.sock];
      assert was.byId.Keys == entries.Keys;
      assert forall id :: id in State().byId <==> id in sessions.byId;
      forall id ensures id in State().byId <==> id in byId {
        assert id in sessions.byId <==> id == session.id || id in entries;
      }
      forall id | id in byId ensures State().byId[id] == byId[id] {
        if id == session.id { assert sessions.byId[id] == session; }
        else { assert sessions.byId[id] == entries[id] && was.byId[id] == entries[id].sock; }
      }
      assert State().byId == byId;
    }

    /** When only the roster changed since `was`, by losing one entry. */
    lemma Unrostered(was: G.Gateway, entries: map<D.Id, Session>, id: D.Id)
      requires Valid() && State().sessions == was.sessions
      requires was.byId == (map k | k in entries :: entries[k].sock) && sessions.byId == entries - {id}
      requires sessions.order == Without(was.order, id)
      requires db.State() == was.db && now == was.now && supply == was.supply
      ensures State() == G.RosterDelete(was, id)
    {
      var byId := was.byId - {id};
      assert was.byId.Keys == entries.Keys;
      forall k ensures k in State().byId <==> k in byId {
        assert k in sessions.byId <==> k in entries && k != id;
      }
      forall k | k in byId ensures State().byId[k] == byId[k] {
        assert sessions.byId[k] == entries[k] && was.byId[k] == entries[k].sock;
      }
      assert State().byId == byId;
    }

    lemma SameSessions(was: map<G.Sock, G.Session>)
      requires Valid() && was.Keys == live.Keys && forall s :: s in live ==> live[s].Value() == was[s]
      ensures State().sessions == was
    {
    }

    /** When a WebSocket was added since `was`. */
    lemma Arrived(was: G.Gateway, before: map<G.Sock, Session>, session: Session)
      requires Valid() && live == before[session.sock := session] && session.sock !in before
      requires was.sessions.Keys == before.Keys && forall s :: s in before ==> before[s].Value() == was.sessions[s]
      requires State().order == was.order && State().byId == was.byId && db.State() == was.db && now == was.now
      ensures State() == G.With(was.(supply := supply), session.sock, session.Value())
    {
    }

    ghost predicate RosterAndStore(was: G.Gateway)
      reads this, sessions, db, live.Values
    {
      && State().order == was.order && State().byId == was.byId && State().db == was.db
      && State().now == was.now && State().supply == was.supply
    }

    lemma Seen(session: Session)
      requires Valid() && Known(session)
      ensures session.sock in State().sessions && State().sessions[session.sock] == session.Value()
    {
    }

    lemma Mirrored()
      requires Valid()
      ensures State().order == sessions.order && sessions.Mirrors(State())
    {
    }

    lemma InRoster(id: D.Id, session: Session)
      requires Valid() && id in sessions.byId && session == sessions.byId[id]
      ensures Known(session) && id in State().byId && State().byId[id] == session.sock
      ensures session.sock in State().sessions && State().sessions[session.sock] == session.Value()
    {
    }

    /** What `get` finds is what the state shows. */
    lemma Standing(id: D.Id, member: Session?)
      requires Valid() && member == if id in sessions.byId then sessions.byId[id] else null
      ensures G.Welcomed(State(), id) <==> member != null && member.welcomed
      ensures member != null ==> Known(member) && id in State().byId && State().byId[id] == member.sock
    {
      if member != null { InRoster(id, member); }
    }

    lemma NotWelcomedAt(unknown: seq<D.Id>, ids: seq<D.Id>, i: nat, member: Session?)
      requires Valid() && i < |ids| && member == if ids[i] in sessions.byId then sessions.byId[ids[i]] else null
      ensures (if member != null && member.welcomed then unknown else unknown + [ids[i]]) + G.NotWelcomed(State(), ids[i + 1..])
           == unknown + G.NotWelcomed(State(), ids[i..])
    {
      Standing(ids[i], member);
      NotWelcomedStep(unknown, State(), ids, i);
    }

    /** The state after the rest of a broadcast, from position i of the roster on. */
    ghost function Untold(g: G.Gateway, i: nat, m: ServerMessage, exclude: Option<D.Id>): G.Gateway
      reads sessions
      requires i <= |sessions.order|
    {
      G.SendMany(g, G.Recipients(g, sessions.order[i..], exclude), m)
    }

    lemma BroadcastStep(i: nat, session: Session, m: ServerMessage, exclude: Option<D.Id>)
      requires Valid() && i < |sessions.order| && session == sessions.byId[sessions.order[i]]
      ensures Known(session)
      ensures var g := State();
              Untold(g, i, m, exclude) ==
                Untold(if session.welcomed && exclude != Some(session.id) then G.SendTo(g, session.sock, m) else g, i + 1, m, exclude)
    {
      InRoster(sessions.order[i], session);
      RecipientsStep(State(), sessions.order, i, exclude, m, session.Value());
    }

    // Sending.

    method SendTo(session: Session, m: ServerMessage)
      requires Valid() && Known(session)
      modifies session`sent
      ensures Valid()
      ensures State() == G.SendTo(old(State()), session.sock, m)
    {
      ghost var was := State();
      session.Send(m);
      Touched(was, session, session.Value());
    }

    method SendLine(session: Session, line: string)
      requires Valid() && Known(session)
      modifies session`lines
      ensures Valid() && State() == G.Line(old(State()), session.sock, line)
    {
      ghost var was := State();
      session.SendLine(line);
      Touched(was, session, session.Value());
    }

    method BroadcastToAll(m: ServerMessage, exclude: Option<D.Id>)
      requires Valid()
      modifies live.Values`sent
      ensures Valid() && State() == G.Broadcast(old(State()), m, exclude)
    {
      ghost var told := G.Broadcast(State(), m, exclude);
      var all := sessions.All();
      for i := 0 to |all|
        invariant Valid()
        invariant Untold(State(), i, m, exclude) == told
      {
        var session := all[i];
        BroadcastStep(i, session, m, exclude);
        if exclude == Some(session.id) { continue; }
        if !session.welcomed { continue; }
        SendTo(session, m);
      }
      assert sessions.order[|all|..] == [];
    }

    /** Sends to the live sessions of some ids. */
    method SendToIds(ids: seq<D.Id>, m: ServerMessage)
      requires Valid()
      modifies live.Values`sent
      ensures Valid()
      ensures State() == G.SendMany(old(State()), G.SocksOf(old(State()), ids), m)
    {
      for i := 0 to |ids|
        invariant Valid()
        invariant G.SendMany(State(), G.SocksOf(State(), ids[i..]), m) == G.SendMany(old(State()), G.SocksOf(old(State()), ids), m)
      {
        SocksStep(State(), ids, i, m);
        var member := sessions.Get(ids[i]);
        if member != null {
          InRoster(ids[i], member);
          SendTo(member, m);
        }
      }
      assert ids[|ids|..] == [];
    }

    // Requests of ready clients.

    method HandleCreateGroup(session: Session, name: string, memberIds: seq<D.Id>)
      requires Valid() && Known(session)
      modifies this`supply, db, live.Values`sent
      ensures Valid()
      ensures State() == G.HandleCreateGroup(old(State()), session.sock, name, memberIds)
    {
      Seen(session);
      ghost var was := State();
      var uniqueIds := G.Distinct([session.id] + memberIds);
      var unknown := NotWelcomed(uniqueIds);
      assert State() == was && unknown == G.NotWelcomed(was, uniqueIds);
      if unknown != [] {
        SendTo(session, G.UnknownMembers(unknown));
        return;
      }
      MakeGroup(name, uniqueIds);
    }

    method MakeGroup(name: string, ids: seq<D.Id>)
      requires Valid()
      modifies this`supply, db, live.Values`sent
      ensures Valid()
      ensures State() == G.MakeGroup(old(State()), name, ids)
    {
      ghost var was := State();
      var conversation := InsertGroup(name, ids);
      G.SameSocks(was, State(), ids);
      SendToIds(ids, ConversationCreated(conversation));
    }

    method InsertGroup(name: string, ids: seq<D.Id>) returns (conversation: ConversationSummary)
      requires Valid()
      modifies this`supply, db
      ensures Valid()
      ensures conversation == ConversationSummary(D.GroupId(Decimal(old(supply))), GroupKind, name, ids)
      ensures var was := old(State());
              State() == was.(db := D.InsertGroup(was.db, Decimal(was.supply), name, ids), supply := was.supply + 1)
    {
      ghost var was := State();
      conversation := conversations.CreateGroup(Decimal(supply), name, ids);
      supply := supply + 1;
      Stored(was);
    }

    /** Which of these ids have no welcomed session. */
    method NotWelcomed(ids: seq<D.Id>) returns (unknown: seq<D.Id>)
      requires Valid()
      ensures unknown == G.NotWelcomed(State(), ids)
    {
      unknown := [];
      for i := 0 to |ids|
        invariant unknown + G.NotWelcomed(State(), ids[i..]) == G.NotWelcomed(State(), ids)
      {
        var member := sessions.Get(ids[i]);
        NotWelcomedAt(unknown, ids, i, member);
        if member == null || !member.welcomed { unknown := unknown + [ids[i]]; }
      }
      assert ids[|ids|..] == [];
    }

    /** Stores a text of this session. */
    method Store(session: Session, conversation: string, text: string) returns (m: MessageSummary)
      requires Valid() && Known(session)
      modifies this`supply, db
      ensures Valid()
      ensures m == G.Outgoing(old(State()), session.Value(), conversation, text)
      ensures State() == G.Store(old(State()), m)
    {
      ghost var was := State();
      m := messages.Append(MessageSummary(Decimal(supply), conversation, ChatMessage, Some(session.id), Some(session.nickname), text, now));
      supply := supply + 1;
      Stored(was);
    }

    method HandleSendMessage(session: Session, target: MessageTarget, text: string)
      requires Valid() && Known(session)
      modifies this`supply, db, live.Values`sent, live.Values`lines
      ensures Valid()
      ensures State() == G.HandleClientMessage(old(State()), session.sock, SendMessage(target, text))
    {
      match target
      case ToPublic => SendPublic(session, text);
      case ToDirect(peerId) => SendDirect(session, peerId, text);
      case ToGroup(group) => SendGroup(session, group, text);
    }

    method SendPublic(session: Session, text: string)
      requires Valid() && Known(session)
      modifies this`supply, db, session`sent, session`lines
      ensures Valid()
      ensures State() == G.SendPublic(old(State()), session.sock, text)
    {
      Seen(session);
      var own := Store(session, PUBLIC_CONVERSATION_ID, text);
      SendTo(session, NewMessage(own));
      SendLine(session, FormatChatLine(text));
    }

    method SendDirect(session: Session, peerId: D.Id, text: string)
      requires Valid() && Known(session)
      modifies this`supply, db, live.Values`sent, live.Values`lines
      ensures Valid()
      ensures State() == G.SendDirect(old(State()), session.sock, peerId, text)
    {
      Seen(session);
      var peer := sessions.Get(peerId);
      Standing(peerId, peer);
      if peer == null || !peer.welcomed {
        SendTo(session, ErrorMessage("USER_NOT_FOUND", "That user is not currently online.", Some(D.DirectConversationId(session.id, peerId))));
        return;
      }
      DirectTo(session, peer, text);
    }

    method DirectTo(session: Session, peer: Session, text: string)
      requires Valid() && Known(session) && Known(peer)
      modifies this`supply, db, session`sent, peer`sent, session`lines
      ensures Valid() && session.sock in old(State()).sessions && peer.sock in old(State()).sessions
      ensures State() == G.DirectTo(old(State()), session.sock, peer.sock, text)
    {
      Seen(session);
      Seen(peer);
      var conversation := Introduce(session, peer);
      var m := Store(session, conversation.id, text);
      SendLine(session, FormatMsgCommand(peer.nickname, text));
    }

    /** The pair's conversation; both sides hear of it if it is new. */
    method Introduce(session: Session, peer: Session) returns (conversation: ConversationSummary)
      requires Valid() && Known(session) && Known(peer)
      modifies db, session`sent, peer`sent
      ensures Valid() && conversation == D.DirectSummary(session.id, peer.id)
      ensures var was := old(State());
              var ensured := was.(db := D.EnsureDirect(was.db, session.id, peer.id));
              State() == if D.HasDirect(was.db, conversation.id) then ensured
                         else G.SendTo(G.SendTo(ensured, session.sock, ConversationCreated(conversation)), peer.sock, ConversationCreated(conversation))
    {
      ghost var was := State();
      var isNew := !conversations.HasDirect(D.DirectConversationId(session.id, peer.id));
      conversation := conversations.EnsureDirect(session.id, peer.id);
      Stored(was);
      assert State() == was.(db := D.EnsureDirect(was.db, session.id, peer.id));
      if isNew {
        SendTo(session, ConversationCreated(conversation));
        SendTo(peer, ConversationCreated(conversation));
      }
    }

    method SendGroup(session: Session, groupId: string, text: string)
      requires Valid() && Known(session)
      modifies this`supply, db, live.Values`sent
      ensures Valid()
      ensures State() == G.SendGroup(old(State()), session.sock, groupId, text)
    {
      Seen(session);
      ghost var was := State();
      var group := conversations.GetGroup(groupId);
      assert State() == was && (group.Some? && session.id in group.value.memberIds <==> G.MayPost(was, session.id, groupId));
      if group.None? || session.id !in group.value.memberIds {
        SendTo(session, ErrorMessage("NOT_A_MEMBER", "You are not a member of that group.", Some(groupId)));
        return;
      }
      PostToGroup(session, group.value.id, group.value.memberIds, text);
    }

    /** Stores a member's text and fans it out. */
    method PostToGroup(session: Session, group: string, members: seq<D.Id>, text: string)
      requires Valid() && Known(session)
      modifies this`supply, db, live.Values`sent
      ensures Valid()
      ensures var was := old(State());
              var m := G.Outgoing(was, old(session.Value()), group, text);
              State() == G.SendMany(G.Store(was, m), G.SocksOf(was, members), NewMessage(m))
    {
      ghost var was := State();
      var summary := Store(session, group, text);
      G.SameSocks(was, State(), members);
      SendToIds(members, NewMessage(summary));
    }

    method SetPresence(session: Session, presence: Presence)
      requires Valid() && Known(session)
      modifies session`presence, live.Values`sent
      ensures Valid() && session.sock in old(State()).sessions
      ensures State() == G.SetPresenceOf(old(State()), session.sock, presence)
    {
      var card := ChangePresence(session, presence);
      BroadcastToAll(UserUpdate(card), None);
    }

    method ChangePresence(session: Session, presence: Presence) returns (card: UserSummary)
      requires Valid() && Known(session)
      modifies session`presence
      ensures Valid() && session.sock in old(State()).sessions && session.sock in State().sessions
      ensures var x := old(State()).sessions[session.sock].(presence := presence);
              card == G.SummaryOf(x) && State() == G.With(old(State()), session.sock, x)
    {
      Seen(session);
      ghost var was := State();
      session.presence := presence;
      Touched(was, session, session.Value());
      card := session.Summarize();
    }

    method Online() returns (online: seq<UserSummary>)
      requires Valid()
      ensures online == G.WelcomedUsers(State(), State().order) && State() == old(State())
    {
      Mirrored();
      online := sessions.WelcomedUsers(State());
    }

    method Restored(id: D.Id) returns (summaries: seq<ConversationSummary>, history: seq<MessageSummary>)
      requires Valid()
      ensures summaries == D.ConversationsFor(State().db, id) && history == D.HistoryForUser(State().db, id)
      ensures State() == old(State())
    {
      summaries := conversations.ConversationsFor(id);
      history := messages.HistoryForUser(id);
    }

    /** The roster, the user's conversations and the history. */
    method Snapshot(session: Session) returns (ready: ServerMessage)
      requires Valid() && Known(session)
      ensures ready == G.ReadyFor(State(), session.Value())
      ensures State() == old(State())
    {
      var online := Online();
      var summaries, history := Restored(session.id);
      var public := ConversationSummary(PUBLIC_CONVERSATION_ID, PublicKind, "Public Chat", UserIds(online));
      ready := Ready(session.id, session.nickname, online, [public] + summaries, history);
    }

    method SendReady(session: Session)
      requires Valid() && Known(session)
      modifies session`sent
      ensures Valid() && session.sock in old(State()).sessions
      ensures State() == G.SendReady(old(State()), session.sock)
    {
      Seen(session);
      var ready := Snapshot(session);
      SendTo(session, ready);
    }

    method HandleClientMessage(session: Session, message: ClientMessage)
      requires Valid() && Known(session)
      modifies this`supply, db, live.Values`sent, live.Values`lines, session`presence
      ensures Valid() && session.sock in old(State()).sessions
      ensures State() == G.HandleClientMessage(old(State()), session.sock, message)
    {
      Seen(session);
      match message
      case SetNickname(nickname) => SendLine(session, FormatNickCommand(nickname));
      case SetPresence(presence) => SetPresence(session, presence);
      case RequestState => SendReady(session);
      case CreateGroup(name, memberIds) => HandleCreateGroup(session, name, memberIds);
      case SendMessage(target, text) => HandleSendMessage(session, target, text);
    }

    // Becoming ready.

    /** Sends the snapshot, tells the others, then starts what was queued, in order. */
    method AnnounceReady(session: Session)
      requires Valid() && Known(session)
      modifies this`supply, db, live.Values
      ensures Valid() && session.sock in old(State()).sessions
      ensures State() == G.AnnounceReady(old(State()), session.sock)
    {
      Announce(session);
      var queue := Drain(session);
      ReplayAll(session, queue);
    }

    method ReplayAll(session: Session, queue: seq<ClientMessage>)
      requires Valid() && Known(session)
      modifies this`supply, db, live.Values`sent, live.Values`lines, session`presence, session`replayed
      ensures Valid()
      ensures State() == G.Replay(old(State()), session.sock, queue)
    {
      ghost var done := G.Replay(State(), session.sock, queue);
      for i := 0 to |queue|
        invariant Valid() && Known(session)
        invariant G.Replay(State(), session.sock, queue[i..]) == done
      {
        ReplayStep(session, queue, i);
        Replay(session, queue[i]);
      }
      assert queue[|queue|..] == [];
    }

    method Drain(session: Session) returns (queue: seq<ClientMessage>)
      requires Valid() && Known(session)
      modifies session`pending
      ensures Valid() && session.sock in old(State()).sessions
      ensures var x := old(State()).sessions[session.sock];
              queue == x.pending && State() == G.With(old(State()), session.sock, x.(pending := []))
    {
      Seen(session);
      ghost var was := State();
      queue := session.DrainQueue();
      Touched(was, session, session.Value());
    }

    method Announce(session: Session)
      requires Valid() && Known(session)
      modifies live.Values`sent, session`readyAnnounced
      ensures Valid() && session.sock in old(State()).sessions
      ensures State() == G.Announce(old(State()), session.sock)
    {
      ghost var was := State();
      var card := MarkReady(session);
      ghost var marked := State();
      SendReady(session);
      ghost var told := State();
      BroadcastToAll(UserUpdate(card), Some(card.id));
      AnnounceParts(was, session.sock, marked, told);
    }

    method MarkReady(session: Session) returns (card: UserSummary)
      requires Valid() && Known(session)
      modifies session`readyAnnounced
      ensures Valid() && session.sock in old(State()).sessions && session.sock in State().sessions
      ensures var x := old(State()).sessions[session.sock].(readyAnnounced := true);
              card == G.SummaryOf(x) && State() == G.With(old(State()), session.sock, x)
    {
      Seen(session);
      ghost var was := State();
      session.readyAnnounced := true;
      Touched(was, session, session.Value());
      card := session.Summarize();
    }

    lemma ReplayStep(session: Session, queue: seq<ClientMessage>, i: nat)
      requires Valid() && Known(session) && i < |queue| && session.sock in State().sessions
      ensures G.Replay(State(), session.sock, queue[i..]) ==
              G.Replay(G.ReplayOne(State(), session.sock, queue[i]), session.sock, queue[i + 1..])
    {
      assert queue[i..][1..] == queue[i + 1..];
    }

    /** Starts one queued message. */
    method Replay(session: Session, message: ClientMessage)
      requires Valid() && Known(session)
      modifies this`supply, db, live.Values`sent, live.Values`lines, session`presence, session`replayed
      ensures Valid() && session.sock in old(State()).sessions
      ensures State() == G.ReplayOne(old(State()), session.sock, message)
    {
      Seen(session);
      ghost var was := State();
      session.replayed := session.replayed + [message];
      Touched(was, session, session.Value());
      HandleClientMessage(session, message);
    }

    // Backend events.

    method OnBackendEvent(session: Session, event: BackendEvent)
      requires Valid() && Known(session)
      modifies this`supply, db, live.Values
      ensures Valid() && session.sock in old(State()).sessions
      ensures State() == G.OnBackendEvent(old(State()), session.sock, event)
    {
      Seen(session);
      ghost var goal := G.OnBackendEvent(State(), session.sock, event);
      EventIsOwn(State(), session.sock, event);
      if event.Welcome? { OnWelcome(session, event.nickname); }
      else if event.Nick? { OnNick(session, event.oldNick, event.newNick); }
      else if event.Err? { OnErr(session, event.code, event.text); }
      else { OnRelayed(session, event); }
      assert State() == goal;
    }

    /** Texts are passed on; SYS, LIST and unknown lines are not. */
    method OnRelayed(session: Session, event: BackendEvent)
      requires Valid() && Known(session) && !event.Welcome? && !event.Nick? && !event.Err?
      modifies this`supply, db, session`sent
      ensures Valid() && session.sock in old(State()).sessions
      ensures State() == G.OnBackendEvent(old(State()), session.sock, event)
    {
      Seen(session);
      ghost var goal := G.OnBackendEvent(State(), session.sock, event);
      EventIsRelayed(State(), session.sock, event);
      if event.Msg? { OnMsg(session, event.sender, event.text); }
      else if event.Priv? { OnPriv(session, event.sender, event.text); }
      else if event.PrivSent? { OnPrivSent(session, event.recipient, event.text); }
      assert State() == goal;
    }

    method OnWelcome(session: Session, nickname: string)
      requires Valid() && Known(session)
      modifies this`supply, db, live.Values
      ensures Valid() && session.sock in old(State()).sessions
      ensures State() == G.OnWelcome(old(State()), session.sock, nickname)
    {
      var claim := MarkWelcomed(session, nickname);
      if claim.Some? { SendLine(session, FormatNickCommand(claim.value)); }
      else { AnnounceReady(session); }
    }

    /** Records the server's name for the session; answers with the account's own name if that is another. */
    method MarkWelcomed(session: Session, nickname: string) returns (claim: Option<string>)
      requires Valid() && Known(session)
      modifies session`welcomed, session`nickname
      ensures Valid() && session.sock in old(State()).sessions
      ensures var x := old(State()).sessions[session.sock].(welcomed := true, nickname := nickname);
              claim == G.Claim(x) && State() == G.With(old(State()), session.sock, x)
    {
      Seen(session);
      ghost var was := State();
      session.welcomed := true;
      session.nickname := nickname;
      Touched(was, session, session.Value());
      var desired := session.desiredUsername;
      claim := if desired.Some? && desired.value != "" && desired.value != nickname then desired else None;
    }

    method OnNick(session: Session, oldNick: string, newNick: string)
      requires Valid() && Known(session)
      modifies this`supply, db, live.Values
      ensures Valid() && session.sock in old(State()).sessions
      ensures State() == G.OnNick(old(State()), session.sock, oldNick, newNick)
    {
      Seen(session);
      if oldNick != session.nickname { return; }
      var card := TakeNickname(session, newNick);
      Seen(session);
      if !session.readyAnnounced {
        AnnounceReady(session);
      } else {
        BroadcastToAll(UserUpdate(card), None);
        RenameAccount(card.id, newNick);
      }
    }

    method TakeNickname(session: Session, newNick: string) returns (card: UserSummary)
      requires Valid() && Known(session)
      modifies session`nickname, session`desiredUsername
      ensures Valid() && session.sock in old(State()).sessions
      ensures var x := G.Renamed(old(State()).sessions[session.sock], newNick);
              card == G.SummaryOf(x) && State() == G.With(old(State()), session.sock, x)
    {
      Seen(session);
      ghost var was := State();
      session.TakeNickname(newNick);
      Touched(was, session, session.Value());
      card := session.Summarize();
    }

    method RenameAccount(id: D.Id, name: string)
      requires Valid()
      modifies db`users
      ensures Valid()
      ensures State() == old(State()).(db := old(State()).db.(users := D.Rename(old(State()).db.users, id, name)))
    {
      ghost var was := State();
      users.Rename(id, name);
      Stored(was);
    }

    method OnMsg(session: Session, sender: string, text: string)
      requires Valid() && Known(session)
      modifies this`supply, session`sent
      ensures Valid()
      ensures State() == G.OnMsg(old(State()), session.sock, sender, text)
    {
      var from := UserNamed(sender);
      Relay(session, PUBLIC_CONVERSATION_ID, from, sender, text);
    }

    /** The id of the welcomed session with that nickname. */
    method UserNamed(nickname: string) returns (id: Option<D.Id>)
      requires Valid()
      ensures id == G.FindByNickname(State(), State().order, nickname)
      ensures State() == old(State())
    {
      Mirrored();
      var session := sessions.FindByNickname(nickname, State());
      id := if session == null then None else Some(session.id);
    }

    method Relay(session: Session, conversation: string, from: Option<D.Id>, sender: string, text: string)
      requires Valid() && Known(session)
      modifies this`supply, session`sent
      ensures Valid()
      ensures State() == G.Relay(old(State()), session.sock, conversation, from, sender, text)
    {
      var id := Decimal(supply);
      ghost var was := State();
      supply := supply + 1;
      Stored(was);
      SendTo(session, NewMessage(MessageSummary(id, conversation, ChatMessage, from, Some(sender), text, now)));
    }

    method Converse(a: D.Id, b: D.Id) returns (id: string)
      requires Valid()
      modifies db
      ensures Valid() && id == D.DirectConversationId(a, b)
      ensures State() == G.Converse(old(State()), a, b)
    {
      ghost var was := State();
      var conversation := conversations.EnsureDirect(a, b);
      Stored(was);
      id := conversation.id;
    }

    /** Relays a private text inside the pair's conversation. */
    method RelayPrivate(session: Session, self: D.Id, peer: D.Id, from: Option<D.Id>, sender: string, text: string)
      requires Valid() && Known(session)
      modifies this`supply, db, session`sent
      ensures Valid()
      ensures State() == G.RelayPrivate(old(State()), session.sock, self, peer, from, sender, text)
    {
      var conversation := Converse(self, peer);
      Relay(session, conversation, from, sender, text);
    }

    method OnPriv(session: Session, sender: string, text: string)
      requires Valid() && Known(session)
      modifies this`supply, db, session`sent
      ensures Valid() && session.sock in old(State()).sessions
      ensures State() == G.OnPriv(old(State()), session.sock, sender, text)
    {
      Seen(session);
      var from := UserNamed(sender);
      RelayPrivate(session, session.id, G.OrName(from, sender), from, sender, text);
    }

    method OnPrivSent(session: Session, recipient: string, text: string)
      requires Valid() && Known(session)
      modifies this`supply, db, session`sent
      ensures Valid() && session.sock in old(State()).sessions
      ensures State() == G.OnPrivSent(old(State()), session.sock, recipient, text)
    {
      Seen(session);
      var to := UserNamed(recipient);
      RelayPrivate(session, session.id, G.OrName(to, recipient), Some(session.id), session.nickname, text);
    }

    method OnErr(session: Session, code: string, text: string)
      requires Valid() && Known(session)
      modifies session`sent, session`open
      ensures Valid() && session.sock in old(State()).sessions
      ensures State() == G.OnErr(old(State()), session.sock, code, text)
    {
      Seen(session);
      if !session.readyAnnounced && code == "NICK_TAKEN" {
        Dismiss(session, G.LoginFailed());
        return;
      }
      SendTo(session, G.ErrorOf(code, text));
    }

    /** Tells a session why, then closes its WebSocket. */
    method Dismiss(session: Session, m: ServerMessage)
      requires Valid() && Known(session)
      modifies session`sent, session`open
      ensures Valid() && session.sock in old(State()).sessions
      ensures State() == G.With(old(State()), session.sock, G.Dismissed(old(State()).sessions[session.sock], m))
    {
      Seen(session);
      ghost var was := State();
      session.Dismiss(m);
      Touched(was, session, session.Value());
    }

    // Connection lifecycle.

    /** A WebSocket opens: it joins no roster yet. */
    method OnConnection(sock: G.Sock) returns (session: Session)
      requires Valid() && sock !in live
      modifies this`supply, this`live
      ensures Valid() && fresh(session) && Known(session) && session.sock == sock
      ensures State() == G.OnConnection(old(State()), sock)
    {
      ghost var was, before := State(), live;
      session := new Session(sock, Decimal(supply));
      supply := supply + 1;
      live := live[sock := session];
      Arrived(was, before, session);
    }

    method OnClientClosed(session: Session)
      requires Valid() && Known(session)
      modifies sessions, live.Values
      ensures Valid() && session.sock in old(State()).sessions
      ensures State() == G.OnClientClosed(old(State()), session.sock)
    {
      Seen(session);
      var leaves := Close(session);
      if !leaves { return; }
      RemoveFromRoster(session.id);
      if session.welcomed { BroadcastToAll(UserOffline(session.id), Some(session.id)); }
    }

    /** The socket's own part of closing; says whether the session was live. */
    method Close(session: Session) returns (leaves: bool)
      requires Valid() && Known(session)
      modifies session`closed, session`open, session`backend
      ensures Valid() && session.sock in old(State()).sessions && session.id == old(State()).sessions[session.sock].id
      ensures var x := old(State()).sessions[session.sock];
              leaves == (!x.closed && x.authenticated) && State() == G.With(old(State()), session.sock, G.Closed(x))
    {
      Seen(session);
      ghost var was := State();
      leaves := !session.closed && session.authenticated;
      session.Close();
      Touched(was, session, session.Value());
    }

    method RemoveFromRoster(id: D.Id)
      requires Valid()
      modifies sessions
      ensures Valid() && State() == G.RosterDelete(old(State()), id)
    {
      ghost var was, entries := State(), sessions.byId;
      sessions.Remove(id);
      SameSessions(was.sessions);
      Unrostered(was, entries, id);
    }

    method OnBackendClosed(session: Session)
      requires Valid() && Known(session)
      modifies session`backend, session`sent, session`open
      ensures Valid() && session.sock in old(State()).sessions
      ensures State() == G.OnBackendClosed(old(State()), session.sock)
    {
      Seen(session);
      ghost var was := State();
      session.LoseBackend();
      if !session.closed { session.Dismiss(G.BackendDisconnected()); }
      Touched(was, session, session.Value());
    }

    // Messages from browsers.

    method OnClientMessage(session: Session, message: ClientMessage)
      requires Valid() && Known(session)
      modifies this`supply, db, live.Values
      ensures Valid() && session.sock in old(State()).sessions
      ensures State() == G.OnClientMessage(old(State()), session.sock, message)
    {
      Seen(session);
      if !session.authenticated || !session.welcomed {
        ghost var was := State();
        session.QueueUntilReady(message);
        Touched(was, session, session.Value());
        return;
      }
      HandleClientMessage(session, message);
    }

    method HandleLogout(session: Session)
      requires Valid() && Known(session)
      modifies session`sent, session`open
      ensures Valid() && session.sock in old(State()).sessions
      ensures State() == G.OnLogout(old(State()), session.sock)
    {
      Seen(session);
      if !session.authenticated {
        SendTo(session, G.ErrorOf("NOT_AUTHENTICATED", "Not logged in."));
        return;
      }
      Dismiss(session, LoggedOut);
    }

    // Authentication: up to the key derivation, after it, and after a failed connect.

    method RequestAuth(session: Session)
      requires Valid() && Known(session)
      modifies session`sent, session`authsInFlight
      ensures Valid() && session.sock in old(State()).sessions
      ensures State() == G.OnAuthRequest(old(State()), session.sock)
    {
      Seen(session);
      if session.authenticated {
        SendTo(session, G.ErrorOf("ALREADY_AUTHENTICATED", "Already logged in."));
        return;
      }
      ghost var was := State();
      session.authsInFlight := session.authsInFlight + 1;
      Touched(was, session, session.Value());
    }

    method FinishAuth(session: Session, outcome: G.AuthOutcome)
      requires Valid() && Known(session) && session.authsInFlight > 0
      modifies sessions, db`users, session
      ensures Valid() && session.sock in old(State()).sessions && old(State()).sessions[session.sock].authsInFlight > 0
      ensures State() == G.OnAuthOutcome(old(State()), session.sock, outcome)
    {
      Seen(session);
      if outcome.Accepted? { AcceptedIs(State(), session.sock, outcome.account); }
      if outcome.Refused? { AuthEnded(session, G.ErrorOf(outcome.code, outcome.text)); }
      else { LogIn(session, outcome.account); }
    }

    method LogIn(session: Session, account: G.Account)
      requires Valid() && Known(session) && session.authsInFlight > 0
      modifies sessions, db`users, session
      ensures Valid() && session.sock in old(State()).sessions && old(State()).sessions[session.sock].authsInFlight > 0
      ensures State() == Settled(Registered(old(State()), account), session.sock, account)
    {
      Seen(session);
      RegisterAccount(account);
      Settle(session, account);
    }

    method Settle(session: Session, account: G.Account)
      requires Valid() && Known(session) && session.authsInFlight > 0
      modifies sessions, session
      ensures Valid() && session.sock in old(State()).sessions && old(State()).sessions[session.sock].authsInFlight > 0
      ensures State() == Settled(old(State()), session.sock, account)
    {
      Seen(session);
      var held := IsHeld(account.id);
      if held { AuthEnded(session, G.AlreadyLoggedIn()); } else { Enter(session, account); }
    }

    method Enter(session: Session, account: G.Account)
      requires Valid() && Known(session) && session.authsInFlight > 0
      modifies sessions, session
      ensures Valid() && session.sock in old(State()).sessions && old(State()).sessions[session.sock].authsInFlight > 0
      ensures var x := old(State()).sessions[session.sock];
              State() == G.RosterSet(G.With(old(State()), session.sock, G.Authenticated(x.(authsInFlight := x.authsInFlight - 1), account)),
                                     account.id, session.sock)
    {
      Authenticate(session, account);
      Join(session);
    }

    /** The account has a session that is not closed. */
    method IsHeld(id: D.Id) returns (held: bool)
      requires Valid()
      ensures held <==> G.HeldElsewhere(State(), id)
      ensures State() == old(State())
    {
      var existing := sessions.Get(id);
      if existing != null { InRoster(id, existing); }
      held := existing != null && !existing.closed;
    }

    method RegisterAccount(account: G.Account)
      requires Valid()
      modifies db`users
      ensures Valid()
      ensures State() == Registered(old(State()), account)
    {
      ghost var was := State();
      users.Register(account.id, account.username);
      Stored(was);
    }

    method AuthEnded(session: Session, m: ServerMessage)
      requires Valid() && Known(session) && session.authsInFlight > 0
      modifies session`sent, session`authsInFlight
      ensures Valid() && session.sock in old(State()).sessions && old(State()).sessions[session.sock].authsInFlight > 0
      ensures var x := old(State()).sessions[session.sock];
              State() == G.With(old(State()), session.sock, G.Write(x.(authsInFlight := x.authsInFlight - 1), m))
    {
      Seen(session);
      ghost var was := State();
      session.AuthAnswered();
      session.Send(m);
      Touched(was, session, session.Value());
    }

    method Authenticate(session: Session, account: G.Account)
      requires Valid() && Known(session) && session.authsInFlight > 0
      modifies session
      ensures Valid() && session.sock in old(State()).sessions && old(State()).sessions[session.sock].authsInFlight > 0
      ensures session.id == account.id
      ensures var x := old(State()).sessions[session.sock];
              State() == G.With(old(State()), session.sock, G.Authenticated(x.(authsInFlight := x.authsInFlight - 1), account))
    {
      Seen(session);
      ghost var was := State();
      session.AuthAnswered();
      session.Authenticate(account);
      Touched(was, session, session.Value());
    }

    method Join(session: Session)
      requires Valid() && Known(session)
      modifies sessions
      ensures Valid() && State() == G.RosterSet(old(State()), session.id, session.sock)
    {
      ghost var was, entries := State(), sessions.byId;
      sessions.Add(session);
      SameSessions(was.sessions);
      Rostered(was, entries, session);
    }

    method BackendConnected(session: Session)
      requires Valid() && Known(session)
      modifies session`backend
      ensures Valid() && session.sock in old(State()).sessions
      ensures State() == G.OnBackendConnected(old(State()), session.sock)
    {
      Seen(session);
      ghost var was := State();
      session.backend := G.BackendOpen;
      Touched(was, session, session.Value());
    }

    method BackendRefused(session: Session)
      requires Valid() && Known(session)
      modifies sessions, session`backend, session`sent, session`open
      ensures Valid() && session.sock in old(State()).sessions
      ensures State() == G.OnBackendRefused(old(State()), session.sock)
    {
      Seen(session);
      ghost var was := State();
      session.Dismiss(G.BackendUnavailable());
      session.LoseBackend();
      Touched(was, session, session.Value());
      RemoveFromRoster(session.id);
    }
  }
}
