/** The gateway's database over every run: what each event keeps, whatever the interleaving. */
module GatewayStores {
  import opened Text
  import opened ClientProtocol
  import opened BackendLines
  import opened Gateway
  import opened GatewayFrames
  import D = Database
  import ChatState
  import ChatStateProofs

  /** Every group's id was drawn from the supply. */
  ghost predicate GroupsDrawn(db: D.Tables, supply: nat) {
    forall id :: id in db.conversations && db.conversations[id].kind == GroupKind ==>
      exists k :: 0 <= k < supply && id == D.GroupId(Decimal(k))
  }

  ghost predicate StoreOk(db: D.Tables, supply: nat, now: nat) {
    D.TablesOk(db) && db.clock <= now && GroupsDrawn(db, supply)
  }

  /** One step of the database. */
  ghost predicate StoreStep(g: Gateway, g': Gateway) {
    StoreOk(g'.db, g'.supply, g'.now) && D.Evolves(g.db, g'.db) && g.supply <= g'.supply && g.now <= g'.now
  }

  ghost predicate StoreReady(g: Gateway) { StoreOk(g.db, g.supply, g.now) }

  /** An id that can stand in a direct conversation's id. */
  predicate PersistentId(id: Id) { ColonFree(id) && id != "" }

  /** Sessions that reach the store have persistent ids. */
  predicate IdOk(x: Session) {
    && (x.welcomed ==> x.authenticated) && (x.readyAnnounced ==> x.welcomed)
    && (x.backend.status != NoBackend ==> x.authenticated)
    && (x.authenticated ==> PersistentId(x.id))
  }

  ghost predicate IdsOk(g: Gateway) {
    forall s :: s in g.sessions ==> IdOk(g.sessions[s])
  }

  lemma UnchangedStore(g: Gateway, g': Gateway)
    requires StoreReady(g) && g'.db.(users := g.db.users) == g.db && g.supply <= g'.supply && g.now <= g'.now
    ensures StoreStep(g, g')
  {
    var db, db' := g.db, g'.db;
    assert db'.members == db.members && db'.conversations == db.conversations && db'.messages == db.messages && db'.clock == db.clock;
    assert D.Evolves(db, db');
    D.KeptConversations(db, db', PUBLIC_CONVERSATION_ID);
    D.KeptMessages(db, db');
  }

  lemma StoreStepTransitive(a: Gateway, b: Gateway, c: Gateway)
    requires StoreStep(a, b) && StoreStep(b, c)
    ensures StoreStep(a, c)
  {
    D.EvolvesTransitive(a.db, b.db, c.db);
  }

  lemma GroupIdsDiffer(j: nat, k: nat)
    requires j != k
    ensures D.GroupId(Decimal(j)) != D.GroupId(Decimal(k))
  {
    DecimalRoundTrip(j);
    DecimalRoundTrip(k);
    if D.GroupId(Decimal(j)) == D.GroupId(Decimal(k)) { SamePrefix("group:", Decimal(j), Decimal(k)); }
  }

  lemma SamePrefix(prefix: string, a: string, b: string)
    requires prefix + a == prefix + b
    ensures a == b
  {
    assert (prefix + a)[|prefix|..] == a && (prefix + b)[|prefix|..] == b;
  }

  lemma FreshGroup(db: D.Tables, supply: nat)
    requires D.TablesOk(db) && GroupsDrawn(db, supply)
    ensures D.GroupId(Decimal(supply)) !in db.conversations
  {
    var id := D.GroupId(Decimal(supply));
    if id in db.conversations {
      NotDirectOrPublic(db, Decimal(supply));
      var k :| 0 <= k < supply && id == D.GroupId(Decimal(k));
      GroupIdsDiffer(k, supply);
    }
  }

  lemma NotDirectOrPublic(db: D.Tables, uuid: string)
    requires D.ConversationsOk(db) && D.GroupId(uuid) in db.conversations
    ensures db.conversations[D.GroupId(uuid)].kind == GroupKind
  {
    var id := D.GroupId(uuid);
    IdsDiffer("", "", uuid);
    if db.conversations[id].kind == DirectKind {
      var a, b :| ColonFree(a) && ColonFree(b) && id == D.DirectConversationId(a, b) && D.Members(db, id) == {a, b};
      IdsDiffer(a, b, uuid);
    }
  }

  lemma InsertGroupStep(g: Gateway, name: string, ids: seq<Id>)
    requires StoreReady(g)
    ensures var db := D.InsertGroup(g.db, Decimal(g.supply), name, ids);
            && StoreStep(g, g.(db := db, supply := g.supply + 1))
            && forall u :: D.IsMember(db, D.GroupId(Decimal(g.supply)), u) <==> u in ids
  {
    FreshGroup(g.db, g.supply);
    D.InsertGroupOk(g.db, Decimal(g.supply), name, ids);
    var db := D.InsertGroup(g.db, Decimal(g.supply), name, ids);
    forall id | id in db.conversations && db.conversations[id].kind == GroupKind
      ensures exists k :: 0 <= k < g.supply + 1 && id == D.GroupId(Decimal(k))
    {
      if id in g.db.conversations {
        var k :| 0 <= k < g.supply && id == D.GroupId(Decimal(k));
        assert 0 <= k < g.supply + 1;
      }
    }
  }

  lemma EnsureDirectStep(g: Gateway, a: Id, b: Id, supply: nat)
    requires StoreReady(g) && ColonFree(a) && ColonFree(b) && g.supply <= supply
    ensures var g' := g.(db := D.EnsureDirect(g.db, a, b), supply := supply);
            && StoreStep(g, g')
            && D.HasDirect(g'.db, D.DirectConversationId(a, b)) && D.Members(g'.db, D.DirectConversationId(a, b)) == {a, b}
  {
    D.EnsureDirectOk(g.db, a, b);
    var db := D.EnsureDirect(g.db, a, b);
    forall id | id in db.conversations && db.conversations[id].kind == GroupKind
      ensures exists k :: 0 <= k < supply && id == D.GroupId(Decimal(k))
    {
      assert id in g.db.conversations;
      var k :| 0 <= k < g.supply && id == D.GroupId(Decimal(k));
      assert 0 <= k < supply;
    }
  }

  lemma AppendStep(g: Gateway, m: MessageSummary)
    requires StoreReady(g) && D.MessageOk(g.db, m) && m.timestamp == g.now
    ensures StoreStep(g, Store(g, m))
    ensures m in Store(g, m).db.messages
  {
    D.AppendOk(g.db, m);
    assert forall id :: id in g.db.conversations && g.db.conversations[id].kind == GroupKind ==>
      exists k :: 0 <= k < g.supply && id == D.GroupId(Decimal(k));
    MoreSupply(g.db, g.supply);
  }

  lemma MoreSupply(db: D.Tables, supply: nat)
    requires GroupsDrawn(db, supply)
    ensures GroupsDrawn(db, supply + 1)
  {
    forall id | id in db.conversations && db.conversations[id].kind == GroupKind
      ensures exists k :: 0 <= k < supply + 1 && id == D.GroupId(Decimal(k))
    {
      var k :| 0 <= k < supply && id == D.GroupId(Decimal(k));
      assert 0 <= k < supply + 1;
    }
  }

  // Requests.

  lemma GroupStore(g: Gateway, name: string, ids: seq<Id>)
    ensures var g' := MakeGroup(g, name, ids);
            g'.db == D.InsertGroup(g.db, Decimal(g.supply), name, ids) && g'.supply == g.supply + 1 && g'.now == g.now
  {
    var uuid := Decimal(g.supply);
    var g1 := g.(db := D.InsertGroup(g.db, uuid, name, ids), supply := g.supply + 1);
    SendManyKeepsStores(g1, SocksOf(g, ids), ConversationCreated(ConversationSummary(D.GroupId(uuid), GroupKind, name, ids)));
  }

  lemma SameStore(g: Gateway, g1: Gateway, g': Gateway)
    requires StoreStep(g, g1) && g'.db == g1.db && g'.supply == g1.supply && g'.now == g1.now
    ensures StoreStep(g, g')
  {
  }

  lemma MakeGroupStores(g: Gateway, name: string, ids: seq<Id>)
    requires StoreReady(g)
    ensures StoreStep(g, MakeGroup(g, name, ids))
  {
    InsertGroupStep(g, name, ids);
    GroupStore(g, name, ids);
    SameStore(g, g.(db := D.InsertGroup(g.db, Decimal(g.supply), name, ids), supply := g.supply + 1), MakeGroup(g, name, ids));
  }

  lemma CreateGroupStores(g: Gateway, s: Sock, name: string, memberIds: seq<Id>)
    requires s in g.sessions && StoreReady(g)
    ensures StoreStep(g, HandleCreateGroup(g, s, name, memberIds))
  {
    var ids := Distinct([g.sessions[s].id] + memberIds);
    var told := SendTo(g, s, UnknownMembers(NotWelcomed(g, ids)));
    UnchangedStore(g, told);
    MakeGroupStores(g, name, ids);
  }

  lemma SendPublicStores(g: Gateway, s: Sock, text: string)
    requires s in g.sessions && StoreReady(g)
    ensures StoreStep(g, SendPublic(g, s, text))
  {
    AppendStep(g, Outgoing(g, g.sessions[s], PUBLIC_CONVERSATION_ID, text));
  }

  lemma DirectToStores(g: Gateway, s: Sock, peer: Sock, text: string)
    requires s in g.sessions && peer in g.sessions && StoreReady(g)
    requires ColonFree(g.sessions[s].id) && ColonFree(g.sessions[peer].id)
    ensures StoreStep(g, DirectTo(g, s, peer, text))
  {
    var x, target := g.sessions[s], g.sessions[peer];
    EnsureDirectStep(g, x.id, target.id, g.supply);
    var g1 := g.(db := D.EnsureDirect(g.db, x.id, target.id));
    var m := Outgoing(g, x, D.DirectConversationId(x.id, target.id), text);
    D.MembersAreRows(g1.db, m.conversationId, x.id);
    AppendStep(g1, m);
    StoreStepTransitive(g, g1, Store(g1, m));
    var g' := DirectTo(g, s, peer, text);
    assert g'.db == Store(g1, m).db && g'.supply == Store(g1, m).supply && g'.now == g.now;
  }

  lemma SendDirectStores(g: Gateway, s: Sock, peerId: Id, text: string)
    requires s in g.sessions && StoreReady(g) && g.sessions[s].authenticated && IdsOk(g)
    ensures StoreStep(g, SendDirect(g, s, peerId, text))
  {
    if Welcomed(g, peerId) { DirectToStores(g, s, g.byId[peerId], text); }
    else { UnchangedStore(g, SendDirect(g, s, peerId, text)); }
  }

  lemma SendGroupStores(g: Gateway, s: Sock, group: string, text: string)
    requires s in g.sessions && StoreReady(g)
    ensures StoreStep(g, SendGroup(g, s, group, text))
  {
    var x := g.sessions[s];
    if MayPost(g, x.id, group) {
      var m := Outgoing(g, x, group, text);
      AppendStep(g, m);
      SendManyKeepsStores(Store(g, m), SocksOf(g, D.MemberList(g.db.members, group)), NewMessage(m));
    } else {
      UnchangedStore(g, SendGroup(g, s, group, text));
    }
  }

  lemma RequestStores(g: Gateway, s: Sock, m: ClientMessage)
    requires s in g.sessions && StoreReady(g) && g.sessions[s].authenticated && IdsOk(g)
    ensures StoreStep(g, HandleClientMessage(g, s, m))
  {
    var g' := HandleClientMessage(g, s, m);
    if m.SetNickname? { UnchangedStore(g, g'); }
    else if m.RequestState? { UnchangedStore(g, g'); }
    else if m.SetPresence? {
      var x := g.sessions[s].(presence := m.presence);
      SendManyKeepsStores(With(g, s, x), Recipients(With(g, s, x), g.order, None), UserUpdate(SummaryOf(x)));
      UnchangedStore(g, g');
    }
    else if m.CreateGroup? { CreateGroupStores(g, s, m.name, m.memberIds); }
    else if m.target.ToPublic? { SendPublicStores(g, s, m.text); }
    else if m.target.ToDirect? { SendDirectStores(g, s, m.target.peerId, m.text); }
    else { SendGroupStores(g, s, m.target.groupId, m.text); }
  }
}
