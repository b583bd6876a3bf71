/** The gateway's promises over whole runs. */
module GatewayTheorems {
  import opened Text
  import opened ClientProtocol
  import opened BackendLines
  import opened Gateway
  import opened GatewayFrames
  import opened GatewayStores
  import opened GatewayInvariant
  import opened GatewayRoster
  import opened GatewayReplication
  import D = Database
  import C = ChatState
  import P = ChatStateProofs

  lemma EmptyOk(base: Users)
    ensures OrderlyOk(EmptyGateway(), base)
  {
    D.EmptyTablesOk();
  }

  // The database.

  lemma {:induction false} RunsKeepInvariant(gs: seq<Gateway>, es: seq<Event>, n: nat)
    requires Run(gs, es) && n < |gs|
    ensures RunOk(gs[n])
  {
    if n == 0 { EmptyOk(map[]); }
    else {
      RunsKeepInvariant(gs, es, n - 1);
      RunOkStep(gs[n - 1], es[n - 1], gs[n]);
    }
  }

  lemma StepEvolves(gs: seq<Gateway>, es: seq<Event>, i: nat)
    requires Run(gs, es) && i < |es|
    ensures D.Evolves(gs[i].db, gs[i + 1].db)
  {
    RunsKeepInvariant(gs, es, i);
    RunOkStep(gs[i], es[i], gs[i + 1]);
  }

  lemma RunsEvolve(gs: seq<Gateway>, es: seq<Event>, i: nat, j: nat)
    requires Run(gs, es) && i <= j < |gs|
    ensures D.Evolves(gs[i].db, gs[j].db)
  {
    EvolvesAlong(gs, es, i, j, gs[i].db, gs[j].db);
  }

  lemma {:induction false} EvolvesAlong(gs: seq<Gateway>, es: seq<Event>, i: nat, j: nat, first: D.Tables, last: D.Tables)
    requires Run(gs, es) && i <= j < |gs| && first == gs[i].db && last == gs[j].db
    ensures D.Evolves(first, last)
    decreases j
  {
    if i < j {
      var before := gs[j - 1].db;
      EvolvesAlong(gs, es, i, j - 1, first, before);
      StepEvolves(gs, es, j - 1);
      D.EvolvesTransitive(first, before, last);
    }
  }

  /** Over every run, in whatever order its events come: the database stays well formed, a user's history only grows,
      and who sees a stored message is settled when it is stored, its sender included. */
  lemma VisibilityIsFrozen(gs: seq<Gateway>, es: seq<Event>, i: nat, j: nat, user: Id)
    requires Run(gs, es) && i <= j < |gs|
    ensures D.TablesOk(gs[i].db) && D.TablesOk(gs[j].db)
    ensures D.HistoryForUser(gs[i].db, user) <= D.HistoryForUser(gs[j].db, user)
    ensures forall m :: m in gs[i].db.messages ==>
              && (m in D.HistoryForUser(gs[j].db, user) <==> D.Visible(gs[i].db, m.conversationId, user))
              && (m.conversationId == PUBLIC_CONVERSATION_ID
                  || (m.senderId.Some? && m in D.HistoryForUser(gs[j].db, m.senderId.value)))
  {
    RunsKeepInvariant(gs, es, i);
    RunsKeepInvariant(gs, es, j);
    RunsEvolve(gs, es, i, j);
    D.HistoriesOnlyGrow(gs[i].db, gs[j].db, user);
    forall m | m in gs[i].db.messages
      ensures m in D.HistoryForUser(gs[j].db, user) <==> D.Visible(gs[i].db, m.conversationId, user)
      ensures m.conversationId == PUBLIC_CONVERSATION_ID || (m.senderId.Some? && m in D.HistoryForUser(gs[j].db, m.senderId.value))
    {
      D.VisibilityIsFrozen(gs[i].db, gs[j].db, m, user);
      D.HistoryIsFilter(gs[j].db, user);
      if m.conversationId != PUBLIC_CONVERSATION_ID {
        var sender := m.senderId.value;
        D.VisibilityIsFrozen(gs[i].db, gs[j].db, m, sender);
        D.HistoryIsFilter(gs[j].db, sender);
      }
    }
  }

  /** Over every run a direct conversation's members are the pair that its id encodes. */
  lemma DirectMembersAreThePair(gs: seq<Gateway>, es: seq<Event>, n: nat, a: Id, b: Id)
    requires Run(gs, es) && n < |gs| && ColonFree(a) && ColonFree(b)
    requires D.HasDirect(gs[n].db, D.DirectConversationId(a, b))
    ensures D.Members(gs[n].db, D.DirectConversationId(a, b)) == {a, b}
  {
    RunsKeepInvariant(gs, es, n);
    D.EnsureDirectOk(gs[n].db, a, b);
  }

  // What a login restores.

  /** Every `ready` of every run restores the whole history: the reducer skips no message, and each conversation the
      user is in, and no other, shows exactly its stored messages in the order they were stored. */
  lemma LoginRestoresEverything(gs: seq<Gateway>, es: seq<Event>, n: nat, s: Sock, c: C.ChatState, id: string)
    requires Run(gs, es) && n < |gs| && s in gs[n].sessions && gs[n].sessions[s].authenticated
    ensures var db, x := gs[n].db, gs[n].sessions[s];
            var convs := C.ChatReducer(c, ToAction(ReadyFor(gs[n], x), true, "", 0)).conversations;
            && (forall m :: m in db.messages && D.Visible(db, m.conversationId, x.id) ==> m.conversationId in convs)
            && (id in convs <==> id == PUBLIC_CONVERSATION_ID || (id in db.conversations && D.IsMember(db, id, x.id)))
            && (id in convs ==> convs[id].messages == P.LinesOf(db.messages, id, x.id))
  {
    var g := gs[n];
    var db, x := g.db, g.sessions[s];
    RunsKeepInvariant(gs, es, n);
    assert IdOk(x);
    ReadyIsPresentable(g, x);
    var ready := ReadyFor(g, x);
    var a := ToAction(ready, true, "", 0);
    assert P.ActionOk(a);
    P.ReadyShowsTheHistory(c, a, id);
    var convs := C.ChatReducer(c, a).conversations;
    ListedAre(g, x, id);
    D.HistoryIsFilter(db, x.id);
    if id in convs { FilteredLines(db, db.messages, x.id, id); }
    forall m | m in db.messages && D.Visible(db, m.conversationId, x.id) ensures m.conversationId in convs {
      P.ReadyShowsTheHistory(c, a, m.conversationId);
      ListedAre(g, x, m.conversationId);
    }
  }

  lemma MemberIsListed(g: Gateway, x: Session, id: string)
    requires D.TablesOk(g.db) && id in g.db.conversations && D.IsMember(g.db, id, x.id)
    ensures exists i :: 0 <= i < |ReadyFor(g, x).conversations| && ReadyFor(g, x).conversations[i].id == id
  {
    var cs, listed := ReadyFor(g, x).conversations, D.ConversationsFor(g.db, x.id);
    D.ListedCovers(g.db, g.db.members, x.id, id);
    var i :| 0 <= i < |listed| && listed[i] == D.Summarize(g.db, id, x.id);
    assert cs[i + 1].id == id;
  }

  lemma ListedIsMember(g: Gateway, x: Session, i: nat)
    requires i < |ReadyFor(g, x).conversations|
    ensures var id := ReadyFor(g, x).conversations[i].id;
            id == PUBLIC_CONVERSATION_ID || (id in g.db.conversations && D.IsMember(g.db, id, x.id))
  {
    var listed := D.ConversationsFor(g.db, x.id);
    ListedIds(g.db, g.db.members, x.id);
    if i > 0 { assert ReadyFor(g, x).conversations[i] == listed[i - 1] && listed[i - 1] in listed; }
  }

  lemma ListedAre(g: Gateway, x: Session, id: string)
    requires D.TablesOk(g.db)
    ensures var cs := ReadyFor(g, x).conversations;
            (exists i :: 0 <= i < |cs| && cs[i].id == id) <==>
            id == PUBLIC_CONVERSATION_ID || (id in g.db.conversations && D.IsMember(g.db, id, x.id))
  {
    var cs := ReadyFor(g, x).conversations;
    assert cs[0].id == PUBLIC_CONVERSATION_ID;
    if id in g.db.conversations && D.IsMember(g.db, id, x.id) { MemberIsListed(g, x, id); }
    if exists i :: 0 <= i < |cs| && cs[i].id == id {
      var i :| 0 <= i < |cs| && cs[i].id == id;
      ListedIsMember(g, x, i);
    }
  }

  lemma {:induction false} ListedIds(t: D.Tables, rows: seq<D.MemberRow>, user: Id)
    ensures forall c :: c in D.Listed(t, rows, user) ==> c.id in t.conversations && D.MemberRow(c.id, user) in rows
  {
    if rows != [] {
      ListedIds(t, rows[1..], user);
      assert rows == [rows[0]] + rows[1..];
      forall c | c in D.Listed(t, rows, user) ensures c.id in t.conversations && D.MemberRow(c.id, user) in rows {
        if c !in D.Listed(t, rows[1..], user) {
          assert c.id == rows[0].conversation && rows[0] == D.MemberRow(c.id, user);
        }
      }
    }
  }

  lemma {:induction false} FilteredLines(t: D.Tables, ms: seq<MessageSummary>, user: Id, id: string)
    requires D.Visible(t, id, user)
    ensures P.LinesOf(D.Filter(t, ms, user), id, user) == P.LinesOf(ms, id, user)
  {
    if ms != [] {
      FilteredLines(t, ms[1..], user, id);
      var rest := D.Filter(t, ms[1..], user);
      if D.Visible(t, ms[0].conversationId, user) {
        assert ([ms[0]] + rest)[1..] == rest;
      }
    }
  }

  // The queue.

  /** Over every run, what a session queued is what was replayed and what still waits, in the order it came; nothing is
      started before `ready`, and once ready nothing waits. */
  lemma QueuedMessagesRunOnce(gs: seq<Gateway>, es: seq<Event>, n: nat, s: Sock)
    requires Run(gs, es) && n < |gs| && s in gs[n].sessions
    ensures var x := gs[n].sessions[s];
            && x.log.queued == x.log.replayed + x.pending
            && (if x.readyAnnounced then x.log.replayed == x.log.queued else x.log.replayed == [])
  {
    RunsKeepInvariant(gs, es, n);
    assert QueueOk(gs[n].sessions[s]);
  }

  // The roster's replicas.

  lemma {:induction false} OrderlyRunsKeepInvariant(gs: seq<Gateway>, es: seq<Event>, n: nat, base: Users)
    requires OrderlyRun(gs, es) && n < |gs|
    ensures OrderlyOk(gs[n], base)
  {
    if n == 0 { EmptyOk(base); }
    else {
      OrderlyRunsKeepInvariant(gs, es, n - 1, base);
      OrderlyStep(gs[n - 1], es[n - 1], gs[n], base);
    }
  }

  lemma GoodStatesMeanOrderly(gs: seq<Gateway>, es: seq<Event>, base: Users, i: nat, g: Gateway, g': Gateway)
    requires Run(gs, es) && i < |es| && g == gs[i] && g' == gs[i + 1] && OrderlyOk(g, base) && OrderlyOk(g', base)
    ensures Enabled(gs[i], es[i]) && Orderly(gs[i], es[i])
  {
    assert Step(g, es[i], g');
    OrderlyExactly(g, es[i], g', base);
  }

  /** A run is orderly exactly when every state of it has the whole invariant. */
  lemma OrderlyRunsExactly(gs: seq<Gateway>, es: seq<Event>, base: Users)
    requires Run(gs, es)
    ensures OrderlyRun(gs, es) <==> forall n :: 0 <= n < |gs| ==> OrderlyOk(gs[n], base)
  {
    if OrderlyRun(gs, es) {
      forall n | 0 <= n < |gs| ensures OrderlyOk(gs[n], base) { OrderlyRunsKeepInvariant(gs, es, n, base); }
    }
    if forall n :: 0 <= n < |gs| ==> OrderlyOk(gs[n], base) {
      forall i | 0 <= i < |es| ensures Enabled(gs[i], es[i]) && Orderly(gs[i], es[i]) {
        GoodStatesMeanOrderly(gs, es, base, i, gs[i], gs[i + 1]);
      }
    }
  }

  /** What a browser reduces: a message from its WebSocket, or an action of its own user. */
  datatype Input = FromGateway(message: ServerMessage, loggedIn: bool, errorId: string, now: nat) | Local(action: C.ChatAction)

  /** User interface actions: none of them carries a user list. */
  predicate InputOk(i: Input) {
    i.Local? ==> !i.action.ReadyAction? && !i.action.UserUpdateAction? && !i.action.UserOfflineAction? && !i.action.LoggedOutAction?
  }

  function ActionOf(i: Input): C.ChatAction {
    if i.Local? then i.action else ToAction(i.message, i.loggedIn, i.errorId, i.now)
  }

  function BrowserAfter(c: C.ChatState, inputs: seq<Input>): C.ChatState {
    if inputs == [] then c
    else C.ChatReducer(BrowserAfter(c, inputs[..|inputs| - 1]), ActionOf(inputs[|inputs| - 1]))
  }

  function Received(inputs: seq<Input>): seq<ServerMessage> {
    if inputs == [] then []
    else
      var front := Received(inputs[..|inputs| - 1]);
      var last := inputs[|inputs| - 1];
      if last.Local? then front else front + [last.message]
  }

  lemma LocalKeepsUsers(c: C.ChatState, a: C.ChatAction)
    requires InputOk(Local(a))
    ensures C.ChatReducer(c, a).users == c.users
  {
    if a.ErrorReceived? { ErrorKeepsUsers(c, a.text, a.conversationId, a.errorId, a.now); }
    else if a.ConversationCreatedAction? { assert C.OnConversationCreated(c, a.conversation).users == c.users; }
    else if a.MessageReceived? { assert C.OnMessage(c, a.message).users == c.users; }
  }

  lemma {:induction false} BrowserShowsItsView(c: C.ChatState, inputs: seq<Input>)
    requires forall i :: 0 <= i < |inputs| ==> InputOk(inputs[i])
    ensures BrowserAfter(c, inputs).users == View(c.users, Received(inputs))
    decreases |inputs|
  {
    if inputs != [] {
      var front, last := inputs[..|inputs| - 1], inputs[|inputs| - 1];
      BrowserShowsItsView(c, front);
      if last.Local? { LocalKeepsUsers(BrowserAfter(c, front), last.action); }
      else {
        ReducerAgrees(BrowserAfter(c, front), last.message, last.loggedIn, last.errorId, last.now);
        ViewSnoc(c.users, Received(front), last.message);
      }
    }
  }

  /** User interface actions that announce no public conversation; messages that were written to this WebSocket. */
  ghost predicate InputFits(i: Input, sent: seq<ServerMessage>) {
    && InputOk(i)
    && (i.Local? ==> P.ActionOk(i.action) && (i.action.ConversationCreatedAction? ==> i.action.conversation.kind != PublicKind))
    && (i.FromGateway? ==> i.message in sent)
  }

  /** Over every run every browser keeps the reducer's invariant, and its public conversation lists exactly the users it
      knows, whatever it has received so far, in whatever order, and whatever its user did. */
  lemma {:induction false} PublicMembersAreTheUsers(gs: seq<Gateway>, es: seq<Event>, n: nat, s: Sock, url: string, inputs: seq<Input>)
    requires Run(gs, es) && n < |gs| && s in gs[n].sessions
    requires forall i :: 0 <= i < |inputs| ==> InputFits(inputs[i], gs[n].sessions[s].ws.sent)
    ensures P.StateOk(BrowserAfter(C.InitialState(url), inputs)) && P.RosterOk(BrowserAfter(C.InitialState(url), inputs))
    decreases |inputs|
  {
    if inputs != [] {
      var front, last := inputs[..|inputs| - 1], inputs[|inputs| - 1];
      PublicMembersAreTheUsers(gs, es, n, s, url, front);
      RunsKeepInvariant(gs, es, n);
      assert InputFits(last, gs[n].sessions[s].ws.sent);
      var c, a := BrowserAfter(C.InitialState(url), front), ActionOf(last);
      FitsReducer(c, last);
      P.StateOkKept(c, a);
      P.RosterOkKept(c, a);
    }
  }

  lemma FitsReducer(c: C.ChatState, i: Input)
    requires i.FromGateway? ==> Presentable(i.message)
    requires i.Local? ==> P.ActionOk(i.action) && (i.action.ConversationCreatedAction? ==> i.action.conversation.kind != PublicKind)
    ensures P.ActionOk(ActionOf(i)) && !P.RelistsPublic(c, ActionOf(i))
  {
  }

  /** Roster replication. Take any orderly run, any browser that has been sent `ready` and still listens, whatever it
      showed before and whatever its user did meanwhile: once it has reduced what is in flight, every entry of its user
      list is the current card of a welcomed session, and every announced session is listed. */
  lemma RosterIsReplicated(gs: seq<Gateway>, es: seq<Event>, n: nat, s: Sock, c: C.ChatState, inputs: seq<Input>, id: Id)
    requires OrderlyRun(gs, es) && n < |gs| && s in gs[n].sessions && Watches(gs[n].sessions[s])
    requires forall i :: 0 <= i < |inputs| ==> InputOk(inputs[i])
    requires Received(inputs) == gs[n].sessions[s].ws.sent
    ensures var g, users := gs[n], BrowserAfter(c, inputs).users;
            && (id in users ==> Welcomed(g, id) && users[id] == C.UserOf(SummaryOf(g.sessions[g.byId[id]])))
            && (Announced(g, id) ==> id in users)
  {
    OrderlyRunsKeepInvariant(gs, es, n, c.users);
    BrowserShowsItsView(c, inputs);
    var g, view := gs[n], BrowserAfter(c, inputs).users;
    assert view == View(c.users, g.sessions[s].ws.sent);
    assert Agrees(g, view);
    assert AgreesAt(g, view, id);
  }

  /** When no login is half done, all browsers that have caught up show the same users. */
  lemma ViewsConverge(gs: seq<Gateway>, es: seq<Event>, n: nat, s: Sock, t: Sock,
                      c: C.ChatState, d: C.ChatState, inputs: seq<Input>, others: seq<Input>)
    requires OrderlyRun(gs, es) && n < |gs|
    requires s in gs[n].sessions && Watches(gs[n].sessions[s]) && Received(inputs) == gs[n].sessions[s].ws.sent
    requires t in gs[n].sessions && Watches(gs[n].sessions[t]) && Received(others) == gs[n].sessions[t].ws.sent
    requires forall i :: 0 <= i < |inputs| ==> InputOk(inputs[i])
    requires forall i :: 0 <= i < |others| ==> InputOk(others[i])
    requires forall id :: Welcomed(gs[n], id) ==> Announced(gs[n], id)
    ensures BrowserAfter(c, inputs).users == BrowserAfter(d, others).users
  {
    var a, b := BrowserAfter(c, inputs).users, BrowserAfter(d, others).users;
    forall id ensures id in a <==> id in b ensures id in a ==> a[id] == b[id] {
      RosterIsReplicated(gs, es, n, s, c, inputs, id);
      RosterIsReplicated(gs, es, n, t, d, others, id);
    }
  }

  /** In an orderly run at most one session of an account can be heard of. */
  lemma OneSessionPerAccount(gs: seq<Gateway>, es: seq<Event>, n: nat, s: Sock, t: Sock)
    requires OrderlyRun(gs, es) && n < |gs| && s in gs[n].sessions && t in gs[n].sessions
    requires Holds(gs[n].sessions[s], gs[n].sessions[s].id) && Holds(gs[n].sessions[t], gs[n].sessions[s].id)
    requires !Silent(gs[n].sessions[s]) && !Silent(gs[n].sessions[t])
    ensures s == t
  {
    OrderlyRunsKeepInvariant(gs, es, n, map[]);
    assert SessionOk(gs[n], s, gs[n].sessions[s]) && SessionOk(gs[n], t, gs[n].sessions[t]);
  }

  /** The last card that the snapshot holds for an id. */
  function CardOf(g: Gateway, ids: seq<Id>, id: Id): Option<UserSummary>
    decreases |ids|
  {
    if ids == [] then None
    else
      var rest := CardOf(g, ids[1..], id);
      if rest.None? && Welcomed(g, ids[0]) && g.sessions[g.byId[ids[0]]].id == id
      then Some(SummaryOf(g.sessions[g.byId[ids[0]]])) else rest
  }

  lemma {:induction false} SnapshotShowsCard(g: Gateway, users: Users, ids: seq<Id>, id: Id)
    ensures var view, card := C.FillUsers(users, WelcomedUsers(g, ids)), CardOf(g, ids, id);
            && (id in view <==> card.Some? || id in users)
            && (id in view ==> view[id] == if card.Some? then C.UserOf(card.value) else users[id])
    decreases |ids|
  {
    if ids != [] {
      if Welcomed(g, ids[0]) {
        var card := SummaryOf(g.sessions[g.byId[ids[0]]]);
        assert WelcomedUsers(g, ids)[0] == card && WelcomedUsers(g, ids)[1..] == WelcomedUsers(g, ids[1..]);
        SnapshotShowsCard(g, users[card.id := C.UserOf(card)], ids[1..], id);
      } else {
        SnapshotShowsCard(g, users, ids[1..], id);
      }
    }
  }

  /** READY always shows the user as online. So over every run a session that asks for its state sees itself as the
      snapshot shows it exactly when its card there has its name and is not away; and in an orderly run a ready session's
      card is its own, so exactly when it is not away. */
  lemma ReadyShowsSelfOnline(gs: seq<Gateway>, es: seq<Event>, n: nat, s: Sock, c: C.ChatState)
    requires Run(gs, es) && n < |gs| && s in gs[n].sessions
    ensures var g, x := gs[n], gs[n].sessions[s];
            var card := CardOf(g, g.order, x.id);
            P.SelfOk(C.ChatReducer(c, ToAction(ReadyFor(g, x), true, "", 0))) <==>
            (card.Some? ==> card.value.username == x.nickname && card.value.presence == Online)
    ensures OrderlyRun(gs, es) && Speaks(gs[n], s) && gs[n].sessions[s].readyAnnounced ==>
              CardOf(gs[n], gs[n].order, gs[n].sessions[s].id) == Some(SummaryOf(gs[n].sessions[s]))
  {
    var g, x := gs[n], gs[n].sessions[s];
    CardDecides(c, g, x);
    if OrderlyRun(gs, es) && Speaks(g, s) && x.readyAnnounced {
      OrderlyRunsKeepInvariant(gs, es, n, map[]);
      OwnCard(g, s, g.order);
    }
  }

  lemma CardDecides(c: C.ChatState, g: Gateway, x: Session)
    ensures var card := CardOf(g, g.order, x.id);
            P.SelfOk(C.ChatReducer(c, ToAction(ReadyFor(g, x), true, "", 0))) <==>
            (card.Some? ==> card.value.username == x.nickname && card.value.presence == Online)
  {
    SnapshotShowsCard(g, map[], g.order, x.id);
    OwnCardDecides(c, ReadyFor(g, x));
  }

  lemma {:induction false} OwnCard(g: Gateway, s: Sock, ids: seq<Id>)
    requires Shape(g) && Speaks(g, s) && forall id :: id in ids ==> id in g.byId
    ensures CardOf(g, ids, g.sessions[s].id) == if g.sessions[s].id in ids then Some(SummaryOf(g.sessions[s])) else None
    ensures g.sessions[s].id in g.order
    decreases |ids|
  {
    assert SessionOk(g, s, g.sessions[s]);
    if ids != [] {
      assert ids == [ids[0]] + ids[1..];
      assert EntryOk(g, ids[0]);
      OwnCard(g, s, ids[1..]);
    }
  }

  lemma OwnCardDecides(c: C.ChatState, m: ServerMessage)
    requires m.Ready?
    ensures var view := C.FillUsers(map[], m.users);
            P.SelfOk(C.ChatReducer(c, ToAction(m, true, "", 0))) <==>
            (m.userId in view ==> view[m.userId].nickname == m.username && view[m.userId].presence == Online)
  {
  }
}
