/** The browser's user list as a replica of the gateway's roster. */
module GatewayRoster {
  import opened Text
  import opened ClientProtocol
  import opened BackendLines
  import opened Gateway
  import opened GatewayFrames
  import opened GatewayStores
  import opened GatewayInvariant
  import D = Database
  import ChatState
  import ChatStateProofs

  // The roster itself.

  /** The roster maps an id to the one live session of that account. */
  ghost predicate EntryOk(g: Gateway, id: Id) {
    id in g.byId && g.byId[id] in g.sessions && Holds(g.sessions[g.byId[id]], id)
  }

  predicate Holds(x: Session, id: Id) { x.id == id && x.authenticated && !x.closed }

  predicate LifeOk(x: Session) {
    && (x.backend.status == BackendConnecting ==> !x.welcomed)
    && (x.closed ==> !x.ws.open && x.backend.status != BackendOpen && x.backend.status != BackendConnecting)
  }

  /** A live session is in the roster, unless its backend refused it and nobody has heard of it. */
  ghost predicate SessionOk(g: Gateway, s: Sock, x: Session) {
    LifeOk(x) && (x.authenticated && !x.closed ==> (x.id in g.byId && g.byId[x.id] == s) || Silent(x))
  }

  ghost predicate Shape(g: Gateway) {
    && (forall id :: id in g.byId ==> EntryOk(g, id))
    && (forall s :: s in g.sessions ==> SessionOk(g, s, g.sessions[s]))
    && (forall id :: id in g.order <==> id in g.byId) && NoDuplicates(g.order)
  }

  predicate SameRole(x: Session, y: Session) {
    && x.id == y.id && x.authenticated == y.authenticated && x.closed == y.closed
    && x.ws.open == y.ws.open && x.backend.status == y.backend.status
    && (Silent(x) ==> Silent(y)) && (LifeOk(x) ==> LifeOk(y))
  }

  lemma ShapeKept(g: Gateway, g': Gateway)
    requires Shape(g) && SameRoster(g, g')
    requires forall s :: s in g.sessions ==> SameRole(g.sessions[s], g'.sessions[s])
    ensures Shape(g')
  {
    forall s | s in g'.sessions ensures SessionOk(g', s, g'.sessions[s]) {
      assert SessionOk(g, s, g.sessions[s]) && SameRole(g.sessions[s], g'.sessions[s]);
    }
    forall id | id in g'.byId ensures EntryOk(g', id) {
      assert EntryOk(g, id) && SameRole(g.sessions[g.byId[id]], g'.sessions[g.byId[id]]);
    }
  }

  lemma ShapeWith(g: Gateway, s: Sock, y: Session)
    requires Shape(g) && s in g.sessions && LifeOk(y) && (Silent(g.sessions[s]) ==> Silent(y))
    requires y.authenticated == g.sessions[s].authenticated && y.closed == g.sessions[s].closed
    requires y.authenticated ==> y.id == g.sessions[s].id
    ensures Shape(With(g, s, y))
  {
    var g' := With(g, s, y);
    assert SessionOk(g, s, g.sessions[s]);
    forall t | t in g'.sessions ensures SessionOk(g', t, g'.sessions[t]) {
      if t != s { assert SessionOk(g, t, g.sessions[t]); }
    }
    forall id | id in g'.byId ensures EntryOk(g', id) {
      assert EntryOk(g, id);
    }
  }

  lemma CoreKeepsShape(g: Gateway, g': Gateway)
    requires Shape(g) && CoreKept(g, g')
    ensures Shape(g')
  {
    forall s | s in g.sessions ensures SameRole(g.sessions[s], g'.sessions[s]) {
      CoreKeepsSession(g.sessions[s], g'.sessions[s]);
    }
    ShapeKept(g, g');
  }

  // Who gets a broadcast.

  lemma NoDupTail<T>(xs: seq<T>)
    requires NoDuplicates(xs) && xs != []
    ensures NoDuplicates(xs[1..]) && xs[0] !in xs[1..]
  {
    forall k | 0 <= k < |xs[1..]| ensures xs[1..][k] != xs[0] { assert xs[1..][k] == xs[k + 1]; }
  }

  lemma {:induction false} RecipientsAre(g: Gateway, ids: seq<Id>, exclude: Option<Id>)
    requires (forall id :: id in g.byId ==> EntryOk(g, id)) && NoDuplicates(ids) && forall id :: id in ids ==> id in g.byId
    ensures NoDuplicates(Recipients(g, ids, exclude))
    ensures forall s :: s in Recipients(g, ids, exclude) <==>
              exists id :: id in ids && g.byId[id] == s && Welcomed(g, id) && exclude != Some(id)
    decreases |ids|
  {
    if ids != [] {
      assert ids == [ids[0]] + ids[1..];
      assert EntryOk(g, ids[0]);
      RecipientsAre(g, ids[1..], exclude);
      var rest, all := Recipients(g, ids[1..], exclude), Recipients(g, ids, exclude);
      var first := g.byId[ids[0]];
      NoDupTail(ids);
      assert first !in rest by {
        forall id | id in ids[1..] ensures g.byId[id] != first { assert EntryOk(g, id); }
      }
      forall s ensures s in all <==> exists id :: id in ids && g.byId[id] == s && Welcomed(g, id) && exclude != Some(id) {
        if s in all && s !in rest { assert ids[0] in ids && g.byId[ids[0]] == s; }
        if s in rest {
          var id :| id in ids[1..] && g.byId[id] == s && Welcomed(g, id) && exclude != Some(id);
          assert id in ids;
        }
      }
    }
  }

  lemma {:induction false} SendManyAt(g: Gateway, targets: seq<Sock>, m: ServerMessage, s: Sock)
    requires NoDuplicates(targets) && s in g.sessions
    ensures s in SendMany(g, targets, m).sessions
    ensures SendMany(g, targets, m).sessions[s] == if s in targets then Write(g.sessions[s], m) else g.sessions[s]
    decreases |targets|
  {
    if targets != [] {
      assert targets == [targets[0]] + targets[1..];
      SendManyAt(SendTo(g, targets[0], m), targets[1..], m, s);
      NoDupTail(targets);
    }
  }

  predicate Hears(x: Session, exclude: Option<Id>) {
    x.authenticated && !x.closed && x.welcomed && exclude != Some(x.id)
  }

  /** A broadcast reaches each live welcomed session but the excluded one, once, and nobody else. */
  lemma BroadcastReaches(g: Gateway, m: ServerMessage, exclude: Option<Id>, s: Sock)
    requires Shape(g) && s in g.sessions
    ensures s in Broadcast(g, m, exclude).sessions
    ensures Broadcast(g, m, exclude).sessions[s] == if Hears(g.sessions[s], exclude) then Write(g.sessions[s], m) else g.sessions[s]
  {
    var targets := Recipients(g, g.order, exclude);
    RecipientsAre(g, g.order, exclude);
    SendManyAt(g, targets, m, s);
    var x := g.sessions[s];
    assert SessionOk(g, s, x);
    if Hears(x, exclude) {
      assert x.id in g.order && g.byId[x.id] == s && Welcomed(g, x.id);
    }
    if s in targets {
      var id :| id in g.order && g.byId[id] == s && Welcomed(g, id) && exclude != Some(id);
      assert EntryOk(g, id);
    }
  }

  // What a browser shows.

  type Users = map<Id, ChatState.User>

  function ReduceUsers(users: Users, m: ServerMessage): Users {
    match m
    case Ready(_, _, us, _, _) => ChatState.FillUsers(map[], us)
    case LoggedOut => map[]
    case UserUpdate(u) => users[u.id := ChatState.UserOf(u)]
    case UserOffline(id) => users - {id}
    case ConversationCreated(_) => users
    case NewMessage(_) => users
    case ErrorMessage(_, _, _) => users
  }

  /** The reducer's user list depends on nothing but the user list and the message. */
  lemma ReducerAgrees(c: ChatState.ChatState, m: ServerMessage, loggedIn: bool, errorId: string, now: nat)
    ensures ChatState.ChatReducer(c, ToAction(m, loggedIn, errorId, now)).users == ReduceUsers(c.users, m)
  {
    if m.ErrorMessage? { ErrorKeepsUsers(c, m.text, m.conversationId, errorId, now); }
    else if m.ConversationCreated? { assert ChatState.OnConversationCreated(c, m.conversation).users == c.users; }
    else if m.NewMessage? { assert ChatState.OnMessage(c, m.message).users == c.users; }
    else if m.UserUpdate? { assert ChatState.OnUserUpdate(c, m.user).users == ReduceUsers(c.users, m); }
    else if m.UserOffline? { assert ChatState.OnUserOffline(c, m.offlineId).users == ReduceUsers(c.users, m); }
    else if m.LoggedOut? {
      assert ToAction(m, loggedIn, errorId, now) == ChatState.LoggedOutAction;
    }
  }

  lemma ErrorKeepsUsers(c: ChatState.ChatState, text: string, conversationId: Option<string>, errorId: string, now: nat)
    ensures ChatState.OnError(c, text, conversationId, errorId, now).users == c.users
  {
  }

  /** The user list after every message written to a WebSocket has been reduced. */
  function View(base: Users, sent: seq<ServerMessage>): Users {
    if sent == [] then base else ReduceUsers(View(base, sent[..|sent| - 1]), sent[|sent| - 1])
  }

  predicate HasReady(sent: seq<ServerMessage>) {
    exists i :: 0 <= i < |sent| && sent[i].Ready?
  }

  lemma ViewSnoc(base: Users, sent: seq<ServerMessage>, m: ServerMessage)
    ensures View(base, sent + [m]) == ReduceUsers(View(base, sent), m)
    ensures HasReady(sent + [m]) <==> HasReady(sent) || m.Ready?
  {
    var all := sent + [m];
    assert all[..|all| - 1] == sent && all[|sent|] == m;
    if HasReady(sent) {
      var i :| 0 <= i < |sent| && sent[i].Ready?;
      assert all[i].Ready?;
    }
    if HasReady(all) {
      var i :| 0 <= i < |all| && all[i].Ready?;
      assert i == |sent| || sent[i].Ready?;
    }
  }

  lemma {:induction false} QuietView(base: Users, sent: seq<ServerMessage>, more: seq<ServerMessage>)
    requires QuietNews(sent, more)
    ensures View(base, more) == View(base, sent)
    ensures HasReady(more) <==> HasReady(sent)
    decreases |more|
  {
    if more != sent {
      var front := more[..|more| - 1];
      assert front[..|sent|] == sent && more == front + [more[|more| - 1]];
      assert QuietMessage(more[|more| - 1]);
      QuietView(base, sent, front);
      ViewSnoc(base, front, more[|more| - 1]);
    } else {
      assert more == sent;
    }
  }

  /** A browser that has been sent `ready` and still listens. */
  predicate Watches(x: Session) { x.ws.open && HasReady(x.ws.sent) }

  predicate Announced(g: Gateway, id: Id) { Welcomed(g, id) && g.sessions[g.byId[id]].readyAnnounced }

  /** One entry of one view agrees with the roster. */
  ghost predicate AgreesAt(g: Gateway, view: Users, id: Id) {
    && (id in view ==> Welcomed(g, id) && view[id] == ChatState.UserOf(SummaryOf(g.sessions[g.byId[id]])))
    && (Announced(g, id) ==> id in view)
  }

  ghost predicate Agrees(g: Gateway, view: Users) {
    forall id :: AgreesAt(g, view, id)
  }

  ghost predicate AgreesBut(g: Gateway, view: Users, but: Id) {
    forall id :: id != but ==> AgreesAt(g, view, id)
  }

  /** Every watching browser's view, once its messages are reduced, agrees with the roster. */
  ghost predicate Synced(g: Gateway, base: Users) {
    forall s :: s in g.sessions && Watches(g.sessions[s]) ==> Agrees(g, View(base, g.sessions[s].ws.sent))
  }

  ghost predicate SyncedBut(g: Gateway, base: Users, but: Id) {
    forall s :: s in g.sessions && Watches(g.sessions[s]) ==> AgreesBut(g, View(base, g.sessions[s].ws.sent), but)
  }

  /** `ready` goes to welcomed sessions only. */
  ghost predicate Greeted(g: Gateway) {
    forall s :: s in g.sessions && HasReady(g.sessions[s].ws.sent) ==> g.sessions[s].welcomed
  }

  ghost predicate RosterOk(g: Gateway, base: Users) {
    Shape(g) && Greeted(g) && Synced(g, base)
  }

  predicate SameCard(x: Session, y: Session) {
    SummaryOf(x) == SummaryOf(y) && x.welcomed == y.welcomed && x.readyAnnounced == y.readyAnnounced
  }

  /** What the roster says of an id depends only on the card of the session that holds it. */
  lemma AgreesMoves(g: Gateway, g': Gateway, view: Users, id: Id)
    requires AgreesAt(g, view, id)
    requires (id in g.byId) == (id in g'.byId)
    requires id in g.byId ==> g.byId[id] == g'.byId[id] && g.byId[id] in g.sessions && g.byId[id] in g'.sessions
                              && SameCard(g.sessions[g.byId[id]], g'.sessions[g.byId[id]])
    ensures AgreesAt(g', view, id)
  {
  }

  lemma AgreesFrame(g: Gateway, g': Gateway, view: Users)
    requires Agrees(g, view) && Shape(g) && SameRoster(g, g')
    requires forall s :: s in g.sessions ==> SameCard(g.sessions[s], g'.sessions[s])
    ensures Agrees(g', view)
  {
    forall id ensures AgreesAt(g', view, id) {
      assert id in g.byId ==> EntryOk(g, id);
      AgreesMoves(g, g', view, id);
    }
  }

  /** Quiet changes keep the replicas. */
  lemma QuietKeepsRoster(g: Gateway, g': Gateway, base: Users)
    requires Quiet(g, g') && RosterOk(g, base)
    ensures RosterOk(g', base)
  {
    QuietKeepsCore(g, g');
    CoreKeepsShape(g, g');
    forall s | s in g.sessions
      ensures SameCard(g.sessions[s], g'.sessions[s])
      ensures HasReady(g'.sessions[s].ws.sent) <==> HasReady(g.sessions[s].ws.sent)
      ensures View(base, g'.sessions[s].ws.sent) == View(base, g.sessions[s].ws.sent)
    {
      assert QuietSession(g.sessions[s], g'.sessions[s]);
      QuietView(base, g.sessions[s].ws.sent, g'.sessions[s].ws.sent);
    }
    forall s | s in g'.sessions && Watches(g'.sessions[s]) ensures Agrees(g', View(base, g'.sessions[s].ws.sent)) {
      assert QuietSession(g.sessions[s], g'.sessions[s]);
      AgreesFrame(g, g', View(base, g.sessions[s].ws.sent));
    }
  }

  // A session's card changes, and everyone is told.

  /** Changing one session's card leaves every other entry in agreement. */
  lemma CardChange(g: Gateway, s: Sock, y: Session, base: Users)
    requires Shape(g) && s in g.sessions && Holds(g.sessions[s], g.sessions[s].id)
    requires SyncedBut(g, base, g.sessions[s].id)
    requires SameRole(g.sessions[s], y) && y.ws == g.sessions[s].ws
    ensures Shape(With(g, s, y)) && SyncedBut(With(g, s, y), base, y.id)
  {
    var g' := With(g, s, y);
    assert SessionOk(g, s, g.sessions[s]);
    ShapeWith(g, s, y);
    forall t | t in g'.sessions && Watches(g'.sessions[t]) ensures AgreesBut(g', View(base, g'.sessions[t].ws.sent), y.id) {
      var view := View(base, g.sessions[t].ws.sent);
      assert AgreesBut(g, view, y.id);
      forall id | id != y.id ensures AgreesAt(g', view, id) {
        assert AgreesAt(g, view, id);
        assert id in g.byId ==> EntryOk(g, id);
        AgreesMoves(g, g', view, id);
      }
    }
  }

  lemma SyncedIsSyncedBut(g: Gateway, base: Users, id: Id)
    requires Synced(g, base)
    ensures SyncedBut(g, base, id)
  {
    forall s | s in g.sessions && Watches(g.sessions[s]) ensures AgreesBut(g, View(base, g.sessions[s].ws.sent), id) {
      assert Agrees(g, View(base, g.sessions[s].ws.sent));
    }
  }

  /** Adding the current card of `s` to a view repairs it. */
  lemma CardRepairs(g: Gateway, g': Gateway, s: Sock, view: Users)
    requires Shape(g) && SameRoster(g, g') && s in g.sessions && Holds(g.sessions[s], g.sessions[s].id) && g.sessions[s].welcomed
    requires forall t :: t in g.sessions ==> SameCard(g.sessions[t], g'.sessions[t])
    requires AgreesBut(g, view, g.sessions[s].id)
    ensures Agrees(g', ReduceUsers(view, UserUpdate(SummaryOf(g.sessions[s]))))
  {
    var x := g.sessions[s];
    var now := ReduceUsers(view, UserUpdate(SummaryOf(x)));
    assert SessionOk(g, s, x) && SameCard(x, g'.sessions[s]);
    forall id ensures AgreesAt(g', now, id) {
      if id != x.id {
        assert AgreesAt(g, view, id);
        assert AgreesAt(g, now, id);
        assert id in g.byId ==> EntryOk(g, id);
        AgreesMoves(g, g', now, id);
      }
    }
  }

  lemma BroadcastCards(g: Gateway, m: ServerMessage, exclude: Option<Id>, s: Sock)
    requires Shape(g) && s in g.sessions
    ensures s in Broadcast(g, m, exclude).sessions
    ensures SameCard(g.sessions[s], Broadcast(g, m, exclude).sessions[s])
    ensures SameRole(g.sessions[s], Broadcast(g, m, exclude).sessions[s])
    ensures Broadcast(g, m, exclude).sessions[s].ws == Write(g.sessions[s], m).ws || Broadcast(g, m, exclude).sessions[s].ws == g.sessions[s].ws
    ensures !m.Ready? ==> (HasReady(Broadcast(g, m, exclude).sessions[s].ws.sent) <==> HasReady(g.sessions[s].ws.sent))
  {
    BroadcastReaches(g, m, exclude, s);
    ViewSnoc(map[], g.sessions[s].ws.sent, m);
  }

  lemma BroadcastFrame(g: Gateway, m: ServerMessage, exclude: Option<Id>)
    requires Shape(g) && !m.Ready?
    ensures var g' := Broadcast(g, m, exclude);
            && SameRoster(g, g') && Shape(g')
            && (forall s :: s in g.sessions ==> SameCard(g.sessions[s], g'.sessions[s]))
            && (Greeted(g) ==> Greeted(g'))
  {
    var g' := Broadcast(g, m, exclude);
    SendManyKeepsStores(g, Recipients(g, g.order, exclude), m);
    forall s | s in g.sessions
      ensures SameCard(g.sessions[s], g'.sessions[s]) && SameRole(g.sessions[s], g'.sessions[s])
      ensures HasReady(g'.sessions[s].ws.sent) <==> HasReady(g.sessions[s].ws.sent)
    {
      BroadcastCards(g, m, exclude, s);
    }
    ShapeKept(g, g');
  }

  /** Telling everyone the current card of one session brings all views back into agreement. */
  lemma TellAll(g: Gateway, s: Sock, base: Users)
    requires Shape(g) && Greeted(g) && s in g.sessions && Holds(g.sessions[s], g.sessions[s].id) && g.sessions[s].welcomed
    requires IdsOk(g) && SyncedBut(g, base, g.sessions[s].id)
    ensures RosterOk(Broadcast(g, UserUpdate(SummaryOf(g.sessions[s])), None), base)
  {
    var m := UserUpdate(SummaryOf(g.sessions[s]));
    var g' := Broadcast(g, m, None);
    BroadcastFrame(g, m, None);
    forall t | t in g'.sessions && Watches(g'.sessions[t]) ensures Agrees(g', View(base, g'.sessions[t].ws.sent)) {
      BroadcastCards(g, m, None, t);
      TellOne(g, s, base, None, t);
    }
  }

  lemma TellOne(g: Gateway, s: Sock, base: Users, exclude: Option<Id>, t: Sock)
    requires Shape(g) && Greeted(g) && s in g.sessions && Holds(g.sessions[s], g.sessions[s].id) && g.sessions[s].welcomed
    requires t in g.sessions && IdsOk(g) && exclude != Some(g.sessions[t].id)
    requires Watches(g.sessions[t]) && AgreesBut(g, View(base, g.sessions[t].ws.sent), g.sessions[s].id)
    ensures var g' := Broadcast(g, UserUpdate(SummaryOf(g.sessions[s])), exclude);
            t in g'.sessions && Agrees(g', View(base, g'.sessions[t].ws.sent))
  {
    var m := UserUpdate(SummaryOf(g.sessions[s]));
    var g' := Broadcast(g, m, exclude);
    var y := g.sessions[t];
    BroadcastFrame(g, m, exclude);
    BroadcastReaches(g, m, exclude, t);
    ViewSnoc(base, y.ws.sent, m);
    assert y.ws.open && HasReady(y.ws.sent);
    assert SessionOk(g, t, y) && IdOk(y);
    assert Hears(y, exclude);
    CardRepairs(g, g', s, View(base, y.ws.sent));
  }

  // The snapshot.

  lemma {:induction false} WelcomedUsersAre(g: Gateway, ids: seq<Id>)
    requires forall id :: id in ids ==> EntryOk(g, id)
    ensures forall u :: u in WelcomedUsers(g, ids) <==>
              exists id :: id in ids && Welcomed(g, id) && u == SummaryOf(g.sessions[g.byId[id]])
    decreases |ids|
  {
    if ids != [] {
      assert ids == [ids[0]] + ids[1..];
      WelcomedUsersAre(g, ids[1..]);
      forall u ensures u in WelcomedUsers(g, ids) <==>
                         exists id :: id in ids && Welcomed(g, id) && u == SummaryOf(g.sessions[g.byId[id]])
      {
        if u in WelcomedUsers(g, ids[1..]) {
          var id :| id in ids[1..] && Welcomed(g, id) && u == SummaryOf(g.sessions[g.byId[id]]);
          assert id in ids;
        } else if u in WelcomedUsers(g, ids) {
          assert ids[0] in ids;
        }
      }
    }
  }

  lemma {:induction false} FilledWith(users: Users, us: seq<UserSummary>)
    ensures var filled := ChatState.FillUsers(users, us);
            && (forall u :: u in us ==> u.id in filled)
            && forall id :: id in filled ==> (id in users && filled[id] == users[id])
                                             || exists u :: u in us && u.id == id && filled[id] == ChatState.UserOf(u)
    decreases |us|
  {
    if us != [] {
      assert us == [us[0]] + us[1..];
      var next := users[us[0].id := ChatState.UserOf(us[0])];
      FilledWith(next, us[1..]);
      FilledKeeps(next, us[1..]);
      var filled := ChatState.FillUsers(users, us);
      forall id | id in filled
        ensures (id in users && filled[id] == users[id]) || exists u :: u in us && u.id == id && filled[id] == ChatState.UserOf(u)
      {
        if exists u :: u in us[1..] && u.id == id && filled[id] == ChatState.UserOf(u) {
          var u :| u in us[1..] && u.id == id && filled[id] == ChatState.UserOf(u);
          assert u in us;
        } else if id == us[0].id {
          assert us[0] in us;
        }
      }
    }
  }

  lemma {:induction false} FilledKeeps(users: Users, us: seq<UserSummary>)
    ensures users.Keys <= ChatState.FillUsers(users, us).Keys
    decreases |us|
  {
    if us != [] { FilledKeeps(users[us[0].id := ChatState.UserOf(us[0])], us[1..]); }
  }

  /** The user list of `ready` is the roster. */
  lemma SnapshotAgrees(g: Gateway)
    requires Shape(g)
    ensures Agrees(g, ChatState.FillUsers(map[], WelcomedUsers(g, g.order)))
  {
    var us := WelcomedUsers(g, g.order);
    var view := ChatState.FillUsers(map[], us);
    WelcomedUsersAre(g, g.order);
    FilledWith(map[], us);
    forall id ensures AgreesAt(g, view, id) {
      if id in view {
        var u :| u in us && u.id == id && view[id] == ChatState.UserOf(u);
        var held :| held in g.order && Welcomed(g, held) && u == SummaryOf(g.sessions[g.byId[held]]);
        assert EntryOk(g, held);
      }
      if Welcomed(g, id) {
        assert EntryOk(g, id);
        assert SummaryOf(g.sessions[g.byId[id]]) in us;
      }
    }
  }
}
