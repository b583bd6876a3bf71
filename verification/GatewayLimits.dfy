/** Runs that are not orderly, and browsers they leave with a wrong user list for good. */
module GatewayLimits {
  import opened Text
  import opened ClientProtocol
  import opened BackendLines
  import opened Gateway
  import opened GatewayRoster
  import opened GatewayTheorems
  import D = Database
  import C = ChatState

  ghost predicate Reachable(g: Gateway) {
    exists gs, es :: Run(gs, es) && gs[|gs| - 1] == g
  }

  lemma StartReachable()
    ensures Reachable(EmptyGateway())
  {
    var gs: seq<Gateway>, es: seq<Event> := [EmptyGateway()], [];
    assert Run(gs, es) && gs[|gs| - 1] == EmptyGateway();
  }

  lemma Extend(g: Gateway, e: Event, g': Gateway)
    requires Reachable(g) && Step(g, e, g')
    ensures Reachable(g')
  {
    var gs, es :| Run(gs, es) && gs[|gs| - 1] == g;
    var more, events := gs + [g'], es + [e];
    forall i | 0 <= i < |events| ensures Step(more[i], events[i], more[i + 1]) {
      assert i < |es| ==> Step(gs[i], es[i], gs[i + 1]);
    }
    assert Run(more, events) && more[|more| - 1] == g';
  }

  predicate Valid(a: Account) { ColonFree(a.id) && a.id != "" && ValidNickname(a.username) }

  /** A watching browser that disagrees with the roster about `id`, whatever it showed before and whatever its user
      did, once it has reduced everything it was sent. */
  ghost predicate Misled(g: Gateway, s: Sock, id: Id) {
    && s in g.sessions && Watches(g.sessions[s])
    && forall c: C.ChatState, inputs: seq<Input> ::
         (forall i :: 0 <= i < |inputs| ==> InputOk(inputs[i])) && Received(inputs) == g.sessions[s].ws.sent ==>
           !AgreesAt(g, BrowserAfter(c, inputs).users, id)
  }

  lemma MisledByView(g: Gateway, s: Sock, id: Id)
    requires s in g.sessions && Watches(g.sessions[s])
    requires forall base :: !AgreesAt(g, View(base, g.sessions[s].ws.sent), id)
    ensures Misled(g, s, id)
  {
    forall c: C.ChatState, inputs: seq<Input>
      | (forall i :: 0 <= i < |inputs| ==> InputOk(inputs[i])) && Received(inputs) == g.sessions[s].ws.sent
      ensures !AgreesAt(g, BrowserAfter(c, inputs).users, id)
    {
      BrowserShowsItsView(c, inputs);
      assert !AgreesAt(g, View(c.users, g.sessions[s].ws.sent), id);
    }
  }

  // Pieces of runs.

  /** A browser opens, asks to log in and perhaps gives up. */
  lemma Asks(g: Gateway, s: Sock, gaveUp: bool) returns (g': Gateway)
    requires Reachable(g) && s !in g.sessions
    ensures Reachable(g')
    ensures g' == g.(supply := g.supply + 1, sessions := g.sessions[s :=
              NewSession(Decimal(g.supply)).(closed := gaveUp, ws := Socket(!gaveUp, []), authsInFlight := 1)])
  {
    var g1 := Handle(g, Opened(s));
    Extend(g, Opened(s), g1);
    g' := Handle(g1, AuthRequested(s));
    Extend(g1, AuthRequested(s), g');
    if gaveUp {
      var g3 := Handle(g', SocketClosed(s));
      Extend(g', SocketClosed(s), g3);
      g' := g3;
    }
  }

  lemma LetIn(asked: Gateway, s: Sock, a: Account, more: nat)
    requires s in asked.sessions && asked.sessions[s].authsInFlight == more + 1 && a.id !in asked.byId
    ensures var g' := OnAuthOutcome(asked, s, Accepted(a));
            && g'.sessions == asked.sessions[s := Authenticated(asked.sessions[s].(authsInFlight := more), a)]
            && g'.byId == asked.byId[a.id := s] && g'.order == asked.order + [a.id]
  {
  }

  /** It is let in all the same: its session afterwards. */
  lemma Joins(g: Gateway, s: Sock, a: Account, gaveUp: bool) returns (g': Gateway)
    requires Reachable(g) && s !in g.sessions && a.id !in g.byId && Valid(a)
    ensures Reachable(g')
    ensures g'.sessions.Keys == g.sessions.Keys + {s} && g'.byId == g.byId[a.id := s] && g'.order == g.order + [a.id]
    ensures forall t :: t in g.sessions ==> g'.sessions[t] == g.sessions[t]
    ensures g'.sessions[s] ==
            NewSession(Decimal(g.supply)).(id := a.id, authenticated := true, desired := Some(a.username), closed := gaveUp,
                                           ws := Socket(!gaveUp, []), backend := Backend(BackendConnecting, []))
  {
    var asked := Asks(g, s, gaveUp);
    LetIn(asked, s, a, 0);
    g' := Handle(asked, AuthDone(s, Accepted(a)));
    Extend(asked, AuthDone(s, Accepted(a)), g');
  }

  /** Its backend connects and welcomes it by another name than its own. */
  lemma IsWelcomed(g: Gateway, s: Sock, a: Account) returns (g': Gateway)
    requires Reachable(g) && HasBackend(g, s, BackendConnecting) && !g.sessions[s].welcomed
    requires g.sessions[s].desired == Some(a.username) && a.username != ""
    ensures Reachable(g')
    ensures g'.sessions.Keys == g.sessions.Keys && g'.byId == g.byId && g'.order == g.order
    ensures forall t :: t in g.sessions && t != s ==> g'.sessions[t] == g.sessions[t]
    ensures g'.sessions[s].welcomed && g'.sessions[s].closed == g.sessions[s].closed && g'.sessions[s].id == g.sessions[s].id
    ensures g'.sessions[s].authenticated == g.sessions[s].authenticated && g'.sessions[s].ws == g.sessions[s].ws
  {
    var g1 := Handle(g, BackendConnected(s));
    Extend(g, BackendConnected(s), g1);
    var e := BackendSays(s, Welcome(a.username + "1"));
    g' := Handle(g1, e);
    Extend(g1, e, g');
  }

  lemma {:induction false} RecipientsHear(g: Gateway, ids: seq<Id>, exclude: Option<Id>)
    ensures forall t :: t in Recipients(g, ids, exclude) ==>
              t in g.sessions && g.sessions[t].welcomed && exclude != Some(g.sessions[t].id)
    decreases |ids|
  {
    if ids != [] { RecipientsHear(g, ids[1..], exclude); }
  }

  /** A session that is no target, or whose socket is shut, is left alone. */
  lemma {:induction false} SendManySpares(g: Gateway, targets: seq<Sock>, m: ServerMessage, t: Sock)
    requires t in g.sessions && (t in targets ==> !g.sessions[t].ws.open)
    ensures t in SendMany(g, targets, m).sessions && SendMany(g, targets, m).sessions[t] == g.sessions[t]
    ensures SendMany(g, targets, m).sessions.Keys == g.sessions.Keys
    ensures SendMany(g, targets, m).byId == g.byId && SendMany(g, targets, m).order == g.order
    decreases |targets|
  {
    if targets != [] {
      assert targets == [targets[0]] + targets[1..];
      SendManySpares(SendTo(g, targets[0], m), targets[1..], m, t);
    }
  }

  /** Its backend welcomes it by its own name and it becomes ready: `seen` is the roster that its snapshot shows. */
  lemma BecomesReady(g: Gateway, s: Sock, a: Account) returns (seen: Gateway, g': Gateway)
    requires Reachable(g) && HasBackend(g, s, BackendConnecting) && !g.sessions[s].welcomed && !g.sessions[s].readyAnnounced
    requires g.sessions[s].desired == Some(a.username) && g.sessions[s].id == a.id
    requires g.sessions[s].pending == [] && g.sessions[s].ws == Socket(true, [])
    ensures Reachable(g')
    ensures g'.sessions.Keys == g.sessions.Keys && g'.byId == g.byId && g'.order == g.order
    ensures forall t :: t in g.sessions && t != s && (!g.sessions[t].welcomed || !g.sessions[t].ws.open) ==>
              g'.sessions[t] == g.sessions[t]
    ensures s in seen.sessions && s in g'.sessions
    ensures seen.byId == g.byId && seen.order == g.order && seen.sessions == g.sessions[s := seen.sessions[s]]
    ensures seen.sessions[s].welcomed && seen.sessions[s].id == a.id
    ensures g'.sessions[s] == Write(seen.sessions[s], ReadyFor(seen, seen.sessions[s]))
    ensures seen.sessions[s].readyAnnounced && seen.sessions[s].ws == Socket(true, [])
    ensures seen.sessions[s].authenticated == g.sessions[s].authenticated && seen.sessions[s].closed == g.sessions[s].closed
  {
    var g1 := Handle(g, BackendConnected(s));
    Extend(g, BackendConnected(s), g1);
    var e := BackendSays(s, Welcome(a.username));
    g' := Handle(g1, e);
    Extend(g1, e, g');
    var x := g1.sessions[s].(welcomed := true, nickname := a.username);
    var greeted := With(g1, s, x);
    assert Claim(x).None? && g' == AnnounceReady(greeted, s);
    var y := x.(readyAnnounced := true);
    seen := With(greeted, s, y);
    assert seen.sessions == g.sessions[s := y];
    ReadyAlone(greeted, s, seen);
  }

  lemma ReadyAlone(greeted: Gateway, s: Sock, seen: Gateway)
    requires s in greeted.sessions && greeted.sessions[s].pending == []
    requires seen == With(greeted, s, greeted.sessions[s].(readyAnnounced := true))
    ensures var g' := AnnounceReady(greeted, s);
            && g'.sessions.Keys == greeted.sessions.Keys && g'.byId == greeted.byId && g'.order == greeted.order
            && g'.sessions[s] == Write(seen.sessions[s], ReadyFor(seen, seen.sessions[s]))
            && forall t :: t in greeted.sessions && t != s && (!greeted.sessions[t].welcomed || !greeted.sessions[t].ws.open) ==>
                 g'.sessions[t] == greeted.sessions[t]
  {
    var y := seen.sessions[s];
    var told := SendReady(seen, s);
    var targets := Recipients(told, told.order, Some(y.id));
    var m := UserUpdate(SummaryOf(y));
    RecipientsHear(told, told.order, Some(y.id));
    var announced := SendMany(told, targets, m);
    assert Announce(greeted, s) == announced;
    SendManySpares(told, targets, m, s);
    forall t | t in greeted.sessions && t != s && (!greeted.sessions[t].welcomed || !greeted.sessions[t].ws.open)
      ensures announced.sessions[t] == greeted.sessions[t]
    {
      SendManySpares(told, targets, m, t);
    }
    assert announced.sessions[s].pending == [];
    assert AnnounceReady(greeted, s) == With(announced, s, announced.sessions[s]);
  }

  /** What a browser shows that was sent one `ready` and nothing else. */
  lemma ViewOfReady(base: Users, seen: Gateway, x: Session, id: Id)
    requires x.ws == Socket(true, [])
    ensures var sent := Write(x, ReadyFor(seen, x)).ws.sent;
            HasReady(sent) && (id in View(base, sent) <==> CardOf(seen, seen.order, id).Some?)
  {
    ViewSnoc(base, [], ReadyFor(seen, x));
    assert [] + [ReadyFor(seen, x)] == Write(x, ReadyFor(seen, x)).ws.sent;
    SnapshotShowsCard(seen, map[], seen.order, id);
  }

  lemma CardOfTwo(g: Gateway, a: Id, b: Id, id: Id)
    ensures CardOf(g, [a], id).Some? <==> Welcomed(g, a) && g.sessions[g.byId[a]].id == id
    ensures CardOf(g, [a, b], id).Some? <==>
            (Welcomed(g, a) && g.sessions[g.byId[a]].id == id) || (Welcomed(g, b) && g.sessions[g.byId[b]].id == id)
  {
    assert CardOf(g, [], id).None?;
    assert [a][1..] == [] && [b][1..] == [] && [a, b][1..] == [b];
  }

  // The runs.

  /** What the runs below end in: session w was sent `ready` when the roster was `seen`. */
  predicate Watching(seen: Gateway, g: Gateway, w: Sock) {
    && w in seen.sessions && seen.sessions[w].ws == Socket(true, [])
    && w in g.sessions && g.sessions[w] == Write(seen.sessions[w], ReadyFor(seen, seen.sessions[w]))
  }

  /** It showed an id that is welcomed no more. */
  lemma ShowsGone(seen: Gateway, g: Gateway, w: Sock, id: Id)
    requires Watching(seen, g, w) && CardOf(seen, seen.order, id).Some? && !Welcomed(g, id)
    ensures Misled(g, w, id)
  {
    ViewOfReady(map[], seen, seen.sessions[w], id);
    forall base ensures !AgreesAt(g, View(base, g.sessions[w].ws.sent), id) { ViewOfReady(base, seen, seen.sessions[w], id); }
    MisledByView(g, w, id);
  }

  /** It lacks an id that is announced. */
  lemma LacksAnnounced(seen: Gateway, g: Gateway, w: Sock, id: Id)
    requires Watching(seen, g, w) && CardOf(seen, seen.order, id).None? && Announced(g, id)
    ensures Misled(g, w, id)
  {
    ViewOfReady(map[], seen, seen.sessions[w], id);
    forall base ensures !AgreesAt(g, View(base, g.sessions[w].ws.sent), id) { ViewOfReady(base, seen, seen.sessions[w], id); }
    MisledByView(g, w, id);
  }

  /** A socket closes during its key derivation and is let in all the same: a ghost that everybody sees. When its account
      logs in again, the browsers that saw the ghost go on showing a user who is not welcomed. */
  lemma GhostAfterCloseDuringLogin(a: Account, b: Account)
    requires Valid(a) && Valid(b) && a.id != b.id
    ensures exists g, s :: Reachable(g) && Misled(g, s, a.id)
  {
    var ghost1 := Ghost(a);
    var seen, watched := WatchesGhost(ghost1, a, b);
    var g := ComesBack(watched, a);
    ShowsGone(seen, g, 1, a.id);
    assert Reachable(g) && Misled(g, 1, a.id);
  }

  lemma Ghost(a: Account) returns (g: Gateway)
    requires Valid(a)
    ensures Reachable(g) && g.order == [a.id] && g.byId == map[a.id := 0] && g.sessions.Keys == {0}
    ensures g.sessions[0].welcomed && g.sessions[0].closed && g.sessions[0].id == a.id && !g.sessions[0].ws.open
  {
    StartReachable();
    var joined := Joins(EmptyGateway(), 0, a, true);
    g := IsWelcomed(joined, 0, a);
  }

  lemma WatchesGhost(g: Gateway, a: Account, b: Account) returns (seen: Gateway, g': Gateway)
    requires Valid(b) && a.id != b.id && Reachable(g) && g.order == [a.id] && g.byId == map[a.id := 0] && g.sessions.Keys == {0}
    requires g.sessions[0].welcomed && g.sessions[0].closed && g.sessions[0].id == a.id && !g.sessions[0].ws.open
    ensures Reachable(g') && g'.byId == map[a.id := 0, b.id := 1] && g'.sessions.Keys == {0, 1} && g'.sessions[0].closed
    ensures Watching(seen, g', 1) && CardOf(seen, seen.order, a.id).Some?
  {
    var joined := Joins(g, 1, b, false);
    assert joined.order == [a.id, b.id];
    seen, g' := BecomesReady(joined, 1, b);
    CardOfTwo(seen, a.id, b.id, a.id);
  }

  lemma ComesBack(g: Gateway, a: Account) returns (g': Gateway)
    requires Valid(a) && Reachable(g) && g.sessions.Keys == {0, 1} && a.id in g.byId && g.byId[a.id] == 0 && g.sessions[0].closed
    ensures Reachable(g') && !Welcomed(g', a.id) && 1 in g'.sessions && g'.sessions[1] == g.sessions[1]
  {
    var asked := Asks(g, 2, false);
    g' := Handle(asked, AuthDone(2, Accepted(a)));
    Extend(asked, AuthDone(2, Accepted(a)), g');
  }

  /** A failed backend connect removes its roster entry at once and again when its socket closes. The second removal hits
      the session that logged in between: it stays connected, and shows itself as online while it is so for nobody. */
  lemma LostAfterFailedConnect(a: Account)
    requires Valid(a)
    ensures exists g, s :: Reachable(g) && Misled(g, s, a.id) && g.sessions[s].id == a.id && !g.sessions[s].closed && a.id !in g.byId
  {
    var refused := IsRefused(a);
    var seen, ready := LogsInAgain(refused, a);
    var g := Handle(ready, SocketClosed(0));
    Extend(ready, SocketClosed(0), g);
    assert g.sessions[1] == ready.sessions[1];
    ShowsGone(seen, g, 1, a.id);
    assert Reachable(g) && Misled(g, 1, a.id);
  }

  lemma IsRefused(a: Account) returns (g: Gateway)
    requires Valid(a)
    ensures Reachable(g) && g.order == [] && g.byId == map[] && g.sessions.Keys == {0}
    ensures var x := g.sessions[0]; x.id == a.id && x.authenticated && !x.closed && !x.welcomed && !x.ws.open
  {
    StartReachable();
    var joined := Joins(EmptyGateway(), 0, a, false);
    g := Handle(joined, BackendRefused(0));
    Extend(joined, BackendRefused(0), g);
    assert joined.order == [a.id];
    OneIdGone(a.id);
  }

  lemma OneIdGone(id: Id)
    ensures Without([id], id) == []
  {
    assert [id][1..] == [];
  }

  lemma LogsInAgain(g: Gateway, a: Account) returns (seen: Gateway, g': Gateway)
    requires Valid(a) && Reachable(g) && g.order == [] && g.byId == map[] && g.sessions.Keys == {0}
    requires var x := g.sessions[0]; x.id == a.id && x.authenticated && !x.closed && !x.welcomed && !x.ws.open
    ensures Reachable(g') && g'.byId == map[a.id := 1] && g'.sessions.Keys == {0, 1} && g'.sessions[0] == g.sessions[0]
    ensures g'.sessions[1].id == a.id && !g'.sessions[1].closed
    ensures Watching(seen, g', 1) && CardOf(seen, seen.order, a.id).Some?
  {
    var joined := Joins(g, 1, a, false);
    assert joined.order == [a.id];
    seen, g' := BecomesReady(joined, 1, a);
    CardOfTwo(seen, a.id, a.id, a.id);
  }

  /** Two logins in flight on one socket: the roster leads from the first account to a session of the second. The session
      is announced under the first id as well, and no browser lists that. */
  lemma TwoNamesAfterTwoLogins(a: Account, b: Account)
    requires Valid(a) && Valid(b) && a.id != b.id
    ensures exists g, s :: Reachable(g) && Misled(g, s, a.id) && Announced(g, a.id) && g.sessions[g.byId[a.id]].id == b.id
  {
    var twice := LogsInTwice(a, b);
    var seen, g := ReadyAsSecond(twice, a, b);
    LacksAnnounced(seen, g, 0, a.id);
    assert Reachable(g) && Misled(g, 0, a.id);
  }

  lemma ReadyAsSecond(g: Gateway, a: Account, b: Account) returns (seen: Gateway, g': Gateway)
    requires a.id != b.id && Reachable(g) && g.order == [a.id, b.id] && g.byId == map[a.id := 0, b.id := 0] && 0 in g.sessions
    requires var x := g.sessions[0];
             && x.id == b.id && x.desired == Some(b.username) && x.backend.status == BackendConnecting
             && !x.welcomed && !x.readyAnnounced && x.pending == [] && x.ws == Socket(true, [])
    ensures Reachable(g') && Watching(seen, g', 0) && CardOf(seen, seen.order, a.id).None?
    ensures Announced(g', a.id) && g'.byId == g.byId && g'.sessions[0].id == b.id
  {
    seen, g' := BecomesReady(g, 0, b);
    UnseenFirst(seen, a.id, b.id);
  }

  lemma UnseenFirst(g: Gateway, a: Id, b: Id)
    requires a != b && g.order == [a, b] && g.byId == map[a := 0, b := 0] && 0 in g.sessions && g.sessions[0].id == b
    ensures CardOf(g, g.order, a).None?
  {
    CardOfTwo(g, a, b, a);
  }

  lemma LogsInTwice(a: Account, b: Account) returns (g: Gateway)
    requires Valid(a) && Valid(b) && a.id != b.id
    ensures Reachable(g) && g.order == [a.id, b.id] && g.byId == map[a.id := 0, b.id := 0] && 0 in g.sessions
    ensures var x := g.sessions[0];
            && x.id == b.id && x.desired == Some(b.username) && x.backend.status == BackendConnecting
            && !x.welcomed && !x.readyAnnounced && x.pending == [] && x.ws == Socket(true, [])
  {
    var asked := AsksTwice();
    LetIn(asked, 0, a, 1);
    var first := Handle(asked, AuthDone(0, Accepted(a)));
    Extend(asked, AuthDone(0, Accepted(a)), first);
    LetIn(first, 0, b, 0);
    g := Handle(first, AuthDone(0, Accepted(b)));
    Extend(first, AuthDone(0, Accepted(b)), g);
    assert first.order == [a.id] && [a.id] + [b.id] == [a.id, b.id];
  }

  lemma AsksTwice() returns (g: Gateway)
    ensures Reachable(g) && g.order == [] && g.byId == map[] && 0 in g.sessions
    ensures g.sessions[0] == NewSession(Decimal(0)).(authsInFlight := 2)
  {
    StartReachable();
    var once := Asks(EmptyGateway(), 0, false);
    g := Handle(once, AuthRequested(0));
    Extend(once, AuthRequested(0), g);
  }
}
