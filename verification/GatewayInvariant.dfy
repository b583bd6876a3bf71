/** What holds of the gateway after every run, orderly or not: the database, the session fields, the queues. */
module GatewayInvariant {
  import opened Text
  import opened ClientProtocol
  import opened BackendLines
  import opened Gateway
  import opened GatewayFrames
  import opened GatewayStores
  import D = Database
  import ChatState
  import ChatStateProofs

  // Frames.

  /** A session without what requests and relays change. */
  function Core(x: Session): Session {
    x.(presence := Online, ws := Socket(x.ws.open, []), backend := Backend(x.backend.status, []))
  }

  ghost predicate CoreKept(g: Gateway, g': Gateway) {
    && SameRoster(g, g')
    && forall s :: s in g.sessions ==> Core(g'.sessions[s]) == Core(g.sessions[s])
  }

  /** Only what may be shown to a client was sent. */
  ghost predicate SentOk(g: Gateway) {
    forall s, m :: s in g.sessions && m in g.sessions[s].ws.sent ==> Presentable(m)
  }

  lemma QuietKeepsCore(g: Gateway, g': Gateway)
    requires Quiet(g, g')
    ensures CoreKept(g, g')
  {
    forall s | s in g.sessions ensures Core(g'.sessions[s]) == Core(g.sessions[s]) {
      assert QuietSession(g.sessions[s], g'.sessions[s]);
    }
  }

  lemma QuietKeepsSent(g: Gateway, g': Gateway)
    requires Quiet(g, g') && SentOk(g)
    ensures SentOk(g')
  {
    forall s, m | s in g'.sessions && m in g'.sessions[s].ws.sent ensures Presentable(m) {
      assert QuietSession(g.sessions[s], g'.sessions[s]);
      if m !in g.sessions[s].ws.sent {
        var i :| 0 <= i < |g'.sessions[s].ws.sent| && g'.sessions[s].ws.sent[i] == m;
        assert i >= |g.sessions[s].ws.sent|;
      }
    }
  }

  lemma SendToKeepsSent(g: Gateway, s: Sock, m: ServerMessage)
    requires SentOk(g) && Presentable(m)
    ensures SentOk(SendTo(g, s, m))
  {
    if s in g.sessions {
      assert forall n :: n in Write(g.sessions[s], m).ws.sent ==> n in g.sessions[s].ws.sent || n == m;
    }
  }

  lemma SendToKeepsCore(g: Gateway, s: Sock, m: ServerMessage)
    ensures CoreKept(g, SendTo(g, s, m))
    ensures SentOk(g) && Presentable(m) ==> SentOk(SendTo(g, s, m))
  {
    if SentOk(g) && Presentable(m) { SendToKeepsSent(g, s, m); }
    if s in g.sessions { assert Core(Write(g.sessions[s], m)) == Core(g.sessions[s]); }
  }

  lemma {:induction false} SendManyKeepsCore(g: Gateway, targets: seq<Sock>, m: ServerMessage)
    ensures CoreKept(g, SendMany(g, targets, m))
    ensures SentOk(g) && Presentable(m) ==> SentOk(SendMany(g, targets, m))
    decreases |targets|
  {
    if targets != [] {
      SendToKeepsCore(g, targets[0], m);
      SendManyKeepsCore(SendTo(g, targets[0], m), targets[1..], m);
    }
  }

  lemma BroadcastKeepsCore(g: Gateway, m: ServerMessage, exclude: Option<Id>)
    requires Presentable(m)
    ensures CoreKept(g, Broadcast(g, m, exclude)) && Broadcast(g, m, exclude).db == g.db
    ensures Broadcast(g, m, exclude).supply == g.supply
    ensures SentOk(g) ==> SentOk(Broadcast(g, m, exclude))
  {
    SendManyKeepsCore(g, Recipients(g, g.order, exclude), m);
    SendManyKeepsStores(g, Recipients(g, g.order, exclude), m);
  }

  // What a login restores is presentable.

  lemma {:induction false} ListedIsPresentable(t: D.Tables, rows: seq<D.MemberRow>, user: Id)
    requires D.ConversationsOk(t)
    ensures forall c :: c in D.Listed(t, rows, user) ==> ChatStateProofs.SummaryOk(c)
  {
    if rows != [] {
      ListedIsPresentable(t, rows[1..], user);
      forall c | c in D.Listed(t, rows, user) ensures ChatStateProofs.SummaryOk(c) {
        if c !in D.Listed(t, rows[1..], user) {
          assert c == D.Summarize(t, rows[0].conversation, user) && c.kind != PublicKind;
          assert c.id == rows[0].conversation && t.conversations[c.id].kind == c.kind;
          assert c.id != PUBLIC_CONVERSATION_ID;
        }
      }
    }
  }

  lemma ReadyIsPresentable(g: Gateway, x: Session)
    requires D.TablesOk(g.db) && PersistentId(x.id)
    ensures Presentable(ReadyFor(g, x))
  {
    ListedIsPresentable(g.db, g.db.members, x.id);
    var cs := ReadyFor(g, x).conversations;
    forall i | 0 <= i < |cs| ensures ChatStateProofs.SummaryOk(cs[i]) {
      if i > 0 { assert cs[i] in D.ConversationsFor(g.db, x.id); }
    }
  }

  // Requests.

  lemma PresenceKeepsCore(g: Gateway, s: Sock, presence: Presence)
    requires s in g.sessions
    ensures CoreKept(g, SetPresenceOf(g, s, presence))
    ensures SentOk(g) ==> SentOk(SetPresenceOf(g, s, presence))
  {
    var x := g.sessions[s].(presence := presence);
    BroadcastKeepsCore(With(g, s, x), UserUpdate(SummaryOf(x)), None);
  }

  lemma RequestKeepsCore(g: Gateway, s: Sock, m: ClientMessage)
    requires s in g.sessions
    ensures CoreKept(g, HandleClientMessage(g, s, m))
  {
    if m.SetPresence? { PresenceKeepsCore(g, s, m.presence); }
    else if m.RequestState? { SendToKeepsCore(g, s, ReadyFor(g, g.sessions[s])); }
    else { QuietRequest(g, s, m); QuietKeepsCore(g, HandleClientMessage(g, s, m)); }
  }

  lemma RequestKeepsSent(g: Gateway, s: Sock, m: ClientMessage)
    requires s in g.sessions && SentOk(g) && D.TablesOk(g.db) && PersistentId(g.sessions[s].id)
    ensures SentOk(HandleClientMessage(g, s, m))
  {
    if m.SetPresence? { PresenceKeepsCore(g, s, m.presence); }
    else if m.RequestState? {
      ReadyIsPresentable(g, g.sessions[s]);
      SendToKeepsCore(g, s, ReadyFor(g, g.sessions[s]));
    }
    else { QuietRequest(g, s, m); QuietKeepsSent(g, HandleClientMessage(g, s, m)); }
  }

  // The queue.

  /** Everything queued is replayed or still pending, in its order; nothing is replayed before the session is ready,
      and nothing is left over after. */
  predicate QueueOk(x: Session) {
    && x.log.queued == x.log.replayed + x.pending
    && (!x.readyAnnounced ==> x.log.replayed == [])
    && (x.readyAnnounced ==> x.pending == [])
  }

  ghost predicate QueuesOk(g: Gateway) {
    forall s :: s in g.sessions ==> QueueOk(g.sessions[s])
  }

  ghost predicate RunOk(g: Gateway) {
    StoreReady(g) && IdsOk(g) && SentOk(g) && QueuesOk(g)
  }

  lemma CoreKeepsFields(g: Gateway, g': Gateway)
    requires CoreKept(g, g')
    ensures IdsOk(g) ==> IdsOk(g')
    ensures QueuesOk(g) ==> QueuesOk(g')
  {
    forall s | s in g.sessions ensures IdOk(g.sessions[s]) ==> IdOk(g'.sessions[s]) ensures QueueOk(g.sessions[s]) ==> QueueOk(g'.sessions[s]) {
      CoreKeepsSession(g.sessions[s], g'.sessions[s]);
    }
  }

  lemma CoreKeepsSession(x: Session, x': Session)
    requires Core(x) == Core(x')
    ensures IdOk(x) <==> IdOk(x')
    ensures QueueOk(x) <==> QueueOk(x')
    ensures x'.id == x.id && x'.authenticated == x.authenticated && x'.welcomed == x.welcomed && x'.nickname == x.nickname
    ensures x'.readyAnnounced == x.readyAnnounced && x'.pending == x.pending && x'.log == x.log && x'.desired == x.desired
    ensures x'.closed == x.closed && x'.ws.open == x.ws.open && x'.backend.status == x.backend.status
    ensures x'.authsInFlight == x.authsInFlight
  {
    assert Core(x).id == x.id && Core(x').id == x'.id;
    assert Core(x).ws.open == x.ws.open && Core(x').ws.open == x'.ws.open;
    assert Core(x).backend.status == x.backend.status && Core(x').backend.status == x'.backend.status;
  }

  /** After replaying `ms` only the replay log of `s` has grown, by exactly `ms`. */
  ghost predicate Replayed(g: Gateway, g': Gateway, s: Sock, ms: seq<ClientMessage>) {
    && SameRoster(g, g') && s in g.sessions
    && (forall t :: t in g.sessions && t != s ==> Core(g'.sessions[t]) == Core(g.sessions[t]))
    && Core(g'.sessions[s]) == Core(Started(g.sessions[s], ms))
  }

  function Started(x: Session, ms: seq<ClientMessage>): Session {
    x.(log := x.log.(replayed := x.log.replayed + ms))
  }

  lemma ReplayOne(g: Gateway, s: Sock, m: ClientMessage)
    requires s in g.sessions && StoreReady(g) && IdsOk(g) && SentOk(g) && g.sessions[s].authenticated
    ensures var next := HandleClientMessage(With(g, s, Started(g.sessions[s], [m])), s, m);
            && Replayed(g, next, s, [m]) && StoreStep(g, next)
            && IdsOk(next) && SentOk(next) && next.sessions[s].authenticated
  {
    var started := With(g, s, Started(g.sessions[s], [m]));
    var next := HandleClientMessage(started, s, m);
    UnchangedStore(g, started);
    StartedIdOk(g, s, [m]);
    RequestStores(started, s, m);
    RequestKeepsCore(started, s, m);
    assert IdOk(started.sessions[s]);
    RequestKeepsSent(started, s, m);
    CoreKeepsFields(started, next);
    CoreKeepsSession(started.sessions[s], next.sessions[s]);
    StoreStepTransitive(g, started, next);
  }

  /** Replaying the queue starts each message once, in order, and keeps the database. */
  lemma {:induction false} ReplayStartsEach(g: Gateway, s: Sock, ms: seq<ClientMessage>)
    requires s in g.sessions && StoreReady(g) && IdsOk(g) && SentOk(g) && g.sessions[s].authenticated
    ensures Replayed(g, Replay(g, s, ms), s, ms)
    ensures StoreStep(g, Replay(g, s, ms)) && SentOk(Replay(g, s, ms))
    decreases |ms|
  {
    var x := g.sessions[s];
    if ms == [] {
      UnchangedStore(g, g);
      assert Started(x, ms) == x by { assert x.log.replayed + ms == x.log.replayed; }
    } else {
      var next := HandleClientMessage(With(g, s, Started(x, [ms[0]])), s, ms[0]);
      ReplayOne(g, s, ms[0]);
      ReplayStartsEach(next, s, ms[1..]);
      StoreStepTransitive(g, next, Replay(g, s, ms));
      ReplayedTwice(g, next, Replay(g, s, ms), s, ms);
    }
  }

  lemma StartedIdOk(g: Gateway, s: Sock, ms: seq<ClientMessage>)
    requires s in g.sessions && IdsOk(g) && SentOk(g)
    ensures IdsOk(With(g, s, Started(g.sessions[s], ms))) && SentOk(With(g, s, Started(g.sessions[s], ms)))
  {
    assert IdOk(g.sessions[s]);
  }

  lemma ReplayedTwice(a: Gateway, b: Gateway, c: Gateway, s: Sock, ms: seq<ClientMessage>)
    requires ms != [] && Replayed(a, b, s, [ms[0]]) && Replayed(b, c, s, ms[1..])
    ensures Replayed(a, c, s, ms)
  {
    var x, y := a.sessions[s], b.sessions[s];
    assert x.log.replayed + [ms[0]] + ms[1..] == x.log.replayed + ms;
    assert Core(Started(y, ms[1..])) == Started(Core(y), ms[1..]);
    assert Core(Started(x, [ms[0]])) == Started(Core(x), [ms[0]]);
    assert Core(Started(x, ms)) == Started(Core(x), ms);
    assert Started(Started(Core(x), [ms[0]]), ms[1..]) == Started(Core(x), ms);
  }

  // Becoming ready.

  predicate AllPresentable(ms: seq<ServerMessage>) {
    forall m :: m in ms ==> Presentable(m)
  }

  /** One session changes: the rest of the invariant stands. */
  lemma RunOkWith(g: Gateway, s: Sock, y: Session)
    requires RunOk(g) && IdOk(y) && QueueOk(y) && AllPresentable(y.ws.sent)
    ensures RunOk(With(g, s, y)) && StoreStep(g, With(g, s, y))
  {
    UnchangedStore(g, With(g, s, y));
  }

  lemma AnnounceKeepsCore(g: Gateway, s: Sock)
    requires s in g.sessions && StoreReady(g) && SentOk(g) && PersistentId(g.sessions[s].id)
    ensures var x := g.sessions[s].(readyAnnounced := true);
            && CoreKept(With(g, s, x), Announce(g, s)) && Announce(g, s).db == g.db && Announce(g, s).supply == g.supply
            && SentOk(Announce(g, s))
  {
    var x := g.sessions[s].(readyAnnounced := true);
    var g1 := With(g, s, x);
    assert x.ws == g.sessions[s].ws;
    assert SentOk(g1);
    ReadyIsPresentable(g1, x);
    SendToKeepsCore(g1, s, ReadyFor(g1, x));
    BroadcastKeepsCore(SendReady(g1, s), UserUpdate(SummaryOf(x)), Some(x.id));
  }

  ghost predicate MayAnnounce(g: Gateway, s: Sock) {
    s in g.sessions && g.sessions[s].authenticated && g.sessions[s].welcomed && !g.sessions[s].readyAnnounced
  }

  function Drained(x: Session): Session {
    x.(readyAnnounced := true, pending := [], log := x.log.(replayed := x.log.replayed + x.pending))
  }

  /** Becoming ready replays exactly what was queued; of the other sessions only what they are sent changes. */
  lemma AnnounceReadyDrains(g: Gateway, s: Sock)
    requires RunOk(g) && MayAnnounce(g, s)
    ensures var g' := AnnounceReady(g, s);
            && SameRoster(g, g') && StoreStep(g, g') && SentOk(g')
            && (forall t :: t in g.sessions && t != s ==> Core(g'.sessions[t]) == Core(g.sessions[t]))
            && Core(g'.sessions[s]) == Core(Drained(g.sessions[s]))
  {
    var x := g.sessions[s];
    assert IdOk(x) && QueueOk(x);
    AnnounceKeepsCore(g, s);
    var a := Announce(g, s);
    var emptied := With(a, s, a.sessions[s].(pending := []));
    UnchangedStore(g, emptied);
    EmptiedOk(g, a, s);
    ReplayStartsEach(emptied, s, a.sessions[s].pending);
    StoreStepTransitive(g, emptied, AnnounceReady(g, s));
    DrainedCore(x, a.sessions[s]);
  }

  lemma DrainedCore(x: Session, y: Session)
    requires Core(y) == Core(x.(readyAnnounced := true))
    ensures Core(Started(y.(pending := []), y.pending)) == Core(Drained(x))
  {
    CoreKeepsSession(x.(readyAnnounced := true), y);
    assert Core(Started(y.(pending := []), y.pending)) == Started(Core(y).(pending := []), y.pending);
    assert Core(Drained(x)) == Started(Core(x.(readyAnnounced := true)).(pending := []), x.pending);
  }

  lemma EmptiedOk(g: Gateway, a: Gateway, s: Sock)
    requires RunOk(g) && MayAnnounce(g, s) && SentOk(a)
    requires CoreKept(With(g, s, g.sessions[s].(readyAnnounced := true)), a)
    ensures var e := With(a, s, a.sessions[s].(pending := []));
            && IdsOk(e) && SentOk(e) && e.sessions[s].authenticated && SameRoster(g, e)
            && (forall t :: t in g.sessions && t != s ==> Core(e.sessions[t]) == Core(g.sessions[t]))
            && Core(a.sessions[s]) == Core(g.sessions[s].(readyAnnounced := true))
  {
    var x := g.sessions[s].(readyAnnounced := true);
    var e := With(a, s, a.sessions[s].(pending := []));
    forall t | t in e.sessions ensures IdOk(e.sessions[t]) {
      if t == s { CoreKeepsSession(x, a.sessions[s]); assert IdOk(g.sessions[s]); }
      else { CoreKeepsSession(g.sessions[t], a.sessions[t]); assert IdOk(g.sessions[t]); }
    }
    CoreKeepsSession(x, a.sessions[s]);
    assert e.sessions[s].ws.sent == a.sessions[s].ws.sent;
  }

  lemma AnnounceReadyOk(g: Gateway, s: Sock)
    requires RunOk(g) && MayAnnounce(g, s)
    ensures RunOk(AnnounceReady(g, s)) && StoreStep(g, AnnounceReady(g, s))
  {
    AnnounceReadyDrains(g, s);
    var g' := AnnounceReady(g, s);
    forall t | t in g'.sessions ensures IdOk(g'.sessions[t]) && QueueOk(g'.sessions[t]) {
      assert IdOk(g.sessions[t]) && QueueOk(g.sessions[t]);
      CoreKeepsSession(if t == s then Drained(g.sessions[s]) else g.sessions[t], g'.sessions[t]);
    }
  }

  // Events.

  lemma QuietKeepsRunOk(g: Gateway, g': Gateway)
    requires RunOk(g) && Quiet(g, g') && StoreStep(g, g')
    ensures RunOk(g')
  {
    QuietKeepsCore(g, g');
    QuietKeepsSent(g, g');
    CoreKeepsFields(g, g');
  }

  lemma WelcomeOk(g: Gateway, s: Sock, nickname: string)
    requires RunOk(g) && HasBackend(g, s, BackendOpen) && !g.sessions[s].welcomed
    ensures RunOk(OnWelcome(g, s, nickname)) && StoreStep(g, OnWelcome(g, s, nickname))
  {
    var x := g.sessions[s].(welcomed := true, nickname := nickname);
    assert IdOk(g.sessions[s]) && QueueOk(g.sessions[s]);
    RunOkWith(g, s, x);
    if Claim(x).Some? {
      var line := FormatNickCommand(Claim(x).value);
      LineIsQuiet(With(g, s, x), s, line);
      UnchangedStore(g, OnWelcome(g, s, nickname));
      UnchangedStore(With(g, s, x), OnWelcome(g, s, nickname));
      QuietKeepsRunOk(With(g, s, x), OnWelcome(g, s, nickname));
    } else {
      AnnounceReadyOk(With(g, s, x), s);
      StoreStepTransitive(g, With(g, s, x), OnWelcome(g, s, nickname));
    }
  }

  lemma NickOk(g: Gateway, s: Sock, oldNick: string, newNick: string)
    requires RunOk(g) && HasBackend(g, s, BackendOpen) && g.sessions[s].welcomed
    ensures RunOk(OnNick(g, s, oldNick, newNick)) && StoreStep(g, OnNick(g, s, oldNick, newNick))
  {
    var x := g.sessions[s];
    assert IdOk(x) && QueueOk(x);
    if oldNick != x.nickname {
      UnchangedStore(g, g);
    } else {
      var now := Renamed(x, newNick);
      RunOkWith(g, s, now);
      if !x.readyAnnounced {
        AnnounceReadyOk(With(g, s, now), s);
        StoreStepTransitive(g, With(g, s, now), OnNick(g, s, oldNick, newNick));
      } else {
        var told := Broadcast(With(g, s, now), UserUpdate(SummaryOf(now)), None);
        BroadcastKeepsCore(With(g, s, now), UserUpdate(SummaryOf(now)), None);
        CoreKeepsFields(With(g, s, now), told);
        UnchangedStore(g, OnNick(g, s, oldNick, newNick));
      }
    }
  }

  /** FindByNickname answers with the id of a welcomed session. */
  lemma {:induction false} FoundIsPersistent(g: Gateway, ids: seq<Id>, nickname: string)
    requires IdsOk(g)
    ensures FindByNickname(g, ids, nickname).Some? ==> PersistentId(FindByNickname(g, ids, nickname).value)
    decreases |ids|
  {
    if ids != [] {
      if Welcomed(g, ids[0]) { assert IdOk(g.sessions[g.byId[ids[0]]]); }
      FoundIsPersistent(g, ids[1..], nickname);
    }
  }

  lemma RelayOk(g: Gateway, s: Sock, e: BackendEvent)
    requires RunOk(g) && HasBackend(g, s, BackendOpen) && Supplied(BackendSays(s, e))
    requires !e.Welcome? && !e.Nick? && (e.Err? ==> g.sessions[s].readyAnnounced || e.code != "NICK_TAKEN")
    ensures RunOk(OnBackendEvent(g, s, e)) && StoreStep(g, OnBackendEvent(g, s, e))
  {
    var g' := OnBackendEvent(g, s, e);
    QuietEvent(g, s, e);
    assert IdOk(g.sessions[s]);
    if e.Priv? {
      FoundIsPersistent(g, g.order, e.sender);
      EnsureDirectStep(g, g.sessions[s].id, OrName(FindByNickname(g, g.order, e.sender), e.sender), g.supply + 1);
    } else if e.PrivSent? {
      FoundIsPersistent(g, g.order, e.recipient);
      EnsureDirectStep(g, g.sessions[s].id, OrName(FindByNickname(g, g.order, e.recipient), e.recipient), g.supply + 1);
    } else {
      UnchangedStore(g, g');
    }
    QuietKeepsRunOk(g, g');
  }

  lemma LoginRefusedOk(g: Gateway, s: Sock, code: string, text: string)
    requires RunOk(g) && s in g.sessions && !g.sessions[s].readyAnnounced && code == "NICK_TAKEN"
    ensures RunOk(OnErr(g, s, code, text)) && StoreStep(g, OnErr(g, s, code, text))
  {
    var x := g.sessions[s];
    assert IdOk(x) && QueueOk(x);
    DismissedOk(g, s, x, LoginFailed());
    UnchangedStore(g, OnErr(g, s, code, text));
  }

  lemma BackendEventOk(g: Gateway, s: Sock, e: BackendEvent)
    requires RunOk(g) && Enabled(g, BackendSays(s, e)) && Supplied(BackendSays(s, e))
    ensures RunOk(OnBackendEvent(g, s, e)) && StoreStep(g, OnBackendEvent(g, s, e))
  {
    if e.Welcome? { WelcomeOk(g, s, e.nickname); }
    else if e.Nick? { NickOk(g, s, e.oldNick, e.newNick); }
    else if e.Err? && !g.sessions[s].readyAnnounced && e.code == "NICK_TAKEN" {
      LoginRefusedOk(g, s, e.code, e.text);
    }
    else { RelayOk(g, s, e); }
  }

  lemma ClosedOk(g: Gateway, s: Sock)
    requires RunOk(g) && s in g.sessions
    ensures RunOk(OnClientClosed(g, s)) && StoreStep(g, OnClientClosed(g, s))
  {
    var x := g.sessions[s];
    assert IdOk(x) && QueueOk(x);
    RunOkWith(g, s, Closed(x));
    if !x.closed && x.authenticated {
      var removed := RosterDelete(With(g, s, Closed(x)), x.id);
      assert RunOk(removed);
      BroadcastKeepsCore(removed, UserOffline(x.id), Some(x.id));
      CoreKeepsFields(removed, Broadcast(removed, UserOffline(x.id), Some(x.id)));
      UnchangedStore(g, OnClientClosed(g, s));
    }
  }

  lemma ClientMessageOk(g: Gateway, s: Sock, m: ClientMessage)
    requires RunOk(g) && s in g.sessions
    ensures RunOk(OnClientMessage(g, s, m)) && StoreStep(g, OnClientMessage(g, s, m))
  {
    var x := g.sessions[s];
    assert IdOk(x) && QueueOk(x);
    if !x.authenticated || !x.welcomed {
      RunOkWith(g, s, x.(pending := x.pending + [m], log := x.log.(queued := x.log.queued + [m])));
    } else {
      RequestStores(g, s, m);
      RequestKeepsCore(g, s, m);
      RequestKeepsSent(g, s, m);
      CoreKeepsFields(g, HandleClientMessage(g, s, m));
    }
  }

  lemma AuthOk(g: Gateway, s: Sock, outcome: AuthOutcome)
    requires RunOk(g) && s in g.sessions && g.sessions[s].authsInFlight > 0 && Supplied(AuthDone(s, outcome))
    ensures RunOk(OnAuthOutcome(g, s, outcome)) && StoreStep(g, OnAuthOutcome(g, s, outcome))
  {
    var x := g.sessions[s].(authsInFlight := g.sessions[s].authsInFlight - 1);
    var g' := OnAuthOutcome(g, s, outcome);
    assert IdOk(g.sessions[s]) && QueueOk(g.sessions[s]);
    UnchangedStore(g, g');
    AuthSession(g, s, outcome);
    var y := g'.sessions[s];
    RunOkWith(g, s, y);
  }

  lemma AuthSession(g: Gateway, s: Sock, outcome: AuthOutcome)
    requires s in g.sessions && g.sessions[s].authsInFlight > 0 && Supplied(AuthDone(s, outcome))
    requires IdOk(g.sessions[s]) && QueueOk(g.sessions[s]) && AllPresentable(g.sessions[s].ws.sent)
    ensures var g' := OnAuthOutcome(g, s, outcome);
            && g'.sessions == With(g, s, g'.sessions[s]).sessions
            && IdOk(g'.sessions[s]) && QueueOk(g'.sessions[s]) && AllPresentable(g'.sessions[s].ws.sent)
  {
    var x := g.sessions[s].(authsInFlight := g.sessions[s].authsInFlight - 1);
    if outcome.Refused? {
      assert Presentable(ErrorOf(outcome.code, outcome.text));
    } else if HeldElsewhere(g, outcome.account.id) {
      assert Presentable(AlreadyLoggedIn());
    } else {
      assert OnAuthOutcome(g, s, outcome).sessions[s] == Authenticated(x, outcome.account);
    }
  }

  lemma TickOk(g: Gateway, time: nat)
    requires RunOk(g) && g.now <= time
    ensures RunOk(g.(now := time)) && StoreStep(g, g.(now := time))
  {
    UnchangedStore(g, g.(now := time));
  }

  lemma OpenedOk(g: Gateway, s: Sock)
    requires RunOk(g) && s !in g.sessions
    ensures RunOk(OnConnection(g, s)) && StoreStep(g, OnConnection(g, s))
  {
    RunOkWith(g, s, NewSession(Decimal(g.supply)));
    UnchangedStore(g, OnConnection(g, s));
  }

  /** Every event keeps the invariant and the database. */
  lemma RunOkStep(g: Gateway, e: Event, g': Gateway)
    requires RunOk(g) && Step(g, e, g')
    ensures RunOk(g') && StoreStep(g, g')
  {
    if e.Tick? { TickOk(g, e.time); }
    else if e.Opened? { OpenedOk(g, e.sock); }
    else if e.BackendSays? { BackendEventOk(g, e.sock, e.said); }
    else if e.ClientSays? { ClientMessageOk(g, e.sock, e.message); }
    else if e.SocketClosed? { ClosedOk(g, e.sock); }
    else if e.AuthDone? { AuthOk(g, e.sock, e.outcome); }
    else { PlainEventOk(g, e, g'); }
  }

  lemma DismissedOk(g: Gateway, s: Sock, x: Session, m: ServerMessage)
    requires RunOk(g) && IdOk(x) && QueueOk(x) && AllPresentable(x.ws.sent) && Presentable(m)
    ensures RunOk(With(g, s, Dismissed(x, m))) && RunOk(With(g, s, Write(x, m)))
  {
    var y := Write(x, m);
    assert forall n :: n in y.ws.sent ==> n in x.ws.sent || n == m;
    RunOkWith(g, s, y);
    RunOkWith(g, s, CloseSocket(y));
  }

  lemma ConnectedOk(g: Gateway, s: Sock)
    requires RunOk(g) && HasBackend(g, s, BackendConnecting)
    ensures RunOk(OnBackendConnected(g, s)) && StoreStep(g, OnBackendConnected(g, s))
  {
    var x := g.sessions[s];
    assert IdOk(x) && QueueOk(x);
    RunOkWith(g, s, x.(backend := x.backend.(status := BackendOpen)));
  }

  lemma MalformedOk(g: Gateway, s: Sock, code: string, text: string)
    requires RunOk(g) && s in g.sessions
    ensures var g' := SendTo(g, s, ErrorOf(code, text)); RunOk(g') && StoreStep(g, g')
  {
    assert IdOk(g.sessions[s]) && QueueOk(g.sessions[s]);
    DismissedOk(g, s, g.sessions[s], ErrorOf(code, text));
    UnchangedStore(g, SendTo(g, s, ErrorOf(code, text)));
  }

  lemma PlainEventOk(g: Gateway, e: Event, g': Gateway)
    requires RunOk(g) && Step(g, e, g')
    requires e.AuthRequested? || e.BackendConnected? || e.BackendRefused? || e.BackendLost? || e.ClientMalformed? || e.LogoutRequested?
    ensures RunOk(g') && StoreStep(g, g')
  {
    var s := e.sock;
    if e.BackendConnected? { ConnectedOk(g, s); }
    else if e.ClientMalformed? { MalformedOk(g, s, e.code, e.text); }
    else if e.BackendLost? { LostOk(g, s); }
    else if e.BackendRefused? { TurnedAwayOk(g, s); }
    else if e.AuthRequested? { RequestedOk(g, s); }
    else { LogoutOk(g, s); }
  }

  lemma LogoutOk(g: Gateway, s: Sock)
    requires RunOk(g) && s in g.sessions
    ensures RunOk(OnLogout(g, s)) && StoreStep(g, OnLogout(g, s))
  {
    UnchangedStore(g, OnLogout(g, s));
    var x := g.sessions[s];
    assert IdOk(x) && QueueOk(x);
    if x.authenticated { DismissedOk(g, s, x, LoggedOut); }
    else { DismissedOk(g, s, x, ErrorOf("NOT_AUTHENTICATED", "Not logged in.")); }
  }

  lemma RequestedOk(g: Gateway, s: Sock)
    requires RunOk(g) && s in g.sessions
    ensures RunOk(OnAuthRequest(g, s)) && StoreStep(g, OnAuthRequest(g, s))
  {
    UnchangedStore(g, OnAuthRequest(g, s));
    var x := g.sessions[s];
    assert IdOk(x) && QueueOk(x);
    if x.authenticated { DismissedOk(g, s, x, ErrorOf("ALREADY_AUTHENTICATED", "Already logged in.")); }
    else { RunOkWith(g, s, x.(authsInFlight := x.authsInFlight + 1)); }
  }

  lemma LostOk(g: Gateway, s: Sock)
    requires RunOk(g) && HasBackend(g, s, BackendOpen)
    ensures RunOk(OnBackendClosed(g, s)) && StoreStep(g, OnBackendClosed(g, s))
  {
    UnchangedStore(g, OnBackendClosed(g, s));
    var x := g.sessions[s];
    assert IdOk(x) && QueueOk(x);
    var lost := BackendGone(x);
    RunOkWith(g, s, lost);
    DismissedOk(g, s, lost, BackendDisconnected());
  }

  lemma TurnedAwayOk(g: Gateway, s: Sock)
    requires RunOk(g) && HasBackend(g, s, BackendConnecting)
    ensures RunOk(OnBackendRefused(g, s)) && StoreStep(g, OnBackendRefused(g, s))
  {
    UnchangedStore(g, OnBackendRefused(g, s));
    var x := g.sessions[s];
    assert IdOk(x) && QueueOk(x);
    var m := BackendUnavailable();
    DismissedOk(g, s, x, m);
    var told := Dismissed(x, m);
    assert IdOk(told) && QueueOk(told);
    RunOkWith(g, s, BackendGone(told));
  }
}
