/** Every orderly event keeps the browsers' user lists in agreement with the roster. */
module GatewayReplication {
  import opened Text
  import opened ClientProtocol
  import opened BackendLines
  import opened Gateway
  import opened GatewayFrames
  import opened GatewayStores
  import opened GatewayInvariant
  import opened GatewayRoster
  import D = Database
  import ChatState

  /** One session changes without changing its card. */
  lemma RosterWith(g: Gateway, s: Sock, y: Session, base: Users)
    requires RosterOk(g, base) && s in g.sessions && SameCard(g.sessions[s], y) && LifeOk(y)
    requires y.authenticated == g.sessions[s].authenticated && y.closed == g.sessions[s].closed
    requires Silent(g.sessions[s]) ==> Silent(y)
    requires y.ws.open ==> g.sessions[s].ws.open && QuietNews(g.sessions[s].ws.sent, y.ws.sent)
    requires HasReady(y.ws.sent) ==> y.welcomed
    ensures RosterOk(With(g, s, y), base)
  {
    var x, g' := g.sessions[s], With(g, s, y);
    ShapeWith(g, s, y);
    forall t | t in g'.sessions && Watches(g'.sessions[t]) ensures Agrees(g', View(base, g'.sessions[t].ws.sent)) {
      if t == s { QuietView(base, x.ws.sent, y.ws.sent); }
      AgreesFrame(g, g', View(base, g.sessions[t].ws.sent));
    }
  }

  ghost predicate Speaks(g: Gateway, s: Sock) {
    s in g.sessions && Holds(g.sessions[s], g.sessions[s].id) && g.sessions[s].welcomed
  }

  // The snapshot.

  lemma ReadyTouchesOne(g: Gateway, s: Sock)
    requires s in g.sessions
    ensures var g' := SendReady(g, s);
            && SameRoster(g, g')
            && (forall t :: t in g.sessions && t != s ==> g'.sessions[t] == g.sessions[t])
            && SameCard(g.sessions[s], g'.sessions[s]) && SameRole(g.sessions[s], g'.sessions[s])
  {
  }

  lemma ReadyFrame(g: Gateway, s: Sock)
    requires Shape(g) && Speaks(g, s)
    ensures var g' := SendReady(g, s);
            && SameRoster(g, g') && Shape(g') && (Greeted(g) ==> Greeted(g')) && Speaks(g', s)
            && (forall t :: t in g.sessions ==> SameCard(g.sessions[t], g'.sessions[t]))
            && (forall t :: t in g.sessions && t != s ==> g'.sessions[t] == g.sessions[t])
            && (IdsOk(g) ==> IdsOk(g'))
  {
    var g' := SendReady(g, s);
    ReadyTouchesOne(g, s);
    ShapeKept(g, g');
    ReadyKeepsFields(g, g', s);
  }

  lemma ReadyKeepsFields(g: Gateway, g': Gateway, s: Sock)
    requires Speaks(g, s) && g' == SendReady(g, s)
    ensures Greeted(g) ==> Greeted(g')
    ensures IdsOk(g) ==> IdsOk(g')
  {
    SendToKeepsCore(g, s, ReadyFor(g, g.sessions[s]));
    CoreKeepsFields(g, g');
  }

  /** Whoever is sent `ready` agrees with the roster, whatever was shown before. */
  lemma ReadyAgrees(g: Gateway, s: Sock, base: Users)
    requires Shape(g) && Speaks(g, s) && g.sessions[s].ws.open
    ensures var g' := SendReady(g, s);
            s in g'.sessions && Agrees(g', View(base, g'.sessions[s].ws.sent))
  {
    var g' := SendReady(g, s);
    ReadyFrame(g, s);
    ViewSnoc(base, g.sessions[s].ws.sent, ReadyFor(g, g.sessions[s]));
    SnapshotAgrees(g);
    AgreesFrame(g, g', View(base, g'.sessions[s].ws.sent));
  }

  lemma SendReadySynced(g: Gateway, s: Sock, base: Users)
    requires RosterOk(g, base) && Speaks(g, s)
    ensures RosterOk(SendReady(g, s), base)
  {
    var g' := SendReady(g, s);
    ReadyFrame(g, s);
    forall t | t in g'.sessions && Watches(g'.sessions[t]) ensures Agrees(g', View(base, g'.sessions[t].ws.sent)) {
      if t == s { ReadyAgrees(g, s, base); }
      else { AgreesFrame(g, g', View(base, g.sessions[t].ws.sent)); }
    }
  }

  // Requests.

  lemma PresenceSynced(g: Gateway, s: Sock, presence: Presence, base: Users)
    requires RosterOk(g, base) && IdsOk(g) && Speaks(g, s)
    ensures RosterOk(SetPresenceOf(g, s, presence), base)
  {
    var x := g.sessions[s].(presence := presence);
    SyncedIsSyncedBut(g, base, x.id);
    CardChange(g, s, x, base);
    assert IdOk(g.sessions[s]);
    TellAll(With(g, s, x), s, base);
  }

  lemma RequestRoster(g: Gateway, s: Sock, m: ClientMessage, base: Users)
    requires RosterOk(g, base) && IdsOk(g) && Speaks(g, s)
    ensures RosterOk(HandleClientMessage(g, s, m), base)
  {
    if m.SetPresence? { PresenceSynced(g, s, m.presence, base); }
    else if m.RequestState? { SendReadySynced(g, s, base); }
    else { QuietRequest(g, s, m); QuietKeepsRoster(g, HandleClientMessage(g, s, m), base); }
  }

  lemma RequestSynced(g: Gateway, s: Sock, m: ClientMessage, base: Users)
    requires RosterOk(g, base) && IdsOk(g) && Speaks(g, s)
    ensures var g' := HandleClientMessage(g, s, m);
            RosterOk(g', base) && IdsOk(g') && Speaks(g', s)
  {
    var g' := HandleClientMessage(g, s, m);
    RequestRoster(g, s, m, base);
    RequestKeepsCore(g, s, m);
    StillSpeaks(g, g', s);
  }

  lemma StillSpeaks(g: Gateway, g': Gateway, s: Sock)
    requires CoreKept(g, g') && IdsOk(g) && Speaks(g, s)
    ensures IdsOk(g') && Speaks(g', s)
  {
    CoreKeepsFields(g, g');
    CoreKeepsSession(g.sessions[s], g'.sessions[s]);
  }

  lemma LogSynced(g: Gateway, s: Sock, pending: seq<ClientMessage>, log: QueueLog, base: Users)
    requires RosterOk(g, base) && IdsOk(g) && Speaks(g, s)
    ensures var g' := With(g, s, g.sessions[s].(pending := pending, log := log));
            RosterOk(g', base) && IdsOk(g') && Speaks(g', s)
  {
    assert SessionOk(g, s, g.sessions[s]) && IdOk(g.sessions[s]);
    RosterWith(g, s, g.sessions[s].(pending := pending, log := log), base);
  }

  lemma {:induction false} ReplaySynced(g: Gateway, s: Sock, ms: seq<ClientMessage>, base: Users)
    requires RosterOk(g, base) && IdsOk(g) && Speaks(g, s)
    ensures RosterOk(Replay(g, s, ms), base)
    decreases |ms|
  {
    if ms != [] {
      var x := g.sessions[s];
      var log := x.log.(replayed := x.log.replayed + [ms[0]]);
      LogSynced(g, s, x.pending, log, base);
      var started := With(g, s, x.(log := log));
      RequestSynced(started, s, ms[0], base);
      ReplaySynced(HandleClientMessage(started, s, ms[0]), s, ms[1..], base);
    }
  }

  // Becoming ready.

  /** The snapshot for the newcomer and the news for the others bring every view into agreement. */
  lemma AnnounceSynced(g: Gateway, s: Sock, base: Users)
    requires Shape(g) && Greeted(g) && IdsOk(g) && Speaks(g, s) && SyncedBut(g, base, g.sessions[s].id)
    ensures RosterOk(Announce(g, s), base)
  {
    var x := g.sessions[s].(readyAnnounced := true);
    CardChange(g, s, x, base);
    MarkedFields(g, s, x);
    AnnounceMarked(With(g, s, x), s, base);
  }

  lemma MarkedFields(g: Gateway, s: Sock, x: Session)
    requires Greeted(g) && IdsOk(g) && Speaks(g, s) && x == g.sessions[s].(readyAnnounced := true)
    ensures Greeted(With(g, s, x)) && IdsOk(With(g, s, x)) && Speaks(With(g, s, x), s)
  {
    assert IdOk(g.sessions[s]);
  }

  lemma AnnounceMarked(g: Gateway, s: Sock, base: Users)
    requires Shape(g) && Greeted(g) && IdsOk(g) && Speaks(g, s) && SyncedBut(g, base, g.sessions[s].id)
    ensures var x := g.sessions[s]; RosterOk(Broadcast(SendReady(g, s), UserUpdate(SummaryOf(x)), Some(x.id)), base)
  {
    ReadyFrame(g, s);
    SnapshotOthers(g, s, base);
    AnnounceOthers(SendReady(g, s), s, base);
  }

  /** `ready` to one session leaves the other views as they were. */
  lemma SnapshotOthers(g: Gateway, s: Sock, base: Users)
    requires Shape(g) && Speaks(g, s) && SyncedBut(g, base, g.sessions[s].id)
    ensures var g' := SendReady(g, s);
            && (g'.sessions[s].ws.open ==> Agrees(g', View(base, g'.sessions[s].ws.sent)))
            && (forall t :: t in g'.sessions && t != s && Watches(g'.sessions[t]) ==>
                  AgreesBut(g', View(base, g'.sessions[t].ws.sent), g'.sessions[s].id))
  {
    var g' := SendReady(g, s);
    ReadyFrame(g, s);
    if g.sessions[s].ws.open { ReadyAgrees(g, s, base); }
    forall t | t in g'.sessions && t != s && Watches(g'.sessions[t])
      ensures AgreesBut(g', View(base, g'.sessions[t].ws.sent), g'.sessions[s].id)
    {
      var view := View(base, g.sessions[t].ws.sent);
      assert AgreesBut(g, view, g.sessions[s].id);
      forall id | id != g'.sessions[s].id ensures AgreesAt(g', view, id) {
        assert AgreesAt(g, view, id);
        assert id in g.byId ==> EntryOk(g, id);
        AgreesMoves(g, g', view, id);
      }
    }
  }

  lemma AnnounceOthers(g: Gateway, s: Sock, base: Users)
    requires Shape(g) && Greeted(g) && IdsOk(g) && Speaks(g, s)
    requires g.sessions[s].ws.open ==> Agrees(g, View(base, g.sessions[s].ws.sent))
    requires forall t :: t in g.sessions && t != s && Watches(g.sessions[t]) ==>
               AgreesBut(g, View(base, g.sessions[t].ws.sent), g.sessions[s].id)
    ensures RosterOk(Broadcast(g, UserUpdate(SummaryOf(g.sessions[s])), Some(g.sessions[s].id)), base)
  {
    var x := g.sessions[s];
    var m := UserUpdate(SummaryOf(x));
    var g' := Broadcast(g, m, Some(x.id));
    BroadcastFrame(g, m, Some(x.id));
    BroadcastReaches(g, m, Some(x.id), s);
    forall t | t in g'.sessions && Watches(g'.sessions[t]) ensures Agrees(g', View(base, g'.sessions[t].ws.sent)) {
      BroadcastCards(g, m, Some(x.id), t);
      if t == s { AgreesFrame(g, g', View(base, x.ws.sent)); }
      else {
        WatcherHolds(g, t);
        assert SessionOk(g, t, g.sessions[t]) && SessionOk(g, s, x);
        TellOne(g, s, base, Some(x.id), t);
      }
    }
  }

  lemma WatcherHolds(g: Gateway, t: Sock)
    requires Shape(g) && Greeted(g) && IdsOk(g) && t in g.sessions && Watches(g.sessions[t])
    ensures Holds(g.sessions[t], g.sessions[t].id)
  {
    assert SessionOk(g, t, g.sessions[t]) && IdOk(g.sessions[t]);
  }

  lemma AnnounceReadySynced(g: Gateway, s: Sock, base: Users)
    requires RunOk(g) && MayAnnounce(g, s)
    requires Shape(g) && Greeted(g) && Speaks(g, s) && SyncedBut(g, base, g.sessions[s].id)
    ensures RosterOk(AnnounceReady(g, s), base)
  {
    var x := g.sessions[s];
    assert IdOk(x);
    AnnounceSynced(g, s, base);
    AnnouncedSpeaks(g, s);
    DrainSynced(Announce(g, s), s, base);
  }

  lemma AnnouncedSpeaks(g: Gateway, s: Sock)
    requires RunOk(g) && MayAnnounce(g, s) && Speaks(g, s)
    ensures IdsOk(Announce(g, s)) && Speaks(Announce(g, s), s)
  {
    var x := g.sessions[s];
    assert IdOk(x);
    AnnounceKeepsCore(g, s);
    CoreKeepsFields(With(g, s, x.(readyAnnounced := true)), Announce(g, s));
    CoreKeepsSession(x.(readyAnnounced := true), Announce(g, s).sessions[s]);
  }

  lemma DrainSynced(a: Gateway, s: Sock, base: Users)
    requires RosterOk(a, base) && IdsOk(a) && Speaks(a, s)
    ensures RosterOk(Replay(With(a, s, a.sessions[s].(pending := [])), s, a.sessions[s].pending), base)
  {
    LogSynced(a, s, [], a.sessions[s].log, base);
    ReplaySynced(With(a, s, a.sessions[s].(pending := [])), s, a.sessions[s].pending, base);
  }

  // Events.

  ghost predicate OrderlyOk(g: Gateway, base: Users) { RunOk(g) && RosterOk(g, base) }

  /** A live session that is not welcomed is in nobody's view. */
  lemma UnseenBeforeWelcome(g: Gateway, s: Sock, y: Session, base: Users)
    requires RosterOk(g, base) && s in g.sessions && Holds(g.sessions[s], g.sessions[s].id) && !g.sessions[s].welcomed
    requires SameRole(g.sessions[s], y) && y.ws == g.sessions[s].ws && !y.readyAnnounced
    ensures RosterOk(With(g, s, y), base)
  {
    var x, g' := g.sessions[s], With(g, s, y);
    SyncedIsSyncedBut(g, base, x.id);
    CardChange(g, s, y, base);
    assert SessionOk(g, s, x);
    forall t | t in g'.sessions && Watches(g'.sessions[t]) ensures Agrees(g', View(base, g'.sessions[t].ws.sent)) {
      var view := View(base, g.sessions[t].ws.sent);
      assert Agrees(g, view) && AgreesBut(g', view, y.id);
      assert AgreesAt(g, view, x.id);
      assert forall id :: AgreesAt(g', view, id);
    }
  }

  lemma WelcomeSynced(g: Gateway, s: Sock, nickname: string, base: Users)
    requires OrderlyOk(g, base) && HasBackend(g, s, BackendOpen) && !g.sessions[s].welcomed
    ensures RosterOk(OnWelcome(g, s, nickname), base)
  {
    var x := g.sessions[s];
    var y := x.(welcomed := true, nickname := nickname);
    assert SessionOk(g, s, x) && IdOk(x) && QueueOk(x);
    UnseenBeforeWelcome(g, s, y, base);
    if Claim(y).Some? {
      LineIsQuiet(With(g, s, y), s, FormatNickCommand(Claim(y).value));
      QuietKeepsRoster(With(g, s, y), OnWelcome(g, s, nickname), base);
    } else {
      RunOkWith(g, s, y);
      SyncedIsSyncedBut(With(g, s, y), base, y.id);
      AnnounceReadySynced(With(g, s, y), s, base);
    }
  }

  lemma NickSynced(g: Gateway, s: Sock, oldNick: string, newNick: string, base: Users)
    requires OrderlyOk(g, base) && HasBackend(g, s, BackendOpen) && g.sessions[s].welcomed
    ensures RosterOk(OnNick(g, s, oldNick, newNick), base)
  {
    var x := g.sessions[s];
    assert SessionOk(g, s, x) && IdOk(x) && QueueOk(x);
    if oldNick == x.nickname {
      var y := Renamed(x, newNick);
      SyncedIsSyncedBut(g, base, x.id);
      CardChange(g, s, y, base);
      RunOkWith(g, s, y);
      assert Greeted(With(g, s, y));
      if x.readyAnnounced {
        TellAll(With(g, s, y), s, base);
        RosterIgnoresStore(Broadcast(With(g, s, y), UserUpdate(SummaryOf(y)), None), OnNick(g, s, oldNick, newNick), base);
      } else {
        AnnounceReadySynced(With(g, s, y), s, base);
      }
    }
  }

  lemma RosterIgnoresStore(g: Gateway, g': Gateway, base: Users)
    requires RosterOk(g, base) && g'.sessions == g.sessions && g'.order == g.order && g'.byId == g.byId
    ensures RosterOk(g', base)
  {
    forall id | id in g'.byId ensures EntryOk(g', id) { assert EntryOk(g, id); }
    forall s | s in g'.sessions ensures SessionOk(g', s, g'.sessions[s]) { assert SessionOk(g, s, g.sessions[s]); }
    forall s | s in g'.sessions && Watches(g'.sessions[s]) ensures Agrees(g', View(base, g'.sessions[s].ws.sent)) {
      var view := View(base, g.sessions[s].ws.sent);
      assert Agrees(g, view);
      forall id ensures AgreesAt(g', view, id) { assert AgreesAt(g, view, id); }
    }
  }

  lemma BackendEventSynced(g: Gateway, s: Sock, e: BackendEvent, base: Users)
    requires OrderlyOk(g, base) && HasBackend(g, s, BackendOpen)
    requires e.Welcome? ==> !g.sessions[s].welcomed
    requires e.Nick? ==> g.sessions[s].welcomed
    ensures RosterOk(OnBackendEvent(g, s, e), base)
  {
    if e.Welcome? { WelcomeSynced(g, s, e.nickname, base); }
    else if e.Nick? { NickSynced(g, s, e.oldNick, e.newNick, base); }
    else if e.Err? { ErrSynced(g, s, e.code, e.text, base); }
    else { RelaySynced(g, s, e, base); }
  }

  lemma ErrSynced(g: Gateway, s: Sock, code: string, text: string, base: Users)
    requires RosterOk(g, base) && s in g.sessions
    ensures RosterOk(OnErr(g, s, code, text), base)
  {
    if !g.sessions[s].readyAnnounced && code == "NICK_TAKEN" { LoginRefusedSynced(g, s, code, text, base); }
    else { WroteSynced(g, s, ErrorOf(code, text), base); }
  }

  lemma RelaySynced(g: Gateway, s: Sock, e: BackendEvent, base: Users)
    requires RosterOk(g, base) && s in g.sessions && !e.Welcome? && !e.Nick? && !e.Err?
    ensures RosterOk(OnBackendEvent(g, s, e), base)
  {
    QuietEvent(g, s, e);
    QuietKeepsRoster(g, OnBackendEvent(g, s, e), base);
  }

  lemma LoginRefusedSynced(g: Gateway, s: Sock, code: string, text: string, base: Users)
    requires RosterOk(g, base) && s in g.sessions && !g.sessions[s].readyAnnounced && code == "NICK_TAKEN"
    ensures RosterOk(OnErr(g, s, code, text), base)
  {
    DismissedSynced(g, s, g.sessions[s],
      LoginFailed(), base);
  }

  /** A session that the gateway closes stays in the roster until its socket reports it. */
  lemma DismissedSynced(g: Gateway, s: Sock, x: Session, m: ServerMessage, base: Users)
    requires RosterOk(g, base) && s in g.sessions && !m.Ready?
    requires SameCard(g.sessions[s], x) && LifeOk(x) && x.authenticated == g.sessions[s].authenticated
    requires x.closed == g.sessions[s].closed && x.ws == g.sessions[s].ws && (Silent(g.sessions[s]) ==> Silent(x))
    ensures RosterOk(With(g, s, Dismissed(x, m)), base)
  {
    ViewSnoc(map[], x.ws.sent, m);
    RosterWith(g, s, Dismissed(x, m), base);
  }

  lemma WroteSynced(g: Gateway, s: Sock, m: ServerMessage, base: Users)
    requires RosterOk(g, base) && QuietMessage(m)
    ensures RosterOk(SendTo(g, s, m), base)
  {
    SendToIsQuiet(g, s, m);
    QuietKeepsRoster(g, SendTo(g, s, m), base);
  }

  lemma BackendLostSynced(g: Gateway, s: Sock, base: Users)
    requires RosterOk(g, base) && HasBackend(g, s, BackendOpen)
    ensures RosterOk(OnBackendClosed(g, s), base)
  {
    var x := g.sessions[s];
    assert SessionOk(g, s, x);
    var lost := BackendGone(x);
    DismissedSynced(g, s, lost, BackendDisconnected(), base);
  }

  lemma LogoutSynced(g: Gateway, s: Sock, base: Users)
    requires RosterOk(g, base) && s in g.sessions
    ensures RosterOk(OnLogout(g, s), base)
  {
    assert SessionOk(g, s, g.sessions[s]);
    if g.sessions[s].authenticated { DismissedSynced(g, s, g.sessions[s], LoggedOut, base); }
    else { WroteSynced(g, s, ErrorOf("NOT_AUTHENTICATED", "Not logged in."), base); }
  }

  lemma AuthRequestSynced(g: Gateway, s: Sock, base: Users)
    requires RosterOk(g, base) && s in g.sessions
    ensures RosterOk(OnAuthRequest(g, s), base)
  {
    var x := g.sessions[s];
    assert SessionOk(g, s, x);
    if x.authenticated { WroteSynced(g, s, ErrorOf("ALREADY_AUTHENTICATED", "Already logged in."), base); }
    else { RosterWith(g, s, x.(authsInFlight := x.authsInFlight + 1), base); }
  }

  lemma ConnectedSynced(g: Gateway, s: Sock, base: Users)
    requires RosterOk(g, base) && HasBackend(g, s, BackendConnecting)
    ensures RosterOk(With(g, s, g.sessions[s].(backend := g.sessions[s].backend.(status := BackendOpen))), base)
  {
    assert SessionOk(g, s, g.sessions[s]);
    RosterWith(g, s, g.sessions[s].(backend := g.sessions[s].backend.(status := BackendOpen)), base);
  }

  lemma ClientMessageSynced(g: Gateway, s: Sock, m: ClientMessage, base: Users)
    requires OrderlyOk(g, base) && s in g.sessions && !g.sessions[s].closed
    ensures RosterOk(OnClientMessage(g, s, m), base)
  {
    var x := g.sessions[s];
    assert SessionOk(g, s, x);
    if !x.authenticated || !x.welcomed {
      RosterWith(g, s, x.(pending := x.pending + [m], log := x.log.(queued := x.log.queued + [m])), base);
    } else {
      RequestSynced(g, s, m, base);
    }
  }

  lemma OpenedSynced(g: Gateway, s: Sock, placeholder: string, base: Users)
    requires RosterOk(g, base) && s !in g.sessions
    ensures RosterOk(With(g, s, NewSession(placeholder)), base)
  {
    var g' := With(g, s, NewSession(placeholder));
    forall id | id in g'.byId ensures EntryOk(g', id) { assert EntryOk(g, id); }
    forall t | t in g'.sessions ensures SessionOk(g', t, g'.sessions[t]) {
      if t != s { assert SessionOk(g, t, g.sessions[t]); }
    }
    forall t | t in g'.sessions && Watches(g'.sessions[t]) ensures Agrees(g', View(base, g'.sessions[t].ws.sent)) {
      var view := View(base, g.sessions[t].ws.sent);
      assert Agrees(g, view);
      forall id ensures AgreesAt(g', view, id) {
        assert AgreesAt(g, view, id);
        assert id in g.byId ==> EntryOk(g, id);
        AgreesMoves(g, g', view, id);
      }
    }
  }

  // Login.

  lemma AuthSynced(g: Gateway, s: Sock, outcome: AuthOutcome, base: Users)
    requires OrderlyOk(g, base) && Enabled(g, AuthDone(s, outcome)) && Orderly(g, AuthDone(s, outcome))
    ensures RosterOk(OnAuthOutcome(g, s, outcome), base)
  {
    var x := g.sessions[s].(authsInFlight := g.sessions[s].authsInFlight - 1);
    assert SessionOk(g, s, g.sessions[s]);
    if outcome.Refused? { RefusedSynced(g, s, x, ErrorOf(outcome.code, outcome.text), base); }
    else if HeldElsewhere(g, outcome.account.id) { HeldSynced(g, s, x, outcome.account, base); }
    else { LetInSynced(g, s, x, outcome.account, base); }
  }

  lemma HeldSynced(g: Gateway, s: Sock, x: Session, account: Account, base: Users)
    requires RosterOk(g, base) && s in g.sessions && g.sessions[s].authsInFlight > 0 && HeldElsewhere(g, account.id)
    requires x == g.sessions[s].(authsInFlight := g.sessions[s].authsInFlight - 1) && LifeOk(x)
    ensures RosterOk(OnAuthOutcome(g, s, Accepted(account)), base)
  {
    RefusedSynced(g, s, x, AlreadyLoggedIn(), base);
    RosterIgnoresStore(With(g, s, Write(x, AlreadyLoggedIn())), OnAuthOutcome(g, s, Accepted(account)), base);
  }

  lemma LetInSynced(g: Gateway, s: Sock, x: Session, account: Account, base: Users)
    requires OrderlyOk(g, base) && s in g.sessions && g.sessions[s].authsInFlight > 0 && !HeldElsewhere(g, account.id)
    requires x == g.sessions[s].(authsInFlight := g.sessions[s].authsInFlight - 1)
    requires !x.closed && !InRoster(g, s)
    ensures RosterOk(OnAuthOutcome(g, s, Accepted(account)), base)
  {
    assert SessionOk(g, s, g.sessions[s]) && IdOk(g.sessions[s]);
    assert account.id in g.byId ==> EntryOk(g, account.id);
    var joined := Authenticated(x, account);
    JoinSynced(g, s, joined, base);
    RosterIgnoresStore(RosterSet(With(g, s, joined), account.id, s), OnAuthOutcome(g, s, Accepted(account)), base);
  }

  lemma RefusedSynced(g: Gateway, s: Sock, x: Session, m: ServerMessage, base: Users)
    requires RosterOk(g, base) && s in g.sessions && QuietMessage(m) && LifeOk(x)
    requires x == g.sessions[s].(authsInFlight := x.authsInFlight)
    ensures RosterOk(With(g, s, Write(x, m)), base)
  {
    WriteIsQuiet(x, m);
    ViewSnoc(map[], x.ws.sent, m);
    RosterWith(g, s, Write(x, m), base);
  }

  /** A login adds one entry to the roster, which nobody sees before its WELCOME. */
  lemma JoinSynced(g: Gateway, s: Sock, y: Session, base: Users)
    requires RosterOk(g, base) && s in g.sessions && !InRoster(g, s) && !g.sessions[s].closed
    requires y.authenticated && !y.closed && LifeOk(y) && !y.welcomed && !g.sessions[s].welcomed
    requires y.ws == g.sessions[s].ws && y.id !in g.byId
    ensures RosterOk(RosterSet(With(g, s, y), y.id, s), base)
  {
    var g' := RosterSet(With(g, s, y), y.id, s);
    forall id | id in g'.byId ensures EntryOk(g', id) {
      if id != y.id { assert EntryOk(g, id); }
    }
    forall t | t in g'.sessions ensures SessionOk(g', t, g'.sessions[t]) {
      if t != s { assert SessionOk(g, t, g.sessions[t]); }
    }
    forall t | t in g'.sessions && Watches(g'.sessions[t]) ensures Agrees(g', View(base, g'.sessions[t].ws.sent)) {
      var view := View(base, g.sessions[t].ws.sent);
      assert Agrees(g, view);
      forall id ensures AgreesAt(g', view, id) {
        assert AgreesAt(g, view, id);
        assert id in g.byId ==> EntryOk(g, id);
        if id != y.id { AgreesMoves(g, g', view, id); }
      }
    }
  }

  // Logout.

  lemma WithoutShape(order: seq<Id>, id: Id)
    requires NoDuplicates(order)
    ensures NoDuplicates(Without(order, id))
    decreases |order|
  {
    if order != [] {
      NoDupTail(order);
      WithoutShape(order[1..], id);
    }
  }

  /** The roster without a closed session: every other entry still agrees. */
  lemma LeaveShape(g: Gateway, s: Sock, y: Session, base: Users)
    requires RosterOk(g, base) && s in g.sessions && Holds(g.sessions[s], g.sessions[s].id) && InRoster(g, s)
    requires y.closed && LifeOk(y) && y.id == g.sessions[s].id && y.welcomed == g.sessions[s].welcomed
    requires y.ws.sent == g.sessions[s].ws.sent
    ensures var g' := RosterDelete(With(g, s, y), y.id);
            && Shape(g') && Greeted(g') && y.id !in g'.byId
            && forall t :: t in g'.sessions && Watches(g'.sessions[t]) ==>
                 t != s && t in g.sessions && g'.sessions[t] == g.sessions[t]
                 && AgreesBut(g', View(base, g.sessions[t].ws.sent), y.id)
  {
    var g' := RosterDelete(With(g, s, y), y.id);
    assert SessionOk(g, s, g.sessions[s]);
    WithoutShape(g.order, y.id);
    forall id | id in g'.byId ensures EntryOk(g', id) { assert EntryOk(g, id); }
    forall t | t in g'.sessions ensures SessionOk(g', t, g'.sessions[t]) {
      if t != s { assert SessionOk(g, t, g.sessions[t]); }
    }
    forall t | t in g'.sessions && Watches(g'.sessions[t])
      ensures t != s && g'.sessions[t] == g.sessions[t] && AgreesBut(g', View(base, g.sessions[t].ws.sent), y.id)
    {
      var view := View(base, g.sessions[t].ws.sent);
      assert Agrees(g, view);
      forall id | id != y.id ensures AgreesAt(g', view, id) {
        assert AgreesAt(g, view, id);
        assert id in g.byId ==> EntryOk(g, id);
        AgreesMoves(g, g', view, id);
      }
    }
  }

  lemma ClosedSynced(g: Gateway, s: Sock, base: Users)
    requires OrderlyOk(g, base) && Enabled(g, SocketClosed(s)) && Orderly(g, SocketClosed(s))
    ensures RosterOk(OnClientClosed(g, s), base)
  {
    var x := g.sessions[s];
    assert SessionOk(g, s, x) && IdOk(x);
    if x.authenticated && InRoster(g, s) {
      LeaveSynced(g, s, base);
    } else {
      ClosedOutside(g, s, base);
      if x.authenticated { DropEntry(With(g, s, Closed(x)), x.id, base); }
    }
  }

  lemma LeaveSynced(g: Gateway, s: Sock, base: Users)
    requires OrderlyOk(g, base) && s in g.sessions && InRoster(g, s) && Holds(g.sessions[s], g.sessions[s].id)
    ensures RosterOk(OnClientClosed(g, s), base)
  {
    var x := g.sessions[s];
    assert SessionOk(g, s, x) && IdOk(x);
    LeaveShape(g, s, Closed(x), base);
    var removed := RosterDelete(With(g, s, Closed(x)), x.id);
    if x.welcomed { TellGone(removed, x.id, base); }
    else { NobodySaw(g, removed, s, base); }
  }

  /** A session outside the roster closes: the views stay as they are. */
  lemma ClosedOutside(g: Gateway, s: Sock, base: Users)
    requires RosterOk(g, base) && s in g.sessions && !g.sessions[s].closed && IdOk(g.sessions[s])
    requires g.sessions[s].authenticated ==> !InRoster(g, s)
    ensures RosterOk(With(g, s, Closed(g.sessions[s])), base)
  {
    var x, g' := g.sessions[s], With(g, s, Closed(g.sessions[s]));
    forall id | id in g'.byId ensures EntryOk(g', id) { assert EntryOk(g, id); }
    forall t | t in g'.sessions ensures SessionOk(g', t, g'.sessions[t]) { assert SessionOk(g, t, g.sessions[t]); }
    forall t | t in g'.sessions && Watches(g'.sessions[t]) ensures Agrees(g', View(base, g'.sessions[t].ws.sent)) {
      AgreesFrame(g, g', View(base, g.sessions[t].ws.sent));
    }
  }

  /** Dropping an entry that leads nowhere, or to a session nobody has heard of. */
  lemma DropEntry(g: Gateway, id: Id, base: Users)
    requires RosterOk(g, base)
    requires id in g.byId ==> g.byId[id] in g.sessions && Silent(g.sessions[g.byId[id]])
    ensures RosterOk(RosterDelete(g, id), base)
  {
    var g' := RosterDelete(g, id);
    WithoutShape(g.order, id);
    forall k | k in g'.byId ensures EntryOk(g', k) { assert EntryOk(g, k); }
    forall t | t in g'.sessions ensures SessionOk(g', t, g'.sessions[t]) { assert SessionOk(g, t, g.sessions[t]); }
    forall t | t in g'.sessions && Watches(g'.sessions[t]) ensures Agrees(g', View(base, g'.sessions[t].ws.sent)) {
      var view := View(base, g.sessions[t].ws.sent);
      assert Agrees(g, view);
      forall k ensures AgreesAt(g', view, k) { assert AgreesAt(g, view, k); }
    }
  }

  /** A refused session leaves the roster before anybody has heard of it. */
  lemma BackendRefusedSynced(g: Gateway, s: Sock, base: Users)
    requires RosterOk(g, base) && IdsOk(g) && HasBackend(g, s, BackendConnecting)
    ensures RosterOk(OnBackendRefused(g, s), base)
  {
    var x := g.sessions[s];
    assert SessionOk(g, s, x) && IdOk(x);
    var y := BackendGone(Dismissed(x, BackendUnavailable()));
    ViewSnoc(map[], x.ws.sent, BackendUnavailable());
    RosterWith(g, s, y, base);
    var g1 := With(g, s, y);
    DropEntry(g1, x.id, base);
  }

  lemma NobodySaw(g: Gateway, removed: Gateway, s: Sock, base: Users)
    requires RosterOk(g, base) && s in g.sessions && Holds(g.sessions[s], g.sessions[s].id) && !g.sessions[s].welcomed
    requires InRoster(g, s) && Shape(removed) && Greeted(removed) && g.sessions[s].id !in removed.byId
    requires forall t :: t in removed.sessions && Watches(removed.sessions[t]) ==>
               t in g.sessions && removed.sessions[t] == g.sessions[t]
               && AgreesBut(removed, View(base, g.sessions[t].ws.sent), g.sessions[s].id)
    ensures RosterOk(removed, base)
  {
    var id := g.sessions[s].id;
    assert SessionOk(g, s, g.sessions[s]);
    forall t | t in removed.sessions && Watches(removed.sessions[t]) ensures Agrees(removed, View(base, removed.sessions[t].ws.sent)) {
      var view := View(base, g.sessions[t].ws.sent);
      assert Agrees(g, view);
      assert AgreesAt(g, view, id);
      forall k ensures AgreesAt(removed, view, k) {
        if k == id { assert k !in view; }
      }
    }
  }

  /** The news that a user is gone brings every view back into agreement. */
  lemma TellGone(g: Gateway, id: Id, base: Users)
    requires Shape(g) && Greeted(g) && IdsOk(g) && id !in g.byId && SyncedBut(g, base, id)
    ensures RosterOk(Broadcast(g, UserOffline(id), Some(id)), base)
  {
    var m := UserOffline(id);
    var g' := Broadcast(g, m, Some(id));
    BroadcastFrame(g, m, Some(id));
    forall t | t in g'.sessions && Watches(g'.sessions[t]) ensures Agrees(g', View(base, g'.sessions[t].ws.sent)) {
      GoneOne(g, id, base, t);
    }
  }

  lemma GoneOne(g: Gateway, id: Id, base: Users, t: Sock)
    requires Shape(g) && Greeted(g) && IdsOk(g) && id !in g.byId && SyncedBut(g, base, id) && t in g.sessions
    ensures var g' := Broadcast(g, UserOffline(id), Some(id));
            && t in g'.sessions
            && (Watches(g'.sessions[t]) ==> Agrees(g', View(base, g'.sessions[t].ws.sent)))
  {
    var m := UserOffline(id);
    var g' := Broadcast(g, m, Some(id));
    var y := g.sessions[t];
    BroadcastFrame(g, m, Some(id));
    BroadcastCards(g, m, Some(id), t);
    if Watches(g'.sessions[t]) {
      WatcherHolds(g, t);
      assert SessionOk(g, t, y);
      BroadcastReaches(g, m, Some(id), t);
      ViewSnoc(base, y.ws.sent, m);
      var view := View(base, y.ws.sent);
      assert AgreesBut(g, view, id);
      forall k ensures AgreesAt(g, view - {id}, k) {
        if k != id { assert AgreesAt(g, view, k); }
      }
      AgreesFrame(g, g', view - {id});
    }
  }

  /** A disorderly event breaks the roster at once: an entry leads to the wrong session, or a session that can still be
      heard of has no entry. */
  lemma DisorderlyBreaks(g: Gateway, e: Event, g': Gateway)
    requires Shape(g) && IdsOk(g) && Step(g, e, g') && !Orderly(g, e)
    ensures !Shape(g')
  {
    var s := e.sock;
    var x := g.sessions[s];
    assert SessionOk(g, s, x) && IdOk(x);
    if e.AuthDone? {
      var id := e.outcome.account.id;
      assert g'.byId[id] == s && g'.sessions[s].id == id;
      if x.closed { assert !EntryOk(g', id); }
      else {
        assert EntryOk(g, x.id);
        assert g'.byId[x.id] == s && !EntryOk(g', x.id);
      }
    } else {
      var t := g.byId[x.id];
      assert EntryOk(g, x.id) && SessionOk(g, t, g.sessions[t]);
      assert t != s && g'.sessions[t] == g.sessions[t] && x.id !in g'.byId;
      assert !SessionOk(g', t, g'.sessions[t]);
    }
  }

  /** From a good state an event keeps the whole invariant if and only if it is orderly. */
  lemma OrderlyExactly(g: Gateway, e: Event, g': Gateway, base: Users)
    requires OrderlyOk(g, base) && Step(g, e, g')
    ensures OrderlyOk(g', base) <==> Orderly(g, e)
  {
    if Orderly(g, e) { OrderlyStep(g, e, g', base); } else { DisorderlyBreaks(g, e, g'); }
  }

  lemma OpenedEvent(g: Gateway, s: Sock, base: Users)
    requires RosterOk(g, base) && s !in g.sessions
    ensures RosterOk(OnConnection(g, s), base)
  {
    OpenedSynced(g, s, Decimal(g.supply), base);
    RosterIgnoresStore(With(g, s, NewSession(Decimal(g.supply))), OnConnection(g, s), base);
  }

  /** What a browser's socket can raise. */
  predicate FromSocket(e: Event) {
    e.Opened? || e.ClientSays? || e.ClientMalformed? || e.LogoutRequested? || e.SocketClosed? || e.AuthRequested?
  }

  lemma SocketEventSynced(g: Gateway, e: Event, g': Gateway, base: Users)
    requires OrderlyOk(g, base) && Enabled(g, e) && g' == Handle(g, e) && Orderly(g, e) && FromSocket(e)
    ensures RosterOk(g', base)
  {
    if e.Opened? { OpenedEvent(g, e.sock, base); }
    else if e.AuthRequested? { AuthRequestSynced(g, e.sock, base); }
    else if e.ClientSays? { ClientMessageSynced(g, e.sock, e.message, base); }
    else if e.ClientMalformed? { WroteSynced(g, e.sock, ErrorOf(e.code, e.text), base); }
    else if e.LogoutRequested? { LogoutSynced(g, e.sock, base); }
    else { ClosedSynced(g, e.sock, base); }
  }

  lemma OtherEventSynced(g: Gateway, e: Event, g': Gateway, base: Users)
    requires OrderlyOk(g, base) && Enabled(g, e) && g' == Handle(g, e) && Orderly(g, e) && !FromSocket(e)
    ensures RosterOk(g', base)
  {
    if e.Tick? { RosterIgnoresStore(g, g', base); }
    else if e.AuthDone? { AuthSynced(g, e.sock, e.outcome, base); }
    else if e.BackendConnected? { ConnectedSynced(g, e.sock, base); }
    else if e.BackendRefused? { BackendRefusedSynced(g, e.sock, base); }
    else if e.BackendSays? { BackendEventSynced(g, e.sock, e.said, base); }
    else { BackendLostSynced(g, e.sock, base); }
  }

  /** Every orderly event keeps the whole invariant. */
  lemma OrderlyStep(g: Gateway, e: Event, g': Gateway, base: Users)
    requires OrderlyOk(g, base) && Step(g, e, g') && Orderly(g, e)
    ensures OrderlyOk(g', base)
  {
    RunOkStep(g, e, g');
    if FromSocket(e) { SocketEventSynced(g, e, g', base); } else { OtherEventSynced(g, e, g', base); }
  }
}
