/** Session and SessionManager: the objects the gateway keeps per browser, and its live roster. */
module Sessions {
  import opened Text
  import opened ClientProtocol
  import opened BackendLines
  import D = Database
  import G = Gateway

  /** One browser session. `sock` names its WebSocket; `sent` is what was written to it. */
  class Session {
    const sock: G.Sock
    var id: D.Id
    var authenticated: bool
    var nickname: string
    var desiredUsername: Option<string>
    var readyAnnounced: bool
    var presence: Presence
    var welcomed: bool
    var closed: bool
    var pending: seq<ClientMessage>
    var open: bool
    var sent: seq<ServerMessage>
    var backend: G.BackendStatus
    var lines: seq<string>
    var authsInFlight: nat
    ghost var queued: seq<ClientMessage>
    ghost var replayed: seq<ClientMessage>

    ghost function Value(): G.Session
      reads this
    {
      G.Session(id, authenticated, nickname, desiredUsername, readyAnnounced, presence, welcomed, closed, pending,
                G.Socket(open, sent), G.Backend(backend, lines), authsInFlight, G.QueueLog(queued, replayed))
    }

    constructor (sock: G.Sock, placeholder: string)
      ensures Value() == G.NewSession(placeholder) && this.sock == sock
    {
      this.sock := sock;
      id, authenticated, nickname, desiredUsername := "pending:" + placeholder, false, "", None;
      readyAnnounced, presence, welcomed, closed, pending := false, Online, false, false, [];
      open, sent, backend, lines, authsInFlight := true, [], G.NoBackend, [], 0;
      queued, replayed := [], [];
    }

    /** Writes to the WebSocket if it is open. */
    method Send(m: ServerMessage)
      modifies this`sent
      ensures Value() == G.Write(old(Value()), m)
    {
      if !open { return; }
      sent := sent + [m];
    }

    /** Sends a line on this session's own backend connection. */
    method SendLine(line: string)
      modifies this`lines
      ensures Value() == G.SendLine(old(Value()), line)
    {
      if backend == G.BackendOpen { lines := lines + [line]; }
    }

    method CloseWebSocket()
      modifies this`open
      ensures Value() == G.CloseSocket(old(Value()))
    {
      open := false;
    }

    method QueueUntilReady(m: ClientMessage)
      modifies this`pending, this`queued
      ensures pending == old(pending) + [m] && queued == old(queued) + [m]
    {
      pending := pending + [m];
      queued := queued + [m];
    }

    method DrainQueue() returns (drained: seq<ClientMessage>)
      modifies this`pending
      ensures drained == old(pending) && pending == []
    {
      drained := pending;
      pending := [];
    }

    /** A confirmed rename; the wish for it is fulfilled. */
    method TakeNickname(newNick: string)
      modifies this`nickname, this`desiredUsername
      ensures Value() == G.Renamed(old(Value()), newNick)
    {
      nickname := newNick;
      if desiredUsername == Some(newNick) { desiredUsername := None; }
    }

    method Close()
      modifies this`closed, this`open, this`backend
      ensures Value() == G.Closed(old(Value()))
    {
      if !closed && authenticated { backend := G.BackendClosed; }
      open, closed := false, true;
    }

    /** Takes over the account's identity and starts its own backend connection. */
    method Authenticate(account: G.Account)
      modifies this
      ensures Value() == G.Authenticated(old(Value()), account)
    {
      id := account.id;
      authenticated := true;
      desiredUsername := Some(account.username);
      backend, lines := G.BackendConnecting, [];
    }

    /** One authentication request has been answered. */
    method AuthAnswered()
      requires authsInFlight > 0
      modifies this`authsInFlight
      ensures Value() == old(Value()).(authsInFlight := old(authsInFlight) - 1)
    {
      authsInFlight := authsInFlight - 1;
    }

    /** Tells the browser why, then closes its WebSocket. */
    method Dismiss(m: ServerMessage)
      modifies this`sent, this`open
      ensures Value() == G.Dismissed(old(Value()), m)
    {
      Send(m);
      CloseWebSocket();
    }

    method LoseBackend()
      modifies this`backend
      ensures Value() == G.BackendGone(old(Value()))
    {
      backend := G.BackendClosed;
    }

    function Summarize(): (summary: UserSummary)
      reads this
      ensures summary == G.SummaryOf(Value())
    {
      UserSummary(id, nickname, presence)
    }
  }

  lemma WelcomedFrom(users: seq<UserSummary>, g: G.Gateway, ids: seq<D.Id>, i: nat, x: G.Session)
    requires i < |ids| && ids[i] in g.byId && g.byId[ids[i]] in g.sessions && x == g.sessions[g.byId[ids[i]]]
    ensures (if x.welcomed then users + [G.SummaryOf(x)] else users) + G.WelcomedUsers(g, ids[i + 1..])
         == users + G.WelcomedUsers(g, ids[i..])
  {
    assert ids[i..][1..] == ids[i + 1..];
  }

  /** The live roster, keyed by account id, in the order a JavaScript Map keeps. */
  class SessionManager {
    var order: seq<D.Id>
    var byId: map<D.Id, Session>

    constructor ()
      ensures order == [] && byId == map[]
    {
      order, byId := [], map[];
    }

    ghost predicate Valid()
      reads this
    {
      forall id :: id in order <==> id in byId
    }

    /** `g` is this roster's state seen as a value. */
    ghost predicate Mirrors(g: G.Gateway)
      reads this, byId.Values
    {
      && g.order == order && g.byId.Keys == byId.Keys
      && forall id :: id in byId ==>
           g.byId[id] == byId[id].sock && byId[id].sock in g.sessions && g.sessions[byId[id].sock] == byId[id].Value()
    }

    method Add(s: Session)
      requires Valid()
      modifies this
      ensures Valid() && byId == old(byId)[s.id := s]
      ensures order == if s.id in old(byId) then old(order) else old(order) + [s.id]
    {
      if s.id !in byId { order := order + [s.id]; }
      byId := byId[s.id := s];
    }

    method Remove(id: D.Id)
      requires Valid()
      modifies this
      ensures Valid() && byId == old(byId) - {id} && order == Without(old(order), id)
    {
      order := Without(order, id);
      byId := byId - {id};
    }

    function Get(id: D.Id): (s: Session?)
      reads this
      ensures s != null <==> id in byId
    {
      if id in byId then byId[id] else null
    }

    /** The first welcomed session of that nickname. */
    method FindByNickname(nickname: string, ghost g: G.Gateway) returns (s: Session?)
      requires Valid() && Mirrors(g)
      ensures s != null ==> s in byId.Values && s.welcomed && s.nickname == nickname
      ensures G.FindByNickname(g, order, nickname) == if s == null then None else Some(s.id)
    {
      for i := 0 to |order|
        invariant G.FindByNickname(g, order[i..], nickname) == G.FindByNickname(g, order, nickname)
      {
        var session := byId[order[i]];
        assert order[i..][1..] == order[i + 1..];
        if session.welcomed && session.nickname == nickname { return session; }
      }
      assert order[|order|..] == [];
      s := null;
    }

    function All(): (sessions: seq<Session>)
      reads this
      requires Valid()
      ensures |sessions| == |order| && forall i :: 0 <= i < |order| ==> sessions[i] == byId[order[i]]
    {
      var ids, live := order, byId;
      seq(|ids|, i requires 0 <= i < |ids| && ids[i] in live => live[ids[i]])
    }

    method WelcomedUsers(ghost g: G.Gateway) returns (users: seq<UserSummary>)
      requires Valid() && Mirrors(g)
      ensures users == G.WelcomedUsers(g, order)
    {
      users := [];
      var sessions := All();
      for i := 0 to |sessions|
        invariant users + G.WelcomedUsers(g, order[i..]) == G.WelcomedUsers(g, order)
      {
        var session := sessions[i];
        var summary := session.Summarize();
        WelcomedFrom(users, g, order, i, session.Value());
        users := if session.welcomed then users + [summary] else users;
      }
      assert order[|sessions|..] == [];
    }
  }
}
