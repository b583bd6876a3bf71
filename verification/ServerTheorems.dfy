/** The server's guarantees, for every run under every interleaving. */
module ServerTheorems {
  import opened Text
  import opened BackendLines
  import opened ClientTable
  import opened ServerMachine
  import opened ServerLocks
  import opened ServerRecords
  import opened ServerWire
  import opened ServerInvariant
  import W = WireProtocol

  lemma RunKeepsInv(cfg: Config, states: seq<State>, events: seq<Event>, n: nat)
    requires ConfigOk(cfg) && Run(cfg, states, events) && n < |states|
    ensures Inv(cfg, states[n])
  {
    InvAlong(cfg, states, events, n, states[n]);
  }

  lemma {:induction false} InvAlong(cfg: Config, states: seq<State>, events: seq<Event>, n: nat, s: State)
    requires ConfigOk(cfg) && Run(cfg, states, events) && n < |states| && s == states[n]
    ensures Inv(cfg, s)
    decreases n
  {
    if n == 0 { StartInv(cfg, s); }
    else {
      InvAlong(cfg, states, events, n - 1, states[n - 1]);
      RunInvStep(cfg, states, events, n - 1, states[n - 1], s);
    }
  }

  lemma StartInv(cfg: Config, s: State)
    requires ConfigOk(cfg) && s == Init()
    ensures Inv(cfg, s)
  {
    InvInit(cfg);
  }

  lemma RunInvStep(cfg: Config, states: seq<State>, events: seq<Event>, i: nat, s: State, s': State)
    requires Run(cfg, states, events) && i < |events| && s == states[i] && s' == states[i + 1] && Inv(cfg, s)
    ensures Inv(cfg, s')
  {
    StepOfRun(cfg, states, events, i);
    InvStep(cfg, s, events[i].thread, events[i].choice, s');
  }

  lemma StepOfRun(cfg: Config, states: seq<State>, events: seq<Event>, i: nat)
    requires Run(cfg, states, events) && i < |events|
    ensures Step(cfg, states[i], events[i].thread, events[i].choice, states[i + 1])
  {
  }

  lemma ReachableInv(cfg: Config, s: State)
    requires ConfigOk(cfg) && Reachable(cfg, s)
    ensures Inv(cfg, s)
  {
    var states, events :| Run(cfg, states, events) && states[|states| - 1] == s;
    RunKeepsInv(cfg, states, events, |states| - 1);
  }

  // Nicknames, capacity, ownership of records.

  /** In every reachable state nicknames are valid and pairwise distinct and the table is within capacity. */
  lemma NicknamesAlwaysUnique(cfg: Config, s: State)
    requires ConfigOk(cfg) && Reachable(cfg, s)
    ensures |s.clients| <= cfg.maxClients
    ensures forall c :: c in s.clients ==> ValidNickname(s.clients[c].nickname)
    ensures forall c, d :: c in s.clients && d in s.clients && c != d ==> s.clients[c].nickname != s.clients[d].nickname
  {
    ReachableInv(cfg, s);
  }

  /** A connection has a record exactly while its handler is before its erase or main is admitting it, and never both. */
  lemma RecordsHaveOneOwner(cfg: Config, s: State, c: Conn)
    requires ConfigOk(cfg) && Reachable(cfg, s)
    ensures Main in s.pc
    ensures c in s.clients <==> HandledBy(s, c) || Admitting(s.pc[Main].at) == Some(c)
    ensures !(HandledBy(s, c) && Admitting(s.pc[Main].at) == Some(c))
  {
    ReachableInv(cfg, s);
    assert c in s.clients <==> Owned(s, c);
  }

  // Byte streams.

  /** However the bytes on a connection are cut into chunks, the decoder returns exactly the payloads the server
      finished writing, in write-mutex order, and no error; whatever is left over is part of one frame. */
  lemma StreamsDecode(cfg: Config, s: State, c: Conn, chunks: seq<W.Bytes>, limit: nat)
    requires ConfigOk(cfg) && Reachable(cfg, s) && c in s.links
    requires cfg.maxMessage <= limit
    requires W.Concat(chunks) == s.links[c].wire
    ensures W.PushAll([], chunks, limit).frames == BytesAll(s.links[c].done)
    ensures !W.PushAll([], chunks, limit).tooLarge
  {
    ReachableInv(cfg, s);
    var link := s.links[c];
    assert LinkOk(cfg, link);
    ShortFits(link.done, cfg.maxMessage);
    W.TornStreamDecodes(BytesAll(link.done), Bytes(link.current), link.sent, chunks, limit);
  }

  /** While a link works and no send is under way on it, its bytes are whole frames and nothing else. */
  lemma IdleLinkHasWholeFrames(cfg: Config, s: State, c: Conn)
    requires ConfigOk(cfg) && Reachable(cfg, s) && c in s.links
    requires !s.links[c].broken && s.links[c].writer.None?
    ensures AllShort(s.links[c].done, cfg.maxMessage)
    ensures W.AllFit(BytesAll(s.links[c].done), W.MAX_LENGTH)
    ensures s.links[c].wire == W.EncodeAll(BytesAll(s.links[c].done))
  {
    ReachableInv(cfg, s);
    assert LinkOk(cfg, s.links[c]) && InFlight(cfg, s, c);
    ShortFits(s.links[c].done, cfg.maxMessage);
  }

  /** The first payload on every connection is the greeting chosen when main admitted or refused it. */
  lemma GreetingIsFirst(cfg: Config, s: State, c: Conn)
    requires ConfigOk(cfg) && Reachable(cfg, s) && c in s.links
    ensures s.links[c].done != [] ==> s.links[c].done[0] == s.links[c].greeting
  {
    ReachableInv(cfg, s);
    assert GreetOk(cfg, s, c);
  }

  /** Until the greeting is out, or the socket has failed, nobody holds a send for the connection but main,
      and main's is the greeting. */
  lemma NobodyOvertakesTheGreeting(cfg: Config, s: State, c: Conn, t: ThreadId, i: nat)
    requires ConfigOk(cfg) && Reachable(cfg, s) && c in s.links
    requires s.links[c].done == [] && !s.links[c].broken
    requires t in s.pc && i < |s.pc[t].outs| && Aims(s.pc[t].outs[i], c)
    ensures t == Main && i == 0 && s.pc[t].outs[i].payload == s.links[c].greeting
    ensures c in s.clients ==> !s.clients[c].welcomed
  {
    ReachableInv(cfg, s);
    assert GreetOk(cfg, s, c) && Quiet(cfg, s, c);
    var outs := s.pc[Main].outs;
    assert forall j :: 1 <= j < |outs| ==> outs[j] == outs[1..][j - 1];
  }

  // Threads.

  /** Every handler ever started is registered, waiting in shutdown_all's list, or joined: exactly one of these, once. */
  lemma ThreadsAreConserved(cfg: Config, s: State, c: Conn)
    requires ConfigOk(cfg) && Reachable(cfg, s)
    ensures Main in s.pc
    ensures multiset(s.threads)[c] + multiset(Leftover(s.pc[Main].at))[c] + multiset(s.joined)[c] == if Handler(c) in s.pc then 1 else 0
    ensures c in s.joined ==> Finished(s, c) && c !in s.clients
  {
    ReachableInv(cfg, s);
    DistinctCount(Roll(s), c);
    assert multiset(Roll(s)) == multiset(s.threads) + multiset(Leftover(s.pc[Main].at)) + multiset(s.joined);
    assert c in s.clients <==> Owned(s, c);
  }

  lemma {:induction false} DistinctCount(cs: seq<Conn>, c: Conn)
    requires NoDuplicates(cs)
    ensures multiset(cs)[c] == if c in cs then 1 else 0
  {
    if cs != [] {
      assert cs == [cs[0]] + cs[1..];
      DistinctCount(cs[1..], c);
    }
  }

  /** The reap loop waits only for handlers that have erased their record. */
  lemma ReapJoinsOnlyTheDead(cfg: Config, s: State, i: nat, next: Next)
    requires ConfigOk(cfg) && Reachable(cfg, s) && Main in s.pc && s.pc[Main].at == ReapJoin(i, next)
    ensures i < |s.threads| && Handler(s.threads[i]) in s.pc
    ensures s.pc[Handler(s.threads[i])].at in {CloseOwn, Done}
  {
    ReachableInv(cfg, s);
    var c := s.threads[i];
    assert Roll(s)[i] == c;
    assert c in Roll(s);
    assert !Owned(s, c);
    assert AtOk(s, Handler(c), s.pc[Handler(c)]);
  }

  /** When run() returns, no client is left in the table and every handler has finished and been joined. */
  lemma ShutdownLeavesNothing(cfg: Config, s: State)
    requires ConfigOk(cfg) && Reachable(cfg, s) && Main in s.pc && s.pc[Main].at.Done?
    ensures s.clients == map[] && s.threads == []
    ensures forall c :: Handler(c) in s.pc ==> c in s.joined && Finished(s, c)
  {
    ReachableInv(cfg, s);
    assert Roll(s) == s.joined;
    forall c ensures c !in s.clients {
      assert c in s.clients <==> Owned(s, c);
      if Handler(c) in s.pc { assert c in Roll(s) && Finished(s, c); }
    }
  }

  // Streams only grow.

  /** What one step may do to one socket. */
  predicate Grows(a: Link, b: Link) {
    && a.wire <= b.wire && a.done <= b.done && (a.broken ==> b.broken && b.wire == a.wire && b.done == a.done)
  }

  ghost predicate LinksGrow(s: State, s': State) {
    forall c :: c in s.links ==> c in s'.links && Grows(s.links[c], s'.links[c])
  }

  /** No step takes a byte or a frame back, and after an error nothing more is ever written. */
  lemma StreamsOnlyGrow(cfg: Config, s: State, t: ThreadId, ch: Choice, s': State)
    requires ConfigOk(cfg) && Reachable(cfg, s) && Step(cfg, s, t, ch, s')
    ensures LinksGrow(s, s')
  {
    if WaitsForClients(s, t) {
    } else if s.pc[t].outs != [] {
      SendsGrow(cfg, s, t, ch);
    } else if t.Handler? {
      HandlerGrows(cfg, s, t.conn, ch);
    } else {
      MainGrows(cfg, s, ch);
    }
  }

  lemma WriteStepGrows(cfg: Config, link: Link, payload: string, ch: Choice)
    requires ConfigOk(cfg) && WriteEnabled(cfg, link, payload, ch)
    ensures Grows(link, WriteStep(cfg, link, payload, ch).0)
  {
  }

  lemma OneLinkGrows(s: State, s': State, c: Conn)
    requires c in s.links && c in s'.links && s'.links == s.links[c := s'.links[c]]
    requires Grows(s.links[c], s'.links[c])
    ensures LinksGrow(s, s')
  {
  }

  lemma SendsGrow(cfg: Config, s: State, t: ThreadId, ch: Choice)
    requires ConfigOk(cfg) && t in s.pc && s.pc[t].outs != []
    requires SendEnabled(cfg, s, s.pc[t].outs[0], ch)
    ensures LinksGrow(s, SendStep(cfg, s, t, ch))
  {
    match s.pc[t].outs[0]
    case Broadcast(_, _) =>
    case SendTo(_, _) =>
    case Write(c, payload) => OneLinkGrows(s, SendStep(cfg, s, t, ch), c);
    case Writing(c, payload) =>
      WriteStepGrows(cfg, s.links[c], payload, ch);
      AfterCallGrows(s, t, c, WriteStep(cfg, s.links[c], payload, ch).0, WriteStep(cfg, s.links[c], payload, ch).1);
  }

  lemma AfterCallGrows(s: State, t: ThreadId, c: Conn, link: Link, returned: bool)
    requires t in s.pc && s.pc[t].outs != [] && c in s.links && Grows(s.links[c], link)
    ensures LinksGrow(s, AfterCall(s, t, c, link, returned))
  {
    OneLinkGrows(s, AfterCall(s, t, c, link, returned), c);
  }

  lemma HandlerGrows(cfg: Config, s: State, c: Conn, ch: Choice)
    requires Handler(c) in s.pc && s.pc[Handler(c)].outs == [] && HandlerPoint(s.pc[Handler(c)].at)
    requires PointEnabled(cfg, s, Handler(c), s.pc[Handler(c)].at, ch)
    ensures LinksGrow(s, HandlerStep(cfg, s, c, ch))
  {
    var s' := HandlerStep(cfg, s, c, ch);
    assert s'.links == if s.pc[Handler(c)].at.CloseOwn? then Break(s, c).links else s.links;
  }

  lemma MainGrows(cfg: Config, s: State, ch: Choice)
    requires Main in s.pc && s.pc[Main].outs == [] && Placed(s, Main)
    requires PointEnabled(cfg, s, Main, s.pc[Main].at, ch)
    ensures LinksGrow(s, MainStep(cfg, s, ch))
  {
    var at, s' := s.pc[Main].at, MainStep(cfg, s, ch);
    if at.Admit? { OneLinkGrows(s, s', at.conn); }
    else if at.HangUp? { assert s'.links == Break(s, at.conn).links; }
    else if at.ShutdownFds? {
      ShutdownFdsStep(cfg, s, ch, at.fds);
      assert s'.links == if at.fds == [] then s.links else Break(s, at.fds[0]).links;
    }
    else if at.AcceptOne? { AcceptGrows(cfg, s, ch); }
    else { PlainGrows(cfg, s, ch); }
  }

  lemma AcceptGrows(cfg: Config, s: State, ch: Choice)
    requires Main in s.pc && s.pc[Main] == Thread([], AcceptOne) && PointEnabled(cfg, s, Main, AcceptOne, ch)
    ensures LinksGrow(s, MainStep(cfg, s, ch))
  {
  }

  lemma PlainGrows(cfg: Config, s: State, ch: Choice)
    requires Main in s.pc && s.pc[Main].outs == [] && Placed(s, Main) && PointEnabled(cfg, s, Main, s.pc[Main].at, ch)
    requires !s.pc[Main].at.Admit? && !s.pc[Main].at.HangUp? && !s.pc[Main].at.ShutdownFds? && !s.pc[Main].at.AcceptOne?
    ensures LinksGrow(s, MainStep(cfg, s, ch))
  {
    assert MainStep(cfg, s, ch).links == s.links;
  }

  // Which greeting.

  ghost predicate WelcomesSomebody(greeting: string) {
    exists name :: ValidNickname(name) && greeting == WelcomeLine(name)
  }

  /** A connection that was let in: it has, or had, a handler, or main is admitting it. */
  predicate LetIn(s: State, c: Conn)
    requires Main in s.pc
  {
    Handler(c) in s.pc || Admitting(s.pc[Main].at) == Some(c)
  }

  ghost predicate Kinds(s: State) {
    && Main in s.pc
    && forall c :: c in s.links && s.pc[Main].at != Admit(c) ==>
         if LetIn(s, c) then WelcomesSomebody(s.links[c].greeting) else s.links[c].greeting == SERVER_FULL
  }

  lemma KindsFrame(s: State, s': State)
    requires Kinds(s) && Main in s'.pc && s'.links.Keys == s.links.Keys
    requires forall c :: c in s.links ==> s'.links[c].greeting == s.links[c].greeting
    requires forall c :: c in s.links ==> (LetIn(s', c) <==> LetIn(s, c))
    requires forall c :: s.pc[Main].at == Admit(c) ==> s'.pc[Main].at == Admit(c)
    ensures Kinds(s')
  {
  }

  lemma SendKeepsGreetings(cfg: Config, s: State, t: ThreadId, ch: Choice)
    requires ConfigOk(cfg) && Main in s.pc && t in s.pc && s.pc[t].outs != [] && SendEnabled(cfg, s, s.pc[t].outs[0], ch)
    ensures var s' := SendStep(cfg, s, t, ch);
            && s'.pc.Keys == s.pc.Keys && s'.pc[Main].at == s.pc[Main].at && s'.links.Keys == s.links.Keys
            && forall c :: c in s.links ==> s'.links[c].greeting == s.links[c].greeting
  {
    SendSteps(cfg, s, t, ch, s.pc[t].outs[0]);
  }

  lemma KindsSend(cfg: Config, s: State, t: ThreadId, ch: Choice)
    requires ConfigOk(cfg) && Kinds(s) && t in s.pc && s.pc[t].outs != []
    requires SendEnabled(cfg, s, s.pc[t].outs[0], ch)
    ensures Kinds(SendStep(cfg, s, t, ch))
  {
    SendKeepsGreetings(cfg, s, t, ch);
    KindsFrame(s, SendStep(cfg, s, t, ch));
  }

  lemma KindsHandler(cfg: Config, s: State, c: Conn, ch: Choice)
    requires Kinds(s) && Handler(c) in s.pc && s.pc[Handler(c)].outs == [] && HandlerPoint(s.pc[Handler(c)].at)
    requires PointEnabled(cfg, s, Handler(c), s.pc[Handler(c)].at, ch)
    ensures Kinds(HandlerStep(cfg, s, c, ch))
  {
    var s' := HandlerStep(cfg, s, c, ch);
    assert s'.links == if s.pc[Handler(c)].at.CloseOwn? then Break(s, c).links else s.links;
    assert s'.pc.Keys == s.pc.Keys;
    KindsFrame(s, s');
  }

  lemma KindsAdmit(cfg: Config, s: State, c: Conn, ch: Choice)
    requires ConfigOk(cfg) && Kinds(s) && Nicks(cfg, s) && s.pc[Main] == Thread([], Admit(c)) && c in s.links
    requires Handler(c) !in s.pc
    requires |s.clients| < cfg.maxClients ==> ch.Number? && FirstFree(s.clients, ch.n)
    ensures Kinds(AdmitStep(cfg, s, c, ch))
  {
    if |s.clients| < cfg.maxClients { DefaultNameIsValid(s.clients, ch.n); }
  }

  lemma KindsMain(cfg: Config, s: State, ch: Choice)
    requires ConfigOk(cfg) && Records(s) && Nicks(cfg, s) && Kinds(s) && s.pc[Main].outs == [] && Placed(s, Main)
    requires PointEnabled(cfg, s, Main, s.pc[Main].at, ch)
    ensures Kinds(MainStep(cfg, s, ch))
  {
    if s.pc[Main].at.Admit? {
      KindsAdmit(cfg, s, s.pc[Main].at.conn, ch);
    } else if s.pc[Main].at.AcceptOne? && ch.NewConnection? {
      KindsAccept(s, ch.conn);
    } else if s.pc[Main].at.Spawn? {
      KindsSpawned(s, s.pc[Main].at.conn, MainStep(cfg, s, ch).pc[Main]);
    } else {
      GotoEffect(cfg, s, ch);
      GotoKeepsControl(cfg, s, ch);
      KindsGoto(s, MainStep(cfg, s, ch));
    }
  }

  ghost predicate SameGreetings(a: map<Conn, Link>, b: map<Conn, Link>) {
    a.Keys == b.Keys && forall c :: c in a ==> a[c].greeting == b[c].greeting
  }

  lemma BreakSameGreetings(s: State, c: Conn)
    ensures SameGreetings(s.links, Break(s, c).links)
  {
  }

  /** Main's other steps neither let anybody in nor choose a greeting. */
  lemma GotoEffect(cfg: Config, s: State, ch: Choice)
    requires Main in s.pc && s.pc[Main].outs == [] && Placed(s, Main)
    requires PointEnabled(cfg, s, Main, s.pc[Main].at, ch)
    requires !s.pc[Main].at.Admit? && !s.pc[Main].at.Spawn? && !(s.pc[Main].at.AcceptOne? && ch.NewConnection?)
    ensures SameGreetings(s.links, MainStep(cfg, s, ch).links)
  {
    var at := s.pc[Main].at;
    if at.HangUp? {
      BreakSameGreetings(s, at.conn);
    } else if at.ShutdownFds? {
      if at.fds != [] { BreakSameGreetings(s, at.fds[0]); }
    } else {
      assert MainStep(cfg, s, ch).links == s.links;
    }
  }

  predicate GotoControl(s: State, s': State) {
    && Main in s.pc && Main in s'.pc
    && s'.pc.Keys == s.pc.Keys && Admitting(s'.pc[Main].at) == Admitting(s.pc[Main].at)
  }

  /** The steps that only move on. */
  lemma PlainKeepsControl(cfg: Config, s: State, ch: Choice)
    requires Main in s.pc && s.pc[Main].outs == [] && Placed(s, Main)
    requires PointEnabled(cfg, s, Main, s.pc[Main].at, ch)
    requires !s.pc[Main].at.Admit? && !s.pc[Main].at.Spawn? && !(s.pc[Main].at.AcceptOne? && ch.NewConnection?)
    requires !s.pc[Main].at.ReapAt? && !s.pc[Main].at.ShutdownFds? && !s.pc[Main].at.JoinAll? && !s.pc[Main].at.MarkWelcomed?
    ensures GotoControl(s, MainStep(cfg, s, ch))
  {
  }

  lemma GotoKeepsControl(cfg: Config, s: State, ch: Choice)
    requires Main in s.pc && s.pc[Main].outs == [] && Placed(s, Main)
    requires PointEnabled(cfg, s, Main, s.pc[Main].at, ch)
    requires !s.pc[Main].at.Admit? && !s.pc[Main].at.Spawn? && !(s.pc[Main].at.AcceptOne? && ch.NewConnection?)
    ensures GotoControl(s, MainStep(cfg, s, ch))
  {
    var at := s.pc[Main].at;
    if at.ReapAt? { ReapAtStep(cfg, s, ch, at.index, at.next); }
    else if at.ShutdownFds? { ShutdownFdsStep(cfg, s, ch, at.fds); }
    else if at.JoinAll? { JoinAllStep(cfg, s, ch, at.left); }
    else if at.MarkWelcomed? { MarkWelcomedStep(cfg, s, ch, at.conn, at.name); }
    else { PlainKeepsControl(cfg, s, ch); }
  }

  lemma KindsGoto(s: State, s': State)
    requires Kinds(s) && !s.pc[Main].at.Admit?
    requires GotoControl(s, s')
    requires SameGreetings(s.links, s'.links)
    ensures Kinds(s')
  {
    KindsFrame(s, s');
  }

  lemma KindsAccept(s: State, c: Conn)
    requires Kinds(s) && s.pc[Main].at.AcceptOne?
    ensures Kinds(Accepted(s, c))
  {
  }

  lemma KindsSpawned(s: State, c: Conn, main: Thread)
    requires Kinds(s) && s.pc[Main].at.Spawn? && s.pc[Main].at.conn == c && main.at.Poll?
    ensures Kinds(Spawned(s, c, main))
  {
    var s' := Spawned(s, c, main);
    forall d ensures LetIn(s', d) <==> LetIn(s, d) {
    }
  }

  lemma KindsStep(cfg: Config, s: State, t: ThreadId, ch: Choice, s': State)
    requires Inv(cfg, s) && Kinds(s) && Step(cfg, s, t, ch, s')
    ensures Kinds(s')
  {
    if WaitsForClients(s, t) {
      KindsFrame(s, s');
    } else if s.pc[t].outs != [] {
      KindsSend(cfg, s, t, ch);
    } else if t.Handler? {
      KindsHandler(cfg, s, t.conn, ch);
    } else {
      KindsMain(cfg, s, ch);
    }
  }

  lemma {:induction false} RunKeepsKinds(cfg: Config, states: seq<State>, events: seq<Event>, n: nat)
    requires ConfigOk(cfg) && Run(cfg, states, events) && n < |states|
    ensures Kinds(states[n])
  {
    if n > 0 {
      RunKeepsInv(cfg, states, events, n - 1);
      RunKeepsKinds(cfg, states, events, n - 1);
      var e := events[n - 1];
      StepOfRun(cfg, states, events, n - 1);
      KindsStep(cfg, states[n - 1], e.thread, e.choice, states[n]);
    }
  }

  /** WELCOME first: on every connection that was let in, the first frame the gateway decodes is its WELCOME with a
      valid nickname; a connection that was turned away gets the refusal and nothing before it. */
  lemma WelcomeFirst(cfg: Config, s: State, c: Conn, chunks: seq<W.Bytes>, limit: nat)
    requires ConfigOk(cfg) && Reachable(cfg, s) && c in s.links && cfg.maxMessage <= limit
    requires W.Concat(chunks) == s.links[c].wire
    requires W.PushAll([], chunks, limit).frames != []
    ensures Main in s.pc
    ensures LetIn(s, c) ==>
              exists name :: ValidNickname(name) && W.PushAll([], chunks, limit).frames[0] == Bytes(WelcomeLine(name))
    ensures !LetIn(s, c) ==> W.PushAll([], chunks, limit).frames[0] == Bytes(SERVER_FULL)
  {
    StreamsDecode(cfg, s, c, chunks, limit);
    GreetingIsFirst(cfg, s, c);
    ReachableInv(cfg, s);
    var states, events :| Run(cfg, states, events) && states[|states| - 1] == s;
    RunKeepsKinds(cfg, states, events, |states| - 1);
    assert s.pc[Main].at == Admit(c) ==> s.links[c] == FreshLink();
  }
}
