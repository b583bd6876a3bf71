/** What releases the handlers that shutdown_all joins: recv returns without any help of the peer. */
module ServerShutdown {
  import opened Text
  import opened ClientTable
  import opened ServerMachine
  import opened ServerLocks
  import opened ServerRecords
  import opened ServerInvariant
  import opened ServerTheorems
  import opened ServerProgress

  predicate IsBroken(s: State, c: Conn) { c in s.links && s.links[c].broken }

  /** The clients whose sockets are still to be shut down, once main has listed them. */
  function StillOpen(at: Point): seq<Conn> {
    if at.ShutdownFds? then at.fds else []
  }

  predicate PastListing(at: Point) {
    at.ShutdownFds? || at.TakeThreads? || at.JoinAll? || at.CloseListener? || at.Done?
  }

  /** From the listing on, every client's socket is listed or shut down. */
  ghost predicate Released(s: State) {
    && Main in s.pc
    && (PastListing(s.pc[Main].at) ==> forall c :: c in s.clients ==> c in StillOpen(s.pc[Main].at) || IsBroken(s, c))
  }

  lemma ReleasedFrame(s: State, s': State)
    requires Released(s) && Main in s'.pc && s'.pc[Main].at == s.pc[Main].at
    requires s'.clients.Keys <= s.clients.Keys && LinksGrow(s, s')
    ensures Released(s')
  {
  }

  lemma ReleasedSend(cfg: Config, s: State, t: ThreadId, ch: Choice)
    requires ConfigOk(cfg) && Released(s) && t in s.pc && s.pc[t].outs != [] && SendEnabled(cfg, s, s.pc[t].outs[0], ch)
    ensures Released(SendStep(cfg, s, t, ch))
  {
    var s' := SendStep(cfg, s, t, ch);
    SendsGrow(cfg, s, t, ch);
    assert s'.clients == s.clients && s'.pc[Main].at == s.pc[Main].at;
    ReleasedFrame(s, s');
  }

  lemma ReleasedHandler(cfg: Config, s: State, c: Conn, ch: Choice)
    requires Released(s) && Handler(c) in s.pc && s.pc[Handler(c)].outs == [] && HandlerPoint(s.pc[Handler(c)].at)
    requires PointEnabled(cfg, s, Handler(c), s.pc[Handler(c)].at, ch)
    ensures Released(HandlerStep(cfg, s, c, ch))
  {
    HandlerGrows(cfg, s, c, ch);
    ReleasedFrame(s, HandlerStep(cfg, s, c, ch));
  }

  lemma ReleasedCollect(cfg: Config, s: State, ch: Choice)
    requires Released(s) && s.pc[Main] == Thread([], Collect) && PointEnabled(cfg, s, Main, Collect, ch)
    ensures Released(MainStep(cfg, s, ch))
  {
    assert StillOpen(ShutdownFds(ch.order)) == ch.order;
  }

  lemma ReleasedShutdown(s: State, fds: seq<Conn>)
    requires Released(s) && s.pc[Main].at == ShutdownFds(fds)
    requires forall c :: c in s.clients ==> c in s.links
    ensures Released(ShutdownNext(s, fds))
  {
    if fds != [] {
      assert fds == [fds[0]] + fds[1..];
      forall c | c in s.clients ensures c in fds[1..] || IsBroken(Break(s, fds[0]), c) {
        assert c in fds || IsBroken(s, c);
      }
    }
  }

  /** After the last socket is shut down. */
  lemma ReleasedAfter(cfg: Config, s: State, ch: Choice)
    requires Released(s) && s.pc[Main].outs == [] && Placed(s, Main) && PointEnabled(cfg, s, Main, s.pc[Main].at, ch)
    requires s.pc[Main].at.TakeThreads? || s.pc[Main].at.JoinAll? || s.pc[Main].at.CloseListener?
    ensures Released(MainStep(cfg, s, ch))
  {
    var at, s' := s.pc[Main].at, MainStep(cfg, s, ch);
    if at.JoinAll? { JoinAllStep(cfg, s, ch, at.left); }
    assert s'.clients == s.clients && s'.links == s.links;
    assert StillOpen(at) == [] && StillOpen(s'.pc[Main].at) == [];
  }

  /** Before the listing main comes nowhere near its end. */
  lemma ReleasedBefore(cfg: Config, s: State, ch: Choice)
    requires Released(s) && s.pc[Main].outs == [] && Placed(s, Main) && PointEnabled(cfg, s, Main, s.pc[Main].at, ch)
    requires !PastListing(s.pc[Main].at) && !s.pc[Main].at.Collect?
    ensures Released(MainStep(cfg, s, ch))
  {
    NotYetListed(cfg, s, ch);
  }

  lemma NotYetListed(cfg: Config, s: State, ch: Choice)
    requires Main in s.pc && s.pc[Main].outs == [] && Placed(s, Main) && PointEnabled(cfg, s, Main, s.pc[Main].at, ch)
    requires !PastListing(s.pc[Main].at) && !s.pc[Main].at.Collect?
    ensures Main in MainStep(cfg, s, ch).pc && !PastListing(MainStep(cfg, s, ch).pc[Main].at)
  {
    var at := s.pc[Main].at;
    if at.ReapAt? { ReapAtStep(cfg, s, ch, at.index, at.next); }
    else if at.Poll? { assert MainStep(cfg, s, ch).pc[Main].at == ch.point; }
    else if at.MarkWelcomed? { MarkWelcomedStep(cfg, s, ch, at.conn, at.name); }
  }

  lemma ReleasedStep(cfg: Config, s: State, t: ThreadId, ch: Choice, s': State)
    requires Inv(cfg, s) && Released(s) && Step(cfg, s, t, ch, s')
    ensures Released(s')
  {
    if WaitsForClients(s, t) {
    } else if s.pc[t].outs != [] {
      ReleasedSend(cfg, s, t, ch);
    } else if t.Handler? {
      ReleasedHandler(cfg, s, t.conn, ch);
    } else if s.pc[Main].at.Collect? {
      ReleasedCollect(cfg, s, ch);
    } else if s.pc[Main].at.ShutdownFds? {
      ClientsHaveLinks(s);
      ReleasedShutdown(s, s.pc[Main].at.fds);
    } else if PastListing(s.pc[Main].at) {
      ReleasedAfter(cfg, s, ch);
    } else {
      ReleasedBefore(cfg, s, ch);
    }
  }

  lemma ClientsHaveLinks(s: State)
    requires Shape(s) && Records(s)
    ensures forall c :: c in s.clients ==> c in s.links
  {
  }

  lemma {:induction false} ReleasedAlong(cfg: Config, states: seq<State>, events: seq<ServerMachine.Event>, n: nat, s: State)
    requires ConfigOk(cfg) && Run(cfg, states, events) && n < |states| && s == states[n]
    ensures Released(s)
    decreases n
  {
    if n > 0 {
      InvAlong(cfg, states, events, n - 1, states[n - 1]);
      ReleasedAlong(cfg, states, events, n - 1, states[n - 1]);
      StepOfRun(cfg, states, events, n - 1);
      ReleasedStep(cfg, states[n - 1], events[n - 1].thread, events[n - 1].choice, s);
    }
  }

  /** When shutdown_all has shut the sockets down, every handler that is blocked in recv sits on a socket whose recv
      returns by itself: the joins wait for no peer. */
  lemma ReceiversAreReleased(cfg: Config, s: State, c: Conn)
    requires ConfigOk(cfg) && Reachable(cfg, s) && Main in s.pc
    requires s.pc[Main].at.TakeThreads? || s.pc[Main].at.JoinAll?
    requires Handler(c) in s.pc && s.pc[Handler(c)].at.Receive?
    ensures c in s.links && s.links[c].broken
  {
    var states, events :| Run(cfg, states, events) && states[|states| - 1] == s;
    ReleasedAlong(cfg, states, events, |states| - 1, s);
    RecordsHaveOneOwner(cfg, s, c);
    assert HandledBy(s, c);
    assert StillOpen(s.pc[Main].at) == [];
  }

  /** Main never joins a handler that a peer could keep in recv: the reap loop joins handlers past their last recv, and
      shutdown_all handlers whose socket is shut down. */
  lemma JoinsNeedNoPeer(cfg: Config, s: State, c: Conn)
    requires ConfigOk(cfg) && Reachable(cfg, s) && Main in s.pc && s.pc[Main].outs == []
    requires Joins(s, c)
    ensures Handler(c) in s.pc
    ensures s.pc[Handler(c)].at.Receive? ==> c in s.links && s.links[c].broken
  {
    ReachableInv(cfg, s);
    ThreadsAreConserved(cfg, s, c);
    if s.pc[Main].at.ReapJoin? {
      ReapJoinsOnlyTheDead(cfg, s, s.pc[Main].at.index, s.pc[Main].at.next);
    } else {
      assert c in multiset(Leftover(s.pc[Main].at));
      if s.pc[Handler(c)].at.Receive? { ReceiversAreReleased(cfg, s, c); }
    }
  }

  /** Main is about to join this handler. */
  predicate Joins(s: State, c: Conn)
    requires Main in s.pc
  {
    var at := s.pc[Main].at;
    || (at.ReapJoin? && at.index < |s.threads| && s.threads[at.index] == c)
    || (at.JoinAll? && at.left != [] && at.left[0] == c)
  }

  /** In a recv that only the peer can end. */
  predicate BlockedInRecv(s: State, t: ThreadId) {
    t.Handler? && t in s.pc && s.pc[t].outs == [] && s.pc[t].at.Receive? && !IsBroken(s, t.conn)
  }

  lemma OwnersAreNotInRecv(cfg: Config, s: State, t: ThreadId)
    requires Inv(cfg, s) && (s.clientsOwner == Some(t) || exists c :: c in s.links && s.links[c].writer == Some(t))
    ensures !BlockedInRecv(s, t)
  {
    if s.clientsOwner != Some(t) {
      var c :| c in s.links && s.links[c].writer == Some(t);
      assert Holds(s, t, c);
    }
  }

  /** No deadlock, and no waiting for peers either: a thread that waits for another one, for a mutex or a join, waits in
      the end for a thread that can step and is not in a recv that only its peer could end. */
  lemma WaitsNeedNoPeer(cfg: Config, s: State, t: ThreadId, u: ThreadId)
    requires ConfigOk(cfg) && Reachable(cfg, s) && Running(s, t) && WaitsOn(s, t) == Some(u)
    ensures Running(s, u)
    ensures match WaitsOn(s, u)
            case None => CanStep(cfg, s, u) && !BlockedInRecv(s, u)
            case Some(v) => CanStep(cfg, s, v) && !BlockedInRecv(s, v)
  {
    ReachableInv(cfg, s);
    NoDeadlock(cfg, s, t);
    if WaitsForClients(s, t) || s.pc[t].outs != [] {
      OwnersDoNotWait(s, u);
      OwnersAreNotInRecv(cfg, s, u);
    } else {
      MainJoins(cfg, s, t, u);
      JoinsNeedNoPeer(cfg, s, u.conn);
      if WaitsOn(s, u).Some? {
        HandlersWaitForMutexes(cfg, s, u, WaitsOn(s, u).value);
        OwnersAreNotInRecv(cfg, s, WaitsOn(s, u).value);
      }
    }
  }
}
