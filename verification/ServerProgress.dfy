/** No deadlock: from every waiting thread the chain of waits ends, within two hops, at a thread that can step
    as soon as its system call returns. */
module ServerProgress {
  import opened Text
  import opened BackendLines
  import opened ClientTable
  import opened ServerMachine
  import opened ServerLocks
  import opened ServerRecords
  import opened ServerWire
  import opened ServerInvariant
  import opened ServerTheorems

  /** Some step other than an interrupted system call. */
  ghost predicate CanStep(cfg: Config, s: State, t: ThreadId) {
    exists ch: Choice :: !ch.Interrupt? && Enabled(cfg, s, t, ch)
  }

  predicate Running(s: State, t: ThreadId) {
    t in s.pc && s.pc[t] != Thread([], Done)
  }

  /** The thread that must act before `t` can: the owner of the mutex it waits for, or the handler it joins. */
  function WaitsOn(s: State, t: ThreadId): Option<ThreadId>
    requires t in s.pc
  {
    var th := s.pc[t];
    if WaitsForClients(s, t) then s.clientsOwner
    else if th.outs != [] then
      if th.outs[0].Write? && th.outs[0].target in s.links then s.links[th.outs[0].target].writer else None
    else if th.at.ReapJoin? && th.at.index < |s.threads| && !Finished(s, s.threads[th.at.index]) then
      Some(Handler(s.threads[th.at.index]))
    else if th.at.JoinAll? && th.at.left != [] && !Finished(s, th.at.left[0]) then Some(Handler(th.at.left[0]))
    else None
  }

  // A scope that holds clients_mtx_ always finds an admissible outcome.

  lemma {:induction false} FirstFreeExists(t: Table, n: nat) returns (m: nat)
    requires n >= 1 && forall k :: 1 <= k < n ==> NicknameUsed(t, DefaultName(k))
    ensures FirstFree(t, m)
    decreases |t| + 2 - n
  {
    UsedNamesBound(t, n);
    if NicknameUsed(t, DefaultName(n)) { m := FirstFreeExists(t, n + 1); } else { m := n; }
  }

  lemma {:induction false} InsertionPoint(names: seq<string>, name: string) returns (position: nat)
    requires Sorted(names)
    ensures position <= |names|
    ensures forall j :: 0 <= j < position ==> StringLe(names[j], name)
    ensures forall j :: position <= j < |names| ==> StringLe(name, names[j])
  {
    if names == [] {
      position := 0;
    } else {
      var last := |names| - 1;
      StringLeTotal(names[last], name);
      if StringLe(names[last], name) {
        position := |names|;
        forall j | 0 <= j < last ensures StringLe(names[j], name) { StringLeTransitive(names[j], names[last], name); }
      } else {
        position := InsertionPoint(names[..last], name);
      }
    }
  }

  lemma SortedInsert(names: seq<string>, position: nat, name: string)
    requires Sorted(names) && position <= |names|
    requires forall j :: 0 <= j < position ==> StringLe(names[j], name)
    requires forall j :: position <= j < |names| ==> StringLe(name, names[j])
    ensures Sorted(names[..position] + [name] + names[position..])
  {
  }

  lemma {:induction false} SortedOrderExists(t: Table, cs: set<Conn>) returns (order: seq<Conn>)
    requires cs <= t.Keys
    ensures Enumerates(order, cs) && forall c :: c in order ==> c in t
    ensures Sorted(NamesInOrder(t, order))
    decreases |cs|
  {
    if cs == {} {
      order := [];
    } else {
      var c :| c in cs;
      var fewer := SortedOrderExists(t, cs - {c});
      assert c !in fewer;
      var position := InsertionPoint(NamesInOrder(t, fewer), t[c].nickname);
      InsertIntoOrder(t, fewer, position, c);
      order := fewer[..position] + [c] + fewer[position..];
      SortedInsert(NamesInOrder(t, fewer), position, t[c].nickname);
    }
  }

  lemma {:induction false} OrderExists(cs: set<Conn>) returns (order: seq<Conn>)
    ensures Enumerates(order, cs)
    decreases |cs|
  {
    if cs == {} {
      order := [];
    } else {
      var c :| c in cs;
      var fewer := OrderExists(cs - {c});
      order := fewer + [c];
    }
  }

  lemma PickExists(t: Table, self: Conn, recipient: string) returns (found: Option<Conn>)
    ensures PickOk(t, self, recipient, found)
  {
    if self in t && exists c :: c in t && Matches(t, c, recipient) {
      var c :| c in t && Matches(t, c, recipient);
      found := Some(c);
    } else {
      found := None;
    }
  }

  // Who can step.

  lemma SendCanStep(cfg: Config, s: State, t: ThreadId)
    requires Inv(cfg, s) && t in s.pc && s.pc[t].outs != [] && !WaitsForClients(s, t) && WaitsOn(s, t).None?
    ensures CanStep(cfg, s, t)
  {
    assert OutsOk(s.links, s.pc[t].outs);
    match s.pc[t].outs[0]
    case Broadcast(_, exclude) =>
      var order := OrderExists(Targets(s.clients, exclude));
      assert Enabled(cfg, s, t, Order(order));
    case SendTo(_, _) => assert Enabled(cfg, s, t, Go);
    case Write(_, _) => assert Enabled(cfg, s, t, Go);
    case Writing(c, payload) =>
      WriterCanStep(cfg, s, t, c);
  }

  /** Whoever holds a write mutex is inside send_frame and can go on. */
  lemma WriterCanStep(cfg: Config, s: State, t: ThreadId, c: Conn)
    requires Inv(cfg, s) && Holds(s, t, c)
    ensures CanStep(cfg, s, t)
  {
    var payload := s.pc[t].outs[0].payload;
    assert c in s.links;
    if |payload| > cfg.maxMessage {
      assert Enabled(cfg, s, t, Go);
    } else {
      assert Enabled(cfg, s, t, Fail);
    }
  }

  lemma HandlerCanStep(cfg: Config, s: State, c: Conn)
    requires Shape(s) && Handler(c) in s.pc && s.pc[Handler(c)].outs == [] && !s.pc[Handler(c)].at.Done?
    requires !WaitsForClients(s, Handler(c))
    ensures CanStep(cfg, s, Handler(c))
  {
    var t := Handler(c);
    assert AtOk(s, t, s.pc[t]);
    var at := s.pc[t].at;
    var ch := Go;
    if at.Receive? {
      ch := PeerClosed;
    } else if at.Deliver? {
      var found := PickExists(s.clients, c, at.recipient);
      ch := Pick(found);
    } else if at.ListUsers? {
      var order := SortedOrderExists(s.clients, Targets(s.clients, None));
      ch := Order(order);
    }
    assert Enabled(cfg, s, t, ch);
  }

  lemma MainCanStep(cfg: Config, s: State)
    requires Main in s.pc && s.pc[Main].outs == [] && Running(s, Main) && !HandlerPoint(s.pc[Main].at)
    requires s.threadsOwner == (if Reaping(s.pc[Main].at) then Some(Main) else None)
    requires s.pc[Main].at.ReapJoin? ==> s.pc[Main].at.index < |s.threads|
    requires !WaitsForClients(s, Main) && WaitsOn(s, Main).None?
    ensures CanStep(cfg, s, Main)
  {
    var at := s.pc[Main].at;
    var ch := Go;
    if at.Poll? {
      ch := Turn(StartShutdown);
    } else if at.AcceptOne? {
      ch := AcceptFailed;
    } else if at.Admit? && |s.clients| < cfg.maxClients {
      var n := FirstFreeExists(s.clients, 1);
      ch := Number(n);
    } else if at.Collect? {
      var order := OrderExists(s.clients.Keys);
      ch := Order(order);
    }
    assert Enabled(cfg, s, Main, ch);
  }

  /** A thread that waits for nobody can step. */
  lemma UnblockedCanStep(cfg: Config, s: State, t: ThreadId)
    requires Inv(cfg, s) && Running(s, t) && WaitsOn(s, t).None?
    ensures CanStep(cfg, s, t)
  {
    assert AtOk(s, t, s.pc[t]);
    if WaitsForClients(s, t) {
      assert Enabled(cfg, s, t, Go);
    } else if s.pc[t].outs != [] {
      SendCanStep(cfg, s, t);
    } else if t.Handler? {
      HandlerCanStep(cfg, s, t.conn);
    } else {
      MainCanStep(cfg, s);
    }
  }

  /** Owners of mutexes never wait: clients_mtx_ is held only inside a scope, write mutexes only inside send_frame. */
  lemma OwnersDoNotWait(s: State, t: ThreadId)
    requires Shape(s) && Locks(s)
    requires s.clientsOwner == Some(t) || exists c :: c in s.links && s.links[c].writer == Some(t)
    ensures Running(s, t) && WaitsOn(s, t).None?
  {
    if s.clientsOwner == Some(t) {
      ScopeDoesNotWait(s, t);
    } else {
      var c :| c in s.links && s.links[c].writer == Some(t);
      WriterDoesNotWait(s, t, c);
    }
  }

  lemma ScopeDoesNotWait(s: State, t: ThreadId)
    requires t in s.pc && UsesClients(s, s.pc[t]) && s.clientsOwner == Some(t)
    ensures Running(s, t) && WaitsOn(s, t).None?
  {
  }

  lemma WriterDoesNotWait(s: State, t: ThreadId, c: Conn)
    requires WritersOk(s) && c in s.links && s.links[c].writer == Some(t)
    ensures Running(s, t) && WaitsOn(s, t).None?
  {
    assert Holds(s, t, c);
  }

  /** What a joined handler waits for is a mutex, and never main's join. */
  lemma JoinedHandlersRun(cfg: Config, s: State, c: Conn)
    requires Inv(cfg, s) && WaitsOn(s, Main) == Some(Handler(c)) && !WaitsForClients(s, Main) && s.pc[Main].outs == []
    ensures Running(s, Handler(c))
  {
    var at := s.pc[Main].at;
    if at.ReapJoin? {
      assert Roll(s)[at.index] == c;
    } else {
      assert Roll(s)[|s.threads|] == c;
    }
    assert c in Roll(s);
    assert AtOk(s, Handler(c), s.pc[Handler(c)]);
  }

  /** Main never waits for threads_mtx_: it is the only thread that takes it, and it lets go before taking it again. */
  lemma ThreadsMutexIsFree(cfg: Config, s: State)
    requires ConfigOk(cfg) && Reachable(cfg, s) && Main in s.pc
    requires s.pc[Main].at.Spawn? || s.pc[Main].at.ReapLock? || s.pc[Main].at.TakeThreads?
    ensures s.threadsOwner.None?
  {
    ReachableInv(cfg, s);
  }

  /** The waits from a running thread end at a thread that can step, after at most two hops and without a cycle. */
  lemma NoDeadlock(cfg: Config, s: State, t: ThreadId)
    requires ConfigOk(cfg) && Reachable(cfg, s) && Running(s, t)
    ensures match WaitsOn(s, t)
            case None => CanStep(cfg, s, t)
            case Some(u) =>
              && u != t && Running(s, u)
              && match WaitsOn(s, u)
                 case None => CanStep(cfg, s, u)
                 case Some(v) => v != u && v != t && Running(s, v) && WaitsOn(s, v).None? && CanStep(cfg, s, v)
  {
    ReachableInv(cfg, s);
    match WaitsOn(s, t) {
      case None => UnblockedCanStep(cfg, s, t);
      case Some(u) => BlockerChain(cfg, s, t, u);
    }
  }

  lemma BlockerChain(cfg: Config, s: State, t: ThreadId, u: ThreadId)
    requires Inv(cfg, s) && Running(s, t) && WaitsOn(s, t) == Some(u)
    ensures u != t && Running(s, u)
    ensures WaitsOn(s, u).None? ==> CanStep(cfg, s, u)
    ensures WaitsOn(s, u).Some? ==>
              var v := WaitsOn(s, u).value; v != u && v != t && Running(s, v) && WaitsOn(s, v).None? && CanStep(cfg, s, v)
  {
    if WaitsForClients(s, t) || s.pc[t].outs != [] {
      OwnersDoNotWait(s, u);
      assert u != t;
    } else {
      MainJoins(cfg, s, t, u);
      if WaitsOn(s, u).Some? {
        HandlersWaitForMutexes(cfg, s, u, WaitsOn(s, u).value);
        UnblockedCanStep(cfg, s, WaitsOn(s, u).value);
      }
    }
    if WaitsOn(s, u).None? { UnblockedCanStep(cfg, s, u); }
  }

  lemma MainJoins(cfg: Config, s: State, t: ThreadId, u: ThreadId)
    requires Inv(cfg, s) && Running(s, t) && WaitsOn(s, t) == Some(u)
    requires !WaitsForClients(s, t) && s.pc[t].outs == []
    ensures t == Main && u.Handler? && Running(s, u)
    ensures forall v :: s.clientsOwner == Some(v) || (exists c :: c in s.links && s.links[c].writer == Some(v)) ==> v != Main
  {
    assert AtOk(s, t, s.pc[t]);
    JoinedHandlersRun(cfg, s, u.conn);
    IdleMainOwnsNothing(s);
  }

  lemma IdleMainOwnsNothing(s: State)
    requires Shape(s) && Locks(s) && s.pc[Main].outs == [] && !WaitsForClients(s, Main)
    requires s.pc[Main].at.ReapJoin? || s.pc[Main].at.JoinAll?
    ensures forall v :: s.clientsOwner == Some(v) || (exists c :: c in s.links && s.links[c].writer == Some(v)) ==> v != Main
  {
    forall c ensures c in s.links ==> s.links[c].writer != Some(Main) {
      assert !Holds(s, Main, c);
    }
  }

  lemma HandlersWaitForOwners(s: State, u: ThreadId, v: ThreadId)
    requires Running(s, u) && HandlerPoint(s.pc[u].at) && WaitsOn(s, u) == Some(v)
    ensures s.clientsOwner == Some(v) || (exists c :: c in s.links && s.links[c].writer == Some(v))
  {
    if !WaitsForClients(s, u) {
      var c := s.pc[u].outs[0].target;
      assert c in s.links && s.links[c].writer == Some(v);
    }
  }

  lemma HandlersWaitForMutexes(cfg: Config, s: State, u: ThreadId, v: ThreadId)
    requires Inv(cfg, s) && Running(s, u) && u.Handler? && WaitsOn(s, u) == Some(v)
    ensures v != u && Running(s, v) && WaitsOn(s, v).None?
    ensures s.clientsOwner == Some(v) || (exists c :: c in s.links && s.links[c].writer == Some(v))
  {
    assert AtOk(s, u, s.pc[u]);
    HandlersWaitForOwners(s, u, v);
    OwnersDoNotWait(s, v);
  }
}
