/** What every interleaving keeps of the threads' programs and of the lock owners. */
module ServerLocks {
  import opened Text
  import opened BackendLines
  import opened ClientTable
  import opened ServerMachine
  import W = WireProtocol

  // Program shape.

  predicate HasTarget(out: Send) { !out.Broadcast? }

  predicate OutsOk(links: map<Conn, Link>, outs: seq<Send>) {
    forall i :: 0 <= i < |outs| ==>
      (i > 0 ==> !outs[i].Writing?) && (HasTarget(outs[i]) ==> outs[i].target in links)
  }

  predicate AtOk(s: State, t: ThreadId, th: Thread) {
    && (t.Handler? ==> HandlerPoint(th.at) && t.conn in s.links)
    && (t.Main? ==> !HandlerPoint(th.at) || th.at.Done?)
    && (th.at.Admit? ==> th.at.conn in s.links)
    && (th.at.MarkWelcomed? || th.at.Spawn? ==> th.at.conn in s.links)
    && (th.at.Done? ==> th.outs == [])
    && (th.at.Rename? ==> ValidNickname(th.at.nickname))
  }

  ghost predicate Shape(s: State) {
    && Main in s.pc
    && (forall c :: c in s.clients ==> c in s.links)
    && forall t :: t in s.pc ==> AtOk(s, t, s.pc[t]) && OutsOk(s.links, s.pc[t].outs)
  }

  lemma OutsMonotone(a: map<Conn, Link>, b: map<Conn, Link>, outs: seq<Send>)
    requires OutsOk(a, outs) && a.Keys <= b.Keys
    ensures OutsOk(b, outs)
  {
  }

  /** New sends in front of the old tail keep the program well formed. */
  lemma OutsSplice(links: map<Conn, Link>, outs: seq<Send>, sends: seq<Send>)
    requires outs != [] && OutsOk(links, outs) && OutsOk(links, sends)
    ensures OutsOk(links, sends + outs[1..])
  {
    forall i | 0 <= i < |sends + outs[1..]|
      ensures (i > 0 ==> !(sends + outs[1..])[i].Writing?)
      ensures HasTarget((sends + outs[1..])[i]) ==> (sends + outs[1..])[i].target in links
    {
      if i >= |sends| { assert (sends + outs[1..])[i] == outs[i - |sends| + 1]; }
    }
  }

  /** A step that replaces one thread's program and only adds links. */
  lemma ShapeUpdate(s: State, s': State, t: ThreadId)
    requires Shape(s)
    requires t in s.pc && s'.pc.Keys == s.pc.Keys
    requires forall u :: u in s.pc && u != t ==> s'.pc[u] == s.pc[u]
    requires s.links.Keys <= s'.links.Keys
    requires s'.clients.Keys <= s'.links.Keys
    requires AtOk(s', t, s'.pc[t]) && OutsOk(s'.links, s'.pc[t].outs)
    ensures Shape(s')
  {
    forall u | u in s'.pc ensures AtOk(s', u, s'.pc[u]) && OutsOk(s'.links, s'.pc[u].outs) {
      if u != t { OutsMonotone(s.links, s'.links, s.pc[u].outs); }
    }
  }

  lemma ShapeExpand(s: State, t: ThreadId, sends: seq<Send>)
    requires Shape(s) && t in s.pc && s.pc[t].outs != []
    requires OutsOk(s.links, sends)
    ensures Shape(Expand(s, t, sends))
  {
    OutsSplice(s.links, s.pc[t].outs, sends);
    ShapeUpdate(s, Expand(s, t, sends), t);
  }

  lemma ShapeBeginWrite(cfg: Config, s: State, t: ThreadId, c: Conn, payload: string)
    requires Shape(s) && t in s.pc && s.pc[t].outs != [] && c in s.links
    ensures Shape(BeginWrite(cfg, s, t, c, payload))
  {
    OutsSplice(s.links, s.pc[t].outs, [Writing(c, payload)]);
    var s' := BeginWrite(cfg, s, t, c, payload);
    OutsMonotone(s.links, s'.links, s'.pc[t].outs);
    ShapeUpdate(s, s', t);
  }

  lemma ShapeAfterCall(s: State, t: ThreadId, c: Conn, link: Link, returned: bool)
    requires Shape(s) && t in s.pc && s.pc[t].outs != [] && c in s.links
    ensures Shape(AfterCall(s, t, c, link, returned))
  {
    OutsSplice(s.links, s.pc[t].outs, []);
    assert [] + s.pc[t].outs[1..] == s.pc[t].outs[1..];
    var s' := AfterCall(s, t, c, link, returned);
    OutsMonotone(s.links, s'.links, s'.pc[t].outs);
    ShapeUpdate(s, s', t);
  }

  lemma ShapeThread(s: State, t: ThreadId, th: Thread, table: Table, owner: Option<ThreadId>)
    requires Shape(s) && t in s.pc && AtOk(s, t, th) && OutsOk(s.links, th.outs)
    requires table.Keys <= s.clients.Keys
    ensures Shape(SetThread(s, t, th).(clients := table, clientsOwner := owner))
  {
    var s' := SetThread(s, t, th).(clients := table, clientsOwner := owner);
    assert AtOk(s', t, th);
    ShapeUpdate(s, s', t);
  }

  // Locks.

  predicate Reaping(at: Point) { at.ReapAt? || at.ReapJoin? }

  ghost predicate Holds(s: State, t: ThreadId, c: Conn) {
    t in s.pc && s.pc[t].outs != [] && s.pc[t].outs[0].Writing? && s.pc[t].outs[0].target == c
  }

  ghost predicate WritersOk(s: State) {
    && (forall c :: c in s.links && s.links[c].writer.Some? ==> Holds(s, s.links[c].writer.value, c))
    && (forall t, c :: Holds(s, t, c) ==> c in s.links && s.links[c].writer == Some(t))
  }

  /** Whoever owns clients_mtx_ stands at a scope that needs it; threads_mtx_ is held exactly while main reaps;
      a write mutex is held exactly by the thread whose next action is a send on that socket. */
  ghost predicate Locks(s: State) {
    && Main in s.pc
    && (s.clientsOwner.Some? ==> s.clientsOwner.value in s.pc && UsesClients(s, s.pc[s.clientsOwner.value]))
    && s.threadsOwner == (if Reaping(s.pc[Main].at) then Some(Main) else None)
    && WritersOk(s)
  }

  /** A step of `t` that neither starts nor ends a send keeps the write mutexes in order. */
  lemma WritersFrame(s: State, s': State, t: ThreadId)
    requires Shape(s) && WritersOk(s)
    requires t in s.pc && forall c :: !Holds(s, t, c) && !Holds(s', t, c)
    requires forall u :: u in s.pc && u != t ==> u in s'.pc && s'.pc[u] == s.pc[u]
    requires forall u :: u in s'.pc && u != t ==> u in s.pc || s'.pc[u].outs == []
    requires forall c :: c in s.links ==> c in s'.links && s'.links[c].writer == s.links[c].writer
    requires forall c :: c in s'.links && c !in s.links ==> s'.links[c].writer.None?
    ensures WritersOk(s')
  {
    forall c | c in s'.links && s'.links[c].writer.Some? ensures Holds(s', s'.links[c].writer.value, c) {
      assert Holds(s, s.links[c].writer.value, c);
    }
    forall u, c | Holds(s', u, c) ensures c in s'.links && s'.links[c].writer == Some(u) {
      assert Holds(s, u, c);
    }
  }

  lemma LocksFrame(s: State, s': State, t: ThreadId)
    requires Shape(s) && Locks(s) && WritersOk(s')
    requires t in s.pc && forall u :: u in s.pc && u != t ==> u in s'.pc && s'.pc[u] == s.pc[u]
    requires (s'.clientsOwner == s.clientsOwner && s.clientsOwner != Some(t)) || s'.clientsOwner == None
    requires s'.threads == s.threads || t.Main?
    requires Main in s'.pc && s'.threadsOwner == (if Reaping(s'.pc[Main].at) then Some(Main) else None)
    ensures Locks(s')
  {
  }

  lemma LocksExpand(s: State, t: ThreadId, sends: seq<Send>)
    requires Shape(s) && Locks(s) && t in s.pc && s.pc[t].outs != [] && !s.pc[t].outs[0].Writing?
    requires forall i :: 0 <= i < |sends| ==> !sends[i].Writing?
    ensures Locks(Expand(s, t, sends))
  {
    var s' := Expand(s, t, sends);
    var outs := s.pc[t].outs;
    if s'.pc[t].outs != [] {
      assert s'.pc[t].outs[0] == if sends != [] then sends[0] else outs[1];
    }
    WritersFrame(s, s', t);
    LocksFrame(s, s', t);
  }

  lemma LocksBeginWrite(cfg: Config, s: State, t: ThreadId, c: Conn, payload: string)
    requires Shape(s) && Locks(s) && t in s.pc && s.pc[t].outs != [] && s.pc[t].outs[0] == Write(c, payload)
    requires c in s.links && s.links[c].writer.None? && s.clientsOwner != Some(t)
    ensures Locks(BeginWrite(cfg, s, t, c, payload))
  {
    var s' := BeginWrite(cfg, s, t, c, payload);
    forall d | d in s'.links && s'.links[d].writer.Some? ensures Holds(s', s'.links[d].writer.value, d) {
      if d != c { assert Holds(s, s.links[d].writer.value, d); }
    }
    forall u, d | Holds(s', u, d) ensures d in s'.links && s'.links[d].writer == Some(u) {
      if u != t { assert Holds(s, u, d); }
    }
    LocksFrame(s, s', t);
  }

  lemma LocksAfterCall(s: State, t: ThreadId, c: Conn, link: Link, returned: bool)
    requires Shape(s) && Locks(s) && t in s.pc && Holds(s, t, c) && s.clientsOwner != Some(t) && c in s.links
    requires link.writer == if returned then None else s.links[c].writer
    ensures Locks(AfterCall(s, t, c, link, returned))
  {
    var s' := AfterCall(s, t, c, link, returned);
    forall d | d in s'.links && s'.links[d].writer.Some? ensures Holds(s', s'.links[d].writer.value, d) {
      assert Holds(s, s.links[d].writer.value, d);
    }
    forall u, d | Holds(s', u, d) ensures d in s'.links && s'.links[d].writer == Some(u) {
      if u != t { assert Holds(s, u, d); }
    }
    LocksFrame(s, s', t);
  }

  /** A handler or main moves on, with sends that have not begun; it may let go of clients_mtx_. */
  lemma LocksThread(s: State, t: ThreadId, th: Thread, table: Table, owner: Option<ThreadId>)
    requires Shape(s) && Locks(s) && t in s.pc && s.pc[t].outs == []
    requires th.outs == [] || !th.outs[0].Writing?
    requires owner.None? || (owner == s.clientsOwner && owner != Some(t))
    requires t.Main? ==> !Reaping(th.at) && !Reaping(s.pc[t].at)
    ensures Locks(SetThread(s, t, th).(clients := table, clientsOwner := owner))
  {
    var s' := SetThread(s, t, th).(clients := table, clientsOwner := owner);
    WritersFrame(s, s', t);
    LocksFrame(s, s', t);
  }
}
