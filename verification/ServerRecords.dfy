/** What every interleaving keeps of the client table and of the thread registry. */
module ServerRecords {
  import opened Text
  import opened BackendLines
  import opened ClientTable
  import opened ServerMachine
  import opened ServerLocks

  /** A handler that has not yet erased its record. */
  predicate Active(at: Point) {
    HandlerPoint(at) && !at.CloseOwn? && !at.Done?
  }

  function Admitting(at: Point): Option<Conn> {
    match at
    case MarkWelcomed(c, _) => Some(c)
    case Spawn(c, _) => Some(c)
    case _ => None
  }

  function Accepting(at: Point): Option<Conn> {
    match at
    case Admit(c) => Some(c)
    case HangUp(c) => Some(c)
    case _ => None
  }

  function Leftover(at: Point): seq<Conn> {
    if at.JoinAll? then at.left else []
  }

  ghost predicate HandledBy(s: State, c: Conn) {
    Handler(c) in s.pc && Active(s.pc[Handler(c)].at)
  }

  ghost predicate Owned(s: State, c: Conn)
    requires Main in s.pc
  {
    HandledBy(s, c) || Admitting(s.pc[Main].at) == Some(c)
  }

  /** Each record belongs to the one thread that will erase it: the handler of its connection while that is before
      its erase, or main while it is admitting the connection. A handled client has been welcomed. */
  ghost predicate Records(s: State) {
    && Main in s.pc
    && (forall c :: c in s.clients <==> Owned(s, c))
    && (forall c :: c in s.clients && Handler(c) in s.pc ==> s.clients[c].welcomed)
    && (forall c :: Admitting(s.pc[Main].at) == Some(c) || Accepting(s.pc[Main].at) == Some(c) ==> Handler(c) !in s.pc)
    && (s.pc[Main].at.MarkWelcomed? ==> s.pc[Main].at.conn in s.clients && !s.clients[s.pc[Main].at.conn].welcomed)
    && (s.pc[Main].at.Spawn? ==> s.pc[Main].at.conn in s.clients && s.clients[s.pc[Main].at.conn].welcomed)
  }

  ghost predicate Nicks(cfg: Config, s: State) {
    NicknamesDistinct(s.clients) && NicknamesValid(s.clients) && |s.clients| <= cfg.maxClients
  }

  function Roll(s: State): seq<Conn>
    requires Main in s.pc
  {
    s.threads + Leftover(s.pc[Main].at) + s.joined
  }

  /** shutdown_all has taken the threads over. */
  predicate Drained(at: Point) {
    at.JoinAll? || at.CloseListener? || at.Done?
  }

  /** Every handler ever started is on the roll exactly once: registered, about to be joined, or joined. */
  ghost predicate Registry(s: State) {
    && Main in s.pc
    && NoDuplicates(Roll(s))
    && (forall c :: c in Roll(s) <==> Handler(c) in s.pc)
    && (forall c :: c in s.joined ==> Finished(s, c))
    && (s.pc[Main].at.ReapAt? ==> s.pc[Main].at.index <= |s.threads|)
    && (s.pc[Main].at.ReapJoin? ==> s.pc[Main].at.index < |s.threads| && s.threads[s.pc[Main].at.index] !in s.clients)
    && (Drained(s.pc[Main].at) ==> s.threads == [])
  }

  /** Nothing that these invariants speak of changes: a step of the sending machinery. */
  ghost predicate SameControl(s: State, s': State) {
    && s'.clients == s.clients && s'.threads == s.threads && s'.joined == s.joined
    && s'.pc.Keys == s.pc.Keys && forall t :: t in s.pc ==> s'.pc[t].at == s.pc[t].at
  }

  lemma RecordsFrame(s: State, s': State)
    requires Records(s) && SameControl(s, s')
    ensures Records(s')
  {
    forall c ensures Owned(s', c) <==> Owned(s, c) {
    }
  }

  lemma RegistryFrame(s: State, s': State)
    requires Shape(s) && Shape(s') && Registry(s) && SameControl(s, s')
    ensures Registry(s')
  {
    assert Roll(s') == Roll(s);
    forall c | c in s'.joined ensures Finished(s', c) {
      assert Finished(s, c);
    }
  }

  /** A handler before its erase keeps its record, and its new place is before the erase again. */
  lemma RecordsHandler(s: State, c: Conn, th: Thread, table: Table, owner: Option<ThreadId>)
    requires Records(s) && Handler(c) in s.pc && Active(s.pc[Handler(c)].at) && Active(th.at)
    requires table.Keys == s.clients.Keys && forall d :: d in table ==> table[d].welcomed == s.clients[d].welcomed
    ensures Records(SetThread(s, Handler(c), th).(clients := table, clientsOwner := owner))
  {
    var s' := SetThread(s, Handler(c), th).(clients := table, clientsOwner := owner);
    forall d ensures Owned(s', d) <==> Owned(s, d) {
    }
  }

  /** The erase: the record goes in the same step in which its owner passes the erase. */
  lemma RecordsLeave(s: State, c: Conn, th: Thread)
    requires Records(s) && Handler(c) in s.pc && s.pc[Handler(c)].at.Leave? && th.at.CloseOwn?
    ensures Records(SetThread(s, Handler(c), th).(clients := s.clients - {c}, clientsOwner := None))
  {
    var s' := SetThread(s, Handler(c), th).(clients := s.clients - {c}, clientsOwner := None);
    forall d ensures d in s'.clients <==> Owned(s', d) {
      assert d in s.clients <==> Owned(s, d);
    }
  }

  lemma RecordsClosed(s: State, s': State, c: Conn)
    requires Records(s) && Handler(c) in s.pc && s.pc[Handler(c)].at.CloseOwn?
    requires s'.pc == s.pc[Handler(c) := Thread([], Done)] && s'.clients == s.clients
    ensures Records(s')
  {
    forall d ensures Owned(s', d) <==> Owned(s, d) {
    }
  }

  lemma RegistryHandler(s: State, s': State, c: Conn, th: Thread)
    requires Shape(s) && Registry(s) && Handler(c) in s.pc && !s.pc[Handler(c)].at.Done?
    requires s'.pc == s.pc[Handler(c) := th] && s'.clients.Keys <= s.clients.Keys
    requires s'.threads == s.threads && s'.joined == s.joined
    ensures Registry(s')
  {
    assert Roll(s') == Roll(s);
    forall d | d in s'.joined ensures Finished(s', d) {
      assert Finished(s, d);
    }
  }

  lemma NicksRename(cfg: Config, s: State, c: Conn, nickname: string)
    requires Nicks(cfg, s) && c in s.clients && ValidNickname(nickname) && !UsedByOther(s.clients, c, nickname)
    ensures Nicks(cfg, s.(clients := s.clients[c := s.clients[c].(nickname := nickname)]))
  {
    assert s.clients[c := s.clients[c].(nickname := nickname)].Keys == s.clients.Keys;
  }

  lemma NicksLeave(cfg: Config, s: State, c: Conn)
    requires Nicks(cfg, s)
    ensures Nicks(cfg, s.(clients := s.clients - {c}))
  {
    CardinalityOfSubset((s.clients - {c}).Keys, s.clients.Keys);
  }

  lemma NicksAdmit(cfg: Config, s: State, c: Conn, n: nat)
    requires ConfigOk(cfg) && Nicks(cfg, s) && c !in s.clients
    requires |s.clients| < cfg.maxClients && FirstFree(s.clients, n)
    ensures Nicks(cfg, s.(clients := s.clients[c := ClientRecord(DefaultName(n), false)]))
  {
    DefaultNameIsValid(s.clients, n);
  }

  // Steps of main.

  /** Points of main that play no part here. */
  predicate Plain(at: Point) {
    at.Poll? || at.AcceptOne? || at.ReapLock? || at.StartShutdown? || at.Collect? || at.ShutdownFds? || at.TakeThreads?
  }

  /** Main goes on to a point that plays no part, from one that admitted nobody and joined nobody. */
  lemma MainPlain(s: State, s': State, th: Thread)
    requires Shape(s) && Records(s) && Registry(s)
    requires s'.pc == s.pc[Main := th] && s'.clients == s.clients && s'.threads == s.threads && s'.joined == s.joined
    requires Plain(th.at) && Admitting(s.pc[Main].at).None? && Leftover(s.pc[Main].at) == []
    ensures Records(s') && Registry(s')
  {
    assert Roll(s') == Roll(s);
    forall c ensures Owned(s', c) <==> Owned(s, c) {
    }
    forall c | c in s'.joined ensures Finished(s', c) {
      assert Finished(s, c);
    }
  }

  /** accept returned a connection nobody has seen. */
  lemma MainAccepted(s: State, s': State, c: Conn)
    requires Shape(s) && Records(s) && Registry(s)
    requires s.pc[Main].at.AcceptOne? && c !in s.links
    requires s'.pc == s.pc[Main := Thread([], Admit(c))]
    requires s'.clients == s.clients && s'.threads == s.threads && s'.joined == s.joined
    ensures Records(s') && Registry(s')
  {
    assert forall d :: Handler(d) in s.pc ==> d in s.links by {
      forall d | Handler(d) in s.pc ensures d in s.links { assert AtOk(s, Handler(d), s.pc[Handler(d)]); }
    }
    assert Roll(s') == Roll(s);
    forall d ensures Owned(s', d) <==> Owned(s, d) {
    }
    forall d | d in s'.joined ensures Finished(s', d) {
      assert Finished(s, d);
    }
  }

  /** The admission scope: turned away, or entered into the table. */
  lemma MainAdmit(s: State, s': State, c: Conn, th: Thread, record: Option<ClientRecord>)
    requires Shape(s) && Records(s) && Registry(s) && s.pc[Main].at == Admit(c)
    requires s'.pc == s.pc[Main := th] && s'.threads == s.threads && s'.joined == s.joined
    requires record.None? ==> th.at == HangUp(c) && s'.clients == s.clients
    requires record.Some? ==>
               && th.at.MarkWelcomed? && th.at.conn == c && !record.value.welcomed
               && s'.clients == s.clients[c := record.value]
    ensures Records(s') && Registry(s')
  {
    assert Roll(s') == Roll(s);
    forall d ensures d in s'.clients <==> Owned(s', d) {
      assert d in s.clients <==> Owned(s, d);
    }
    forall d | d in s'.joined ensures Finished(s', d) {
      assert Finished(s, d);
    }
  }

  lemma MainWelcomed(s: State, s': State, c: Conn, name: string)
    requires Shape(s) && Records(s) && Registry(s) && s.pc[Main].at == MarkWelcomed(c, name)
    requires s'.pc == s.pc[Main := Thread([], Spawn(c, name))] && s'.threads == s.threads && s'.joined == s.joined
    requires c in s.clients && s'.clients == s.clients[c := s.clients[c].(welcomed := true)]
    ensures Records(s') && Registry(s')
  {
    assert Roll(s') == Roll(s);
    forall d ensures d in s'.clients <==> Owned(s', d) {
      assert d in s.clients <==> Owned(s, d);
    }
    forall d | d in s'.joined ensures Finished(s', d) {
      assert Finished(s, d);
    }
  }

  /** The new handler takes the record over from main and is registered. */
  lemma MainSpawn(s: State, s': State, c: Conn, name: string, th: Thread)
    requires Shape(s) && Records(s) && Registry(s) && s.pc[Main].at == Spawn(c, name) && th.at.Poll?
    requires s'.pc == s.pc[Handler(c) := Thread([], Receive)][Main := th]
    requires s'.clients == s.clients && s'.threads == s.threads + [c] && s'.joined == s.joined
    ensures Records(s') && Registry(s')
  {
    SpawnRecords(s, s', c, name, th);
    SpawnRegistry(s, s', c, name, th);
  }

  lemma SpawnRecords(s: State, s': State, c: Conn, name: string, th: Thread)
    requires Records(s) && s.pc[Main].at == Spawn(c, name) && th.at.Poll?
    requires s'.pc == s.pc[Handler(c) := Thread([], Receive)][Main := th] && s'.clients == s.clients
    ensures Records(s')
  {
    assert Handler(c) !in s.pc;
    forall d ensures Owned(s', d) <==> Owned(s, d) {
    }
  }

  lemma SpawnRegistry(s: State, s': State, c: Conn, name: string, th: Thread)
    requires Records(s) && Registry(s) && s.pc[Main].at == Spawn(c, name) && th.at.Poll?
    requires s'.pc == s.pc[Handler(c) := Thread([], Receive)][Main := th]
    requires s'.threads == s.threads + [c] && s'.joined == s.joined
    ensures Registry(s')
  {
    assert Handler(c) !in s.pc && c !in Roll(s);
    assert Roll(s) == s.threads + s.joined;
    assert Roll(s') == s.threads + [c] + s.joined;
    InsertOne(s.threads, c, s.joined);
    forall d ensures d in Roll(s') <==> Handler(d) in s'.pc {
      assert d in Roll(s) <==> Handler(d) in s.pc;
    }
    forall d | d in s'.joined ensures Finished(s', d) {
      assert Finished(s, d) && d in Roll(s);
    }
  }

  lemma InsertOne(a: seq<Conn>, c: Conn, b: seq<Conn>)
    requires NoDuplicates(a + b) && c !in a + b
    ensures NoDuplicates(a + [c] + b)
    ensures forall d :: d in a + [c] + b <==> d in a + b || d == c
  {
    var more := a + [c] + b;
    forall i, j | 0 <= i < j < |more| ensures more[i] != more[j] {
      assert more[i] == c || more[i] == (a + b)[if i < |a| then i else i - 1];
      assert more[j] == c || more[j] == (a + b)[if j < |a| then j else j - 1];
    }
    forall d ensures d in more <==> d in a + b || d == c {
      assert d in more <==> d in a || d == c || d in b;
    }
  }

  /** One turn of the reap loop: past a live entry, or on to join a dead one, or out of the loop. */
  lemma MainReapLook(s: State, s': State, at: Point)
    requires Shape(s) && Records(s) && Registry(s)
    requires s.pc[Main].at.ReapLock? || s.pc[Main].at.ReapAt?
    requires s'.pc == s.pc[Main := Thread([], at)]
    requires s'.clients == s.clients && s'.threads == s.threads && s'.joined == s.joined
    requires Reaping(at) && at.index <= |s.threads|
    requires at.ReapJoin? ==> at.index < |s.threads| && s.threads[at.index] !in s.clients
    ensures Records(s') && Registry(s')
  {
    assert Roll(s') == Roll(s);
    forall c ensures Owned(s', c) <==> Owned(s, c) {
    }
    forall c | c in s'.joined ensures Finished(s', c) {
      assert Finished(s, c);
    }
  }

  /** Only main's own entry of the program table changes, and not whether a handler is finished. */
  lemma RecordsMain(s: State, s': State, at: Point)
    requires Records(s) && s'.pc == s.pc[Main := Thread([], at)] && s'.clients == s.clients
    requires Admitting(at) == Admitting(s.pc[Main].at) == None && Accepting(at).None?
    ensures Records(s')
  {
    forall c ensures Owned(s', c) <==> Owned(s, c) {
    }
  }

  lemma RegistryJoin(s: State, s': State, at: Point, c: Conn)
    requires Main in s.pc && Registry(s) && Finished(s, c)
    requires s'.pc == s.pc[Main := Thread([], at)] && s'.joined == s.joined + [c]
    requires NoDuplicates(Roll(s')) && forall d :: d in Roll(s') <==> d in Roll(s)
    requires (at.ReapAt? && at.index <= |s'.threads|) || (at.JoinAll? && s'.threads == [])
    ensures Registry(s')
  {
    forall d | d in s'.joined ensures Finished(s', d) {
      assert d == c || d in s.joined;
    }
  }

  lemma MainReapJoin(s: State, s': State, i: nat, at: Point)
    requires Records(s) && Registry(s)
    requires s.pc[Main].at.ReapJoin? && s.pc[Main].at.index == i && Finished(s, s.threads[i])
    requires at.ReapAt? && at.index == i
    requires s'.pc == s.pc[Main := Thread([], at)] && s'.clients == s.clients
    requires s'.threads == s.threads[..i] + s.threads[i + 1..] && s'.joined == s.joined + [s.threads[i]]
    ensures Records(s') && Registry(s')
  {
    RecordsMain(s, s', at);
    assert s.threads + [] == s.threads;
    assert s'.threads + [] == s'.threads;
    MoveToEnd(s.threads, i, s.joined);
    RegistryJoin(s, s', at, s.threads[i]);
  }

  lemma MoveToEnd(a: seq<Conn>, i: nat, b: seq<Conn>)
    requires i < |a| && NoDuplicates(a + b)
    ensures var moved := a[..i] + a[i + 1..] + (b + [a[i]]);
            NoDuplicates(moved) && forall c :: c in moved <==> c in a + b
  {
    var moved := a[..i] + a[i + 1..] + (b + [a[i]]);
    var all := a + b;
    var last := |all| - 1;
    forall j | 0 <= j < |moved| ensures moved[j] == all[if j == last then i else if j < i then j else j + 1] {
    }
    forall c | c in all ensures c in moved {
      var k :| 0 <= k < |all| && all[k] == c;
      assert moved[if k == i then last else if k < i then k else k - 1] == c;
    }
  }

  /** shutdown_all moves every registered thread over to be joined. */
  lemma MainTakeThreads(s: State, s': State)
    requires Shape(s) && Records(s) && Registry(s) && s.pc[Main].at.TakeThreads?
    requires s'.pc == s.pc[Main := Thread([], JoinAll(s.threads))]
    requires s'.clients == s.clients && s'.threads == [] && s'.joined == s.joined
    ensures Records(s') && Registry(s')
  {
    assert Roll(s') == Roll(s);
    forall c ensures Owned(s', c) <==> Owned(s, c) {
    }
    forall c | c in s'.joined ensures Finished(s', c) {
      assert Finished(s, c);
    }
  }

  lemma MainJoin(s: State, s': State, left: seq<Conn>)
    requires Records(s) && Registry(s) && s.pc[Main].at == JoinAll(left)
    requires left != [] && Finished(s, left[0])
    requires s'.pc == s.pc[Main := Thread([], JoinAll(left[1..]))] && s'.clients == s.clients
    requires s'.threads == s.threads && s'.joined == s.joined + [left[0]]
    ensures Records(s') && Registry(s')
  {
    RecordsMain(s, s', JoinAll(left[1..]));
    assert [] + left == left && [] + left[1..] == left[..0] + left[1..];
    MoveToEnd(left, 0, s.joined);
    RegistryJoin(s, s', JoinAll(left[1..]), left[0]);
  }

  /** Nothing left to join, or the listener closed. */
  lemma MainEnds(s: State, s': State, at: Point)
    requires Records(s) && Registry(s)
    requires (s.pc[Main].at == JoinAll([]) && at.CloseListener?) || (s.pc[Main].at.CloseListener? && at.Done?)
    requires s'.pc == s.pc[Main := Thread([], at)]
    requires s'.clients == s.clients && s'.threads == s.threads && s'.joined == s.joined
    ensures Records(s') && Registry(s')
  {
    RecordsMain(s, s', at);
    assert Roll(s') == Roll(s);
    forall c | c in s'.joined ensures Finished(s', c) {
      assert Finished(s, c);
    }
  }
}
