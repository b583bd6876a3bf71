/** The server's inductive invariant: every step of every thread keeps all of it. */
module ServerInvariant {
  import opened Text
  import opened BackendLines
  import opened ClientTable
  import opened ServerMachine
  import opened ServerLocks
  import opened ServerRecords
  import opened ServerWire
  import W = WireProtocol

  ghost predicate Control(cfg: Config, s: State) {
    Shape(s) && Locks(s) && Records(s) && Registry(s) && Nicks(cfg, s)
  }

  ghost predicate Streams(cfg: Config, s: State) {
    ConfigOk(cfg) && Wires(cfg, s) && Greetings(cfg, s)
  }

  ghost predicate Inv(cfg: Config, s: State) {
    Control(cfg, s) && Streams(cfg, s)
  }

  lemma InvInit(cfg: Config)
    requires ConfigOk(cfg)
    ensures Inv(cfg, Init())
  {
  }

  lemma InvAcquire(cfg: Config, s: State, t: ThreadId)
    requires Inv(cfg, s) && t in s.pc && UsesClients(s, s.pc[t]) && s.clientsOwner.None?
    ensures Inv(cfg, s.(clientsOwner := Some(t)))
  {
    ControlAcquire(cfg, s, t);
    StreamsSame(cfg, s, s.(clientsOwner := Some(t)));
  }

  lemma ControlAcquire(cfg: Config, s: State, t: ThreadId)
    requires Control(cfg, s) && t in s.pc && UsesClients(s, s.pc[t]) && s.clientsOwner.None?
    ensures Control(cfg, s.(clientsOwner := Some(t)))
  {
    var s' := s.(clientsOwner := Some(t));
    ShapeUpdate(s, s', t);
    forall u, c ensures Holds(s', u, c) <==> Holds(s, u, c) {
    }
    ControlFrame(cfg, s, s');
  }

  lemma StreamsSame(cfg: Config, s: State, s': State)
    requires Streams(cfg, s) && s'.pc == s.pc && s'.links == s.links && s'.clients == s.clients
    ensures Streams(cfg, s')
  {
    forall c | c in s'.links ensures InFlight(cfg, s', c) && GreetOk(cfg, s', c) {
      assert InFlight(cfg, s, c) && GreetOk(cfg, s, c);
      if Quiet(cfg, s, c) { assert Quiet(cfg, s', c); }
    }
  }

  // Sends.

  lemma InvExpand(cfg: Config, s: State, t: ThreadId, sends: seq<Send>)
    requires Inv(cfg, s) && t in s.pc && s.pc[t].outs != []
    requires OutsOk(s.links, sends) && forall i :: 0 <= i < |sends| ==> !sends[i].Writing?
    requires
      || (s.pc[t].outs[0].Broadcast? && Reaches(s.clients, sends))
      || (s.pc[t].outs[0].SendTo? && sends == Lookup(s.clients, s.pc[t].outs[0].target, s.pc[t].outs[0].payload))
    ensures Inv(cfg, Expand(s, t, sends))
  {
    ControlExpand(cfg, s, t, sends);
    StreamsExpand(cfg, s, t, sends);
  }

  lemma StreamsExpand(cfg: Config, s: State, t: ThreadId, sends: seq<Send>)
    requires Streams(cfg, s) && t in s.pc && s.pc[t].outs != []
    requires
      || (s.pc[t].outs[0].Broadcast? && Reaches(s.clients, sends))
      || (s.pc[t].outs[0].SendTo? && sends == Lookup(s.clients, s.pc[t].outs[0].target, s.pc[t].outs[0].payload))
    ensures Streams(cfg, Expand(s, t, sends))
  {
    WiresFrame(cfg, s, Expand(s, t, sends), t);
    GreetingsExpand(cfg, s, t, sends);
  }

  lemma ControlExpand(cfg: Config, s: State, t: ThreadId, sends: seq<Send>)
    requires Control(cfg, s) && t in s.pc && s.pc[t].outs != [] && !s.pc[t].outs[0].Writing?
    requires OutsOk(s.links, sends) && forall i :: 0 <= i < |sends| ==> !sends[i].Writing?
    ensures Control(cfg, Expand(s, t, sends))
  {
    ShapeExpand(s, t, sends);
    LocksExpand(s, t, sends);
    ControlFrame(cfg, s, Expand(s, t, sends));
  }

  lemma ControlFrame(cfg: Config, s: State, s': State)
    requires Control(cfg, s) && SameControl(s, s') && Shape(s') && Locks(s')
    ensures Control(cfg, s')
  {
    RecordsFrame(s, s');
    RegistryFrame(s, s');
  }

  lemma InvBroadcast(cfg: Config, s: State, t: ThreadId, payload: string, exclude: Option<Conn>, order: seq<Conn>)
    requires Inv(cfg, s) && t in s.pc && s.pc[t].outs != [] && s.pc[t].outs[0] == Broadcast(payload, exclude)
    requires Enumerates(order, Targets(s.clients, exclude))
    ensures Inv(cfg, Expand(s, t, Writes(order, payload)))
  {
    forall i | 0 <= i < |order| ensures order[i] in s.clients && s.clients[order[i]].welcomed && order[i] in s.links {
      assert order[i] in order;
    }
    InvExpand(cfg, s, t, Writes(order, payload));
  }

  lemma InvBeginWrite(cfg: Config, s: State, t: ThreadId, c: Conn, payload: string)
    requires Inv(cfg, s) && t in s.pc && s.pc[t].outs != [] && s.pc[t].outs[0] == Write(c, payload)
    requires c in s.links && s.links[c].writer.None?
    ensures Inv(cfg, BeginWrite(cfg, s, t, c, payload))
  {
    ControlBeginWrite(cfg, s, t, c, payload);
    WiresBeginWrite(cfg, s, t, c, payload);
    GreetingsSameDone(cfg, s, BeginWrite(cfg, s, t, c, payload), t, c, Writing(c, payload));
  }

  lemma ControlBeginWrite(cfg: Config, s: State, t: ThreadId, c: Conn, payload: string)
    requires Control(cfg, s) && t in s.pc && s.pc[t].outs != [] && s.pc[t].outs[0] == Write(c, payload)
    requires c in s.links && s.links[c].writer.None?
    ensures Control(cfg, BeginWrite(cfg, s, t, c, payload))
  {
    ShapeBeginWrite(cfg, s, t, c, payload);
    LocksBeginWrite(cfg, s, t, c, payload);
    ControlFrame(cfg, s, BeginWrite(cfg, s, t, c, payload));
  }

  lemma InvWriteCall(cfg: Config, s: State, t: ThreadId, c: Conn, payload: string, ch: Choice)
    requires Inv(cfg, s) && t in s.pc && s.pc[t].outs != [] && s.pc[t].outs[0] == Writing(c, payload)
    requires c in s.links && WriteEnabled(cfg, s.links[c], payload, ch)
    ensures Inv(cfg, WriteCall(cfg, s, t, c, payload, ch))
  {
    assert Holds(s, t, c) && s.links[c].writer == Some(t);
    assert LinkOk(cfg, s.links[c]) && InFlight(cfg, s, c);
    WriteStepOk(cfg, s.links[c], payload, ch);
    var (link, returned) := WriteStep(cfg, s.links[c], payload, ch);
    InvAfterCall(cfg, s, t, c, payload, link, returned);
  }

  lemma InvAfterCall(cfg: Config, s: State, t: ThreadId, c: Conn, payload: string, link: Link, returned: bool)
    requires Inv(cfg, s) && t in s.pc && s.pc[t].outs != [] && s.pc[t].outs[0] == Writing(c, payload)
    requires c in s.links && s.links[c].writer == Some(t)
    requires LinkOk(cfg, link) && link.greeting == s.links[c].greeting
    requires link.writer == if returned then None else Some(t)
    requires link.broken || if returned then link.sent == 0 else |payload| <= cfg.maxMessage && link.current == payload
    requires s.links[c].broken ==> link.broken && link.done == s.links[c].done
    requires link.done == s.links[c].done || link.done == s.links[c].done + [payload]
    requires returned && |payload| <= cfg.maxMessage ==> link.broken || link.done == s.links[c].done + [payload]
    requires !returned ==> link.done == s.links[c].done && link.broken == s.links[c].broken
    ensures Inv(cfg, AfterCall(s, t, c, link, returned))
  {
    ControlAfterCall(cfg, s, t, c, link, returned);
    WiresAfterCall(cfg, s, t, c, payload, link, returned);
    if returned {
      GreetingsReturned(cfg, s, AfterCall(s, t, c, link, returned), t, c);
    } else {
      GreetingsContinues(cfg, s, t, c, link);
    }
  }

  lemma ControlAfterCall(cfg: Config, s: State, t: ThreadId, c: Conn, link: Link, returned: bool)
    requires Control(cfg, s) && Holds(s, t, c) && c in s.links
    requires link.writer == if returned then None else s.links[c].writer
    ensures Control(cfg, AfterCall(s, t, c, link, returned))
  {
    ShapeAfterCall(s, t, c, link, returned);
    LocksAfterCall(s, t, c, link, returned);
    ControlFrame(cfg, s, AfterCall(s, t, c, link, returned));
  }

  lemma GreetingsContinues(cfg: Config, s: State, t: ThreadId, c: Conn, link: Link)
    requires Greetings(cfg, s) && Holds(s, t, c) && c in s.links
    requires link.done == s.links[c].done && link.broken == s.links[c].broken && link.greeting == s.links[c].greeting
    ensures Greetings(cfg, AfterCall(s, t, c, link, false))
  {
    var th := s.pc[t];
    assert th.outs == [th.outs[0]] + th.outs[1..];
    assert s.pc == s.pc[t := th.(outs := [th.outs[0]] + th.outs[1..])];
    GreetingsSameDone(cfg, s, AfterCall(s, t, c, link, false), t, c, th.outs[0]);
  }

  lemma SendSteps(cfg: Config, s: State, t: ThreadId, ch: Choice, out: Send)
    requires ConfigOk(cfg) && t in s.pc && s.pc[t].outs != [] && s.pc[t].outs[0] == out && SendEnabled(cfg, s, out, ch)
    ensures out.Broadcast? ==> SendStep(cfg, s, t, ch) == Expand(s, t, Writes(ch.order, out.payload))
    ensures out.SendTo? ==> SendStep(cfg, s, t, ch) == Expand(s, t, Lookup(s.clients, out.target, out.payload))
    ensures out.Write? ==> SendStep(cfg, s, t, ch) == BeginWrite(cfg, s, t, out.target, out.payload)
    ensures out.Writing? ==> SendStep(cfg, s, t, ch) == WriteCall(cfg, s, t, out.target, out.payload, ch)
  {
  }

  lemma InvSend(cfg: Config, s: State, s': State, t: ThreadId, ch: Choice)
    requires Inv(cfg, s) && t in s.pc && s.pc[t].outs != []
    requires SendEnabled(cfg, s, s.pc[t].outs[0], ch) && s' == SendStep(cfg, s, t, ch)
    ensures Inv(cfg, s')
  {
    var out := s.pc[t].outs[0];
    SendSteps(cfg, s, t, ch, out);
    if out.Broadcast? { InvBroadcast(cfg, s, t, out.payload, out.exclude, ch.order); }
    else if out.SendTo? { InvSendTo(cfg, s, t, out.target, out.payload); }
    else if out.Write? { InvBeginWrite(cfg, s, t, out.target, out.payload); }
    else { InvWriteCall(cfg, s, t, out.target, out.payload, ch); }
  }

  lemma InvSendTo(cfg: Config, s: State, t: ThreadId, c: Conn, payload: string)
    requires Inv(cfg, s) && t in s.pc && s.pc[t].outs != [] && s.pc[t].outs[0] == SendTo(c, payload)
    ensures Inv(cfg, Expand(s, t, Lookup(s.clients, c, payload)))
  {
    assert OutsOk(s.links, s.pc[t].outs);
    InvExpand(cfg, s, t, Lookup(s.clients, c, payload));
  }

  // Handlers.

  /** Sends a handler may add: to itself, to a welcomed client, or a broadcast. None has begun. */
  predicate HandlerSends(t: Table, c: Conn, sends: seq<Send>) {
    forall i :: 0 <= i < |sends| ==>
      || sends[i].Broadcast?
      || (sends[i].SendTo? && (sends[i].target == c || (sends[i].target in t && t[sends[i].target].welcomed)))
  }

  lemma OnLineEffect(t: Table, c: Conn, raw: string)
    ensures var th := OnLine(c, raw);
            && HandlerSends(t, c, th.outs) && Active(th.at)
            && (th.at.Rename? ==> ValidNickname(th.at.nickname))
  {
    var command := ParseLine(raw);
    if command.SetNick? { AcceptedNicknameIsValid(command.args); }
  }

  lemma OnFrameEffect(t: Table, c: Conn, ch: Choice)
    ensures var th := OnFrame(c, ch);
            && HandlerSends(t, c, th.outs) && Active(th.at)
            && (th.at.Rename? ==> ValidNickname(th.at.nickname))
  {
    if ch.Incoming? { OnLineEffect(t, c, ch.payload); }
  }

  predicate ScopePoint(at: Point) {
    at.RelayChat? || at.Rename? || at.Deliver? || at.ListUsers? || at.Leave?
  }

  /** The client table after a scope of handler `c`. */
  function ScopeTable(t: Table, c: Conn, at: Point): Table {
    if at.Leave? then t - {c}
    else if at.Rename? && c in t && !UsedByOther(t, c, at.nickname) then t[c := t[c].(nickname := at.nickname)]
    else t
  }

  predicate ScopeGoto(at: Point, next: Point) {
    next == if at.Leave? then CloseOwn else Receive
  }

  lemma ScopeTableFacts(t: Table, c: Conn, at: Point)
    ensures var table := ScopeTable(t, c, at);
            && table.Keys <= t.Keys && (forall d :: d in table ==> table[d].welcomed == t[d].welcomed)
            && (forall d :: d in t && d !in table ==> d == c)
  {
  }

  lemma HandlerScopeEffect(t: Table, c: Conn, at: Point, ch: Choice)
    requires ScopePoint(at)
    requires at.Deliver? ==> ch.Pick? && PickOk(t, c, at.recipient, ch.found)
    requires at.ListUsers? ==> ch.Order? && forall d :: d in ch.order ==> d in t
    ensures var (th, table) := HandlerScope(t, c, at, ch);
            && HandlerSends(t, c, th.outs)
            && ScopeGoto(at, th.at) && table == ScopeTable(t, c, at)
  {
  }

  lemma InvScope(cfg: Config, s: State, c: Conn, th: Thread, table: Table)
    requires Inv(cfg, s) && Handler(c) in s.pc && s.pc[Handler(c)].outs == []
    requires ScopePoint(s.pc[Handler(c)].at)
    requires HandlerSends(s.clients, c, th.outs)
    requires ScopeGoto(s.pc[Handler(c)].at, th.at) && table == ScopeTable(s.clients, c, s.pc[Handler(c)].at)
    ensures Inv(cfg, SetThread(s, Handler(c), th).(clients := table, clientsOwner := None))
  {
    ScopeTableFacts(s.clients, c, s.pc[Handler(c)].at);
    ControlScope(cfg, s, c, th, table);
    StreamsHandler(cfg, s, SetThread(s, Handler(c), th).(clients := table, clientsOwner := None), c, th);
  }

  lemma ControlScope(cfg: Config, s: State, c: Conn, th: Thread, table: Table)
    requires Control(cfg, s) && Handler(c) in s.pc && s.pc[Handler(c)].outs == []
    requires ScopePoint(s.pc[Handler(c)].at)
    requires HandlerSends(s.clients, c, th.outs)
    requires ScopeGoto(s.pc[Handler(c)].at, th.at) && table == ScopeTable(s.clients, c, s.pc[Handler(c)].at)
    ensures Control(cfg, SetThread(s, Handler(c), th).(clients := table, clientsOwner := None))
  {
    var t := Handler(c);
    assert AtOk(s, t, s.pc[t]);
    ShapeThread(s, t, th, table, None);
    LocksThread(s, t, th, table, None);
    TableScope(cfg, s, c, th, table);
    RegistryHandler(s, SetThread(s, t, th).(clients := table, clientsOwner := None), c, th);
  }

  lemma TableLeaves(cfg: Config, s: State, c: Conn, th: Thread, table: Table)
    requires Records(s) && Nicks(cfg, s) && Handler(c) in s.pc && s.pc[Handler(c)].at.Leave?
    requires ScopeGoto(Leave, th.at) && table == ScopeTable(s.clients, c, Leave)
    ensures var s' := SetThread(s, Handler(c), th).(clients := table, clientsOwner := None);
            Records(s') && Nicks(cfg, s')
  {
    RecordsLeave(s, c, th);
    NicksLeave(cfg, s, c);
  }

  lemma TableScope(cfg: Config, s: State, c: Conn, th: Thread, table: Table)
    requires Records(s) && Nicks(cfg, s) && Handler(c) in s.pc && ScopePoint(s.pc[Handler(c)].at)
    requires s.pc[Handler(c)].at.Rename? ==> ValidNickname(s.pc[Handler(c)].at.nickname)
    requires ScopeGoto(s.pc[Handler(c)].at, th.at) && table == ScopeTable(s.clients, c, s.pc[Handler(c)].at)
    ensures var s' := SetThread(s, Handler(c), th).(clients := table, clientsOwner := None);
            Records(s') && Nicks(cfg, s')
  {
    var at := s.pc[Handler(c)].at;
    if at.Leave? { TableLeaves(cfg, s, c, th, table); }
    else {
      RecordsHandler(s, c, th, table, None);
      if table != s.clients { NicksRename(cfg, s, c, at.nickname); }
    }
  }

  lemma StreamsHandler(cfg: Config, s: State, s': State, c: Conn, th: Thread)
    requires Streams(cfg, s) && Handler(c) in s.pc && s.pc[Handler(c)].outs == []
    requires s'.pc == s.pc[Handler(c) := th] && s'.links == s.links
    requires HandlerSends(s.clients, c, th.outs)
    requires s'.clients.Keys <= s.clients.Keys && forall d :: d in s'.clients ==> s'.clients[d].welcomed == s.clients[d].welcomed
    requires forall d :: d in s.clients && d !in s'.clients ==> d == c
    ensures Streams(cfg, s')
  {
    WiresFrame(cfg, s, s', Handler(c));
    forall d | d in s.links && Quiet(cfg, s, d) ensures NoAim(th.outs, d) {
    }
    GreetingsThread(cfg, s, s', Handler(c));
  }

  lemma InvReceive(cfg: Config, s: State, c: Conn, th: Thread)
    requires Inv(cfg, s) && Handler(c) in s.pc && s.pc[Handler(c)] == Thread([], Receive)
    requires HandlerSends(s.clients, c, th.outs) && Active(th.at) && (th.at.Rename? ==> ValidNickname(th.at.nickname))
    ensures Inv(cfg, SetThread(s, Handler(c), th))
  {
    ControlReceive(cfg, s, c, th);
    StreamsHandler(cfg, s, SetThread(s, Handler(c), th), c, th);
  }

  lemma ControlReceive(cfg: Config, s: State, c: Conn, th: Thread)
    requires Control(cfg, s) && Handler(c) in s.pc && s.pc[Handler(c)] == Thread([], Receive)
    requires HandlerSends(s.clients, c, th.outs) && Active(th.at) && (th.at.Rename? ==> ValidNickname(th.at.nickname))
    ensures Control(cfg, SetThread(s, Handler(c), th))
  {
    var t := Handler(c);
    var s' := SetThread(s, t, th).(clients := s.clients, clientsOwner := s.clientsOwner);
    assert AtOk(s, t, s.pc[t]);
    ShapeThread(s, t, th, s.clients, s.clientsOwner);
    LocksThread(s, t, th, s.clients, s.clientsOwner);
    RecordsHandler(s, c, th, s.clients, s.clientsOwner);
    RegistryHandler(s, s', c, th);
  }

  lemma InvCloseOwn(cfg: Config, s: State, c: Conn)
    requires Inv(cfg, s) && Handler(c) in s.pc && s.pc[Handler(c)] == Thread([], CloseOwn)
    ensures Inv(cfg, SetThread(Break(s, c), Handler(c), Thread([], Done)))
  {
    ControlCloseOwn(cfg, s, c);
    var s' := SetThread(Break(s, c), Handler(c), Thread([], Done));
    WiresBreak(cfg, s, s', Handler(c), c);
    GreetingsBreak(cfg, s, s', Handler(c), c);
  }

  lemma ControlCloseOwn(cfg: Config, s: State, c: Conn)
    requires Control(cfg, s) && Handler(c) in s.pc && s.pc[Handler(c)] == Thread([], CloseOwn)
    ensures Control(cfg, SetThread(Break(s, c), Handler(c), Thread([], Done)))
  {
    var t := Handler(c);
    var s' := SetThread(Break(s, c), t, Thread([], Done));
    assert AtOk(s, t, s.pc[t]);
    assert AtOk(s', t, s'.pc[t]);
    ShapeUpdate(s, s', t);
    WritersFrame(s, s', t);
    LocksFrame(s, s', t);
    RecordsClosed(s, s', c);
    RegistryHandler(s, s', c, Thread([], Done));
  }

  lemma InvHandler(cfg: Config, s: State, c: Conn, ch: Choice)
    requires Inv(cfg, s) && Handler(c) in s.pc && s.pc[Handler(c)].outs == []
    requires PointEnabled(cfg, s, Handler(c), s.pc[Handler(c)].at, ch) && HandlerPoint(s.pc[Handler(c)].at)
    ensures Inv(cfg, HandlerStep(cfg, s, c, ch))
  {
    var at := s.pc[Handler(c)].at;
    if at.Receive? {
      OnFrameEffect(s.clients, c, ch);
      InvReceive(cfg, s, c, OnFrame(c, ch));
    } else if at.CloseOwn? {
      InvCloseOwn(cfg, s, c);
    } else {
      HandlerScopeEffect(s.clients, c, at, ch);
      var (th, table) := HandlerScope(s.clients, c, at, ch);
      InvScope(cfg, s, c, th, table);
    }
  }

  // Main.

  /** Main takes clients_mtx_ along or lets go of it; it holds threads_mtx_ exactly while reaping. */
  predicate MainLocks(s: State, s': State, at: Point) {
    && ((s'.clientsOwner == s.clientsOwner && s.clientsOwner != Some(Main)) || s'.clientsOwner.None?)
    && s'.threadsOwner == (if Reaping(at) then Some(Main) else None)
  }

  predicate MainSends(th: Thread) {
    th.outs == [] || th.outs == [Broadcast(GOODBYE, None)]
  }

  lemma StreamsGoto(cfg: Config, s: State, s': State, th: Thread)
    requires Streams(cfg, s) && s.pc[Main].outs == [] && !s.pc[Main].at.Admit?
    requires s'.pc == s.pc[Main := th] && s'.links == s.links && MainSends(th) && !th.at.Admit?
    ensures Streams(cfg, s')
  {
    WiresFrame(cfg, s, s', Main);
    GreetingsMain(cfg, s, s');
  }

  lemma ControlGoto(cfg: Config, s: State, s': State, th: Thread)
    requires Shape(s) && Locks(s) && s.pc[Main].outs == []
    requires s'.pc == s.pc[Main := th] && s'.clients == s.clients && s'.links == s.links
    requires MainSends(th) && AtOk(s, Main, th) && MainLocks(s, s', th.at)
    ensures Shape(s') && Locks(s')
  {
    assert AtOk(s', Main, th);
    ShapeUpdate(s, s', Main);
    WritersFrame(s, s', Main);
    LocksFrame(s, s', Main);
  }

  /** Poll, a failed accept, taking or leaving threads_mtx_, starting the shutdown. */
  lemma InvMainPlain(cfg: Config, s: State, s': State, th: Thread)
    requires Inv(cfg, s) && s.pc[Main].outs == [] && !s.pc[Main].at.Admit?
    requires Admitting(s.pc[Main].at).None? && Leftover(s.pc[Main].at) == []
    requires s'.pc == s.pc[Main := th] && s'.clients == s.clients && s'.links == s.links
    requires MainSends(th) && Plain(th.at) && s'.threads == s.threads && s'.joined == s.joined
    requires MainLocks(s, s', th.at)
    ensures Inv(cfg, s')
  {
    ControlPlain(cfg, s, s', th);
    StreamsGoto(cfg, s, s', th);
  }

  lemma ControlPlain(cfg: Config, s: State, s': State, th: Thread)
    requires Control(cfg, s) && s.pc[Main].outs == []
    requires Admitting(s.pc[Main].at).None? && Leftover(s.pc[Main].at) == []
    requires s'.pc == s.pc[Main := th] && s'.clients == s.clients && s'.links == s.links
    requires MainSends(th) && Plain(th.at) && s'.threads == s.threads && s'.joined == s.joined
    requires MainLocks(s, s', th.at)
    ensures Control(cfg, s')
  {
    ControlGoto(cfg, s, s', th);
    MainPlain(s, s', th);
  }

  lemma InvReap(cfg: Config, s: State, s': State, at: Point)
    requires Inv(cfg, s) && s.pc[Main].outs == []
    requires s.pc[Main].at.ReapLock? || s.pc[Main].at.ReapAt?
    requires s'.pc == s.pc[Main := Thread([], at)] && s'.clients == s.clients && s'.links == s.links
    requires s'.threads == s.threads && s'.joined == s.joined
    requires Reaping(at) && at.index <= |s.threads|
    requires at.ReapJoin? ==> at.index < |s.threads| && s.threads[at.index] !in s.clients
    requires MainLocks(s, s', at)
    ensures Inv(cfg, s')
  {
    ControlReap(cfg, s, s', at);
    StreamsGoto(cfg, s, s', Thread([], at));
  }

  lemma ControlReap(cfg: Config, s: State, s': State, at: Point)
    requires Control(cfg, s) && s.pc[Main].outs == []
    requires s.pc[Main].at.ReapLock? || s.pc[Main].at.ReapAt?
    requires s'.pc == s.pc[Main := Thread([], at)] && s'.clients == s.clients && s'.links == s.links
    requires s'.threads == s.threads && s'.joined == s.joined
    requires Reaping(at) && at.index <= |s.threads|
    requires at.ReapJoin? ==> at.index < |s.threads| && s.threads[at.index] !in s.clients
    requires MainLocks(s, s', at)
    ensures Control(cfg, s')
  {
    ControlGoto(cfg, s, s', Thread([], at));
    MainReapLook(s, s', at);
  }

  lemma InvAccept(cfg: Config, s: State, c: Conn)
    requires Inv(cfg, s) && s.pc[Main] == Thread([], AcceptOne) && c !in s.links
    ensures Inv(cfg, Accepted(s, c))
  {
    var s' := Accepted(s, c);
    ControlAccept(cfg, s, c);
    EmptyLink(cfg, FreshLink());
    WiresSetLink(cfg, s, s', c);
    GreetingsAccept(cfg, s, s', c);
  }

  lemma ControlAccept(cfg: Config, s: State, c: Conn)
    requires Control(cfg, s) && s.pc[Main] == Thread([], AcceptOne) && c !in s.links
    ensures Control(cfg, Accepted(s, c))
  {
    var s' := Accepted(s, c);
    assert AtOk(s', Main, s'.pc[Main]);
    ShapeUpdate(s, s', Main);
    WritersFrame(s, s', Main);
    LocksFrame(s, s', Main);
    MainAccepted(s, s', c);
  }

  /** Turned away: the one frame this socket gets is the refusal. */
  lemma InvRefuse(cfg: Config, s: State, s': State, c: Conn)
    requires Inv(cfg, s) && s.pc[Main] == Thread([], Admit(c)) && c in s.links
    requires s' == SetLink(SetThread(s, Main, Thread([Writing(c, SERVER_FULL)], HangUp(c))), c,
      s.links[c].(writer := Some(Main), current := SERVER_FULL, sent := 0, greeting := SERVER_FULL)).(clientsOwner := None)
    requires |SERVER_FULL| <= cfg.maxMessage
    ensures Inv(cfg, s')
  {
    assert s.links[c] == FreshLink();
    ControlRefuse(cfg, s, s', c);
    StreamsGreet(cfg, s, s', c, Writing(c, SERVER_FULL), HangUp(c), SERVER_FULL);
  }

  /** The socket being admitted gets its first frame set up. */
  lemma StreamsGreet(cfg: Config, s: State, s': State, c: Conn, first: Send, at: Point, greeting: string)
    requires Streams(cfg, s) && s.pc[Main] == Thread([], Admit(c)) && c in s.links && c in s'.links
    requires s'.pc == s.pc[Main := Thread([first], at)]
    requires Aims(first, c) && first.payload == greeting && |greeting| <= cfg.maxMessage
    requires (at.MarkWelcomed? && at.conn == c) || at == HangUp(c)
    requires s'.links == s.links[c := s'.links[c]]
    requires var link := s'.links[c];
             if first.Writing? then link == FreshLink().(writer := Some(Main), current := greeting, greeting := greeting)
             else link == FreshLink().(greeting := greeting)
    requires s'.clients == s.clients || (c in s'.clients && !s'.clients[c].welcomed && s'.clients == s.clients[c := s'.clients[c]])
    requires first.SendTo? ==> c in s'.clients
    ensures Streams(cfg, s')
  {
    EmptyLink(cfg, s'.links[c]);
    WiresSetLink(cfg, s, s', c);
    GreetingsAdmit(cfg, s, s', c, first, at, greeting);
  }

  lemma ControlRefuse(cfg: Config, s: State, s': State, c: Conn)
    requires Control(cfg, s) && s.pc[Main] == Thread([], Admit(c)) && c in s.links && s.links[c].writer.None?
    requires s'.pc == s.pc[Main := Thread([Writing(c, SERVER_FULL)], HangUp(c))]
    requires s'.links.Keys == s.links.Keys && s'.links[c].writer == Some(Main)
    requires forall d :: d in s.links && d != c ==> s'.links[d] == s.links[d]
    requires s'.clients == s.clients && s'.threads == s.threads && s'.joined == s.joined
    requires s'.clientsOwner.None? && s'.threadsOwner == s.threadsOwner
    ensures Control(cfg, s')
  {
    assert AtOk(s', Main, s'.pc[Main]);
    ShapeUpdate(s, s', Main);
    forall d | d in s'.links && s'.links[d].writer.Some? ensures Holds(s', s'.links[d].writer.value, d) {
      if d != c { assert Holds(s, s.links[d].writer.value, d); }
    }
    forall u, d | Holds(s', u, d) ensures d in s'.links && s'.links[d].writer == Some(u) {
      if u != Main { assert Holds(s, u, d); }
    }
    LocksFrame(s, s', Main);
    MainAdmit(s, s', c, s'.pc[Main], None);
  }

  /** Admitted under a free default name, with the greeting still to be sent. */
  lemma InvAdmitted(cfg: Config, s: State, s': State, c: Conn, name: string, greeting: string)
    requires Inv(cfg, s) && s.pc[Main] == Thread([], Admit(c)) && c in s.links
    requires s' == SetLink(SetThread(s, Main, Thread([SendTo(c, greeting)], MarkWelcomed(c, name))), c,
      s.links[c].(greeting := greeting)).(clients := s.clients[c := ClientRecord(name, false)], clientsOwner := None)
    requires Nicks(cfg, s.(clients := s.clients[c := ClientRecord(name, false)]))
    requires |greeting| <= cfg.maxMessage
    ensures Inv(cfg, s')
  {
    assert s.links[c] == FreshLink();
    ControlAdmitted(cfg, s, s', c, name, greeting);
    StreamsGreet(cfg, s, s', c, SendTo(c, greeting), MarkWelcomed(c, name), greeting);
  }

  lemma ControlAdmitted(cfg: Config, s: State, s': State, c: Conn, name: string, greeting: string)
    requires Control(cfg, s) && s.pc[Main] == Thread([], Admit(c)) && c in s.links
    requires s'.pc == s.pc[Main := Thread([SendTo(c, greeting)], MarkWelcomed(c, name))]
    requires s'.links == s.links[c := s.links[c].(greeting := greeting)]
    requires s'.clients == s.clients[c := ClientRecord(name, false)] && Nicks(cfg, s')
    requires s'.threads == s.threads && s'.joined == s.joined
    requires s'.clientsOwner.None? && s'.threadsOwner == s.threadsOwner
    ensures Control(cfg, s')
  {
    assert AtOk(s', Main, s'.pc[Main]);
    ShapeUpdate(s, s', Main);
    WritersFrame(s, s', Main);
    LocksFrame(s, s', Main);
    MainAdmit(s, s', c, s'.pc[Main], Some(ClientRecord(name, false)));
  }

  lemma InvAdmitFull(cfg: Config, s: State, s': State, c: Conn, ch: Choice)
    requires Inv(cfg, s) && s.pc[Main] == Thread([], Admit(c)) && c in s.links
    requires |s.clients| >= cfg.maxClients && s' == AdmitStep(cfg, s, c, ch)
    ensures Inv(cfg, s')
  {
    RefusalFits();
    InvRefuse(cfg, s, s', c);
  }

  lemma InvAdmitRoom(cfg: Config, s: State, s': State, c: Conn, ch: Choice)
    requires Inv(cfg, s) && s.pc[Main] == Thread([], Admit(c)) && c in s.links
    requires |s.clients| < cfg.maxClients && ch.Number? && FirstFree(s.clients, ch.n) && s' == AdmitStep(cfg, s, c, ch)
    ensures Inv(cfg, s')
  {
    assert c !in s.clients by { assert !Owned(s, c); }
    NicksAdmit(cfg, s, c, ch.n);
    DefaultNameIsValid(s.clients, ch.n);
    InvAdmitted(cfg, s, s', c, DefaultName(ch.n), WelcomeLine(DefaultName(ch.n)));
  }

  lemma InvAdmit(cfg: Config, s: State, c: Conn, ch: Choice)
    requires Inv(cfg, s) && s.pc[Main] == Thread([], Admit(c)) && c in s.links
    requires |s.clients| < cfg.maxClients ==> ch.Number? && FirstFree(s.clients, ch.n)
    ensures Inv(cfg, AdmitStep(cfg, s, c, ch))
  {
    if |s.clients| >= cfg.maxClients { InvAdmitFull(cfg, s, AdmitStep(cfg, s, c, ch), c, ch); }
    else { InvAdmitRoom(cfg, s, AdmitStep(cfg, s, c, ch), c, ch); }
  }

  lemma RefusalFits()
    ensures |SERVER_FULL| <= 64
  {
  }

  lemma InvHangUp(cfg: Config, s: State, s': State, c: Conn, th: Thread)
    requires Inv(cfg, s) && s.pc[Main].outs == []
    requires s.pc[Main].at == HangUp(c) || s.pc[Main].at.ShutdownFds?
    requires s'.pc == s.pc[Main := th] && th.outs == [] && (th.at.Poll? || th.at.ShutdownFds?)
    requires s'.links == Break(s, c).links && s'.clients == s.clients
    requires s'.threads == s.threads && s'.joined == s.joined
    requires s'.clientsOwner == s.clientsOwner && s'.threadsOwner == s.threadsOwner
    ensures Inv(cfg, s')
  {
    ControlHangUp(cfg, s, s', c, th);
    StreamsHangUp(cfg, s, s', c);
  }

  lemma StreamsHangUp(cfg: Config, s: State, s': State, c: Conn)
    requires Streams(cfg, s) && s.pc[Main].outs == [] && !s.pc[Main].at.Admit? && Main in s'.pc
    requires s'.pc == s.pc[Main := s'.pc[Main]] && s'.pc[Main].outs == [] && !s'.pc[Main].at.Admit?
    requires s'.links == Break(s, c).links && s'.clients == s.clients
    ensures Streams(cfg, s')
  {
    WiresBreak(cfg, s, s', Main, c);
    GreetingsBreak(cfg, s, s', Main, c);
  }

  lemma ControlHangUp(cfg: Config, s: State, s': State, c: Conn, th: Thread)
    requires Control(cfg, s) && s.pc[Main].outs == []
    requires s.pc[Main].at == HangUp(c) || s.pc[Main].at.ShutdownFds?
    requires s'.pc == s.pc[Main := th] && th.outs == [] && (th.at.Poll? || th.at.ShutdownFds?)
    requires s'.links == Break(s, c).links && s'.clients == s.clients
    requires s'.threads == s.threads && s'.joined == s.joined
    requires s'.clientsOwner == s.clientsOwner && s'.threadsOwner == s.threadsOwner
    ensures Control(cfg, s')
  {
    LocksHangUp(s, s', c, th);
    MainPlain(s, s', th);
  }

  lemma LocksHangUp(s: State, s': State, c: Conn, th: Thread)
    requires Shape(s) && Locks(s) && s.pc[Main].outs == [] && s.clientsOwner != Some(Main)
    requires s'.pc == s.pc[Main := th] && th.outs == [] && (th.at.Poll? || th.at.ShutdownFds?)
    requires s'.links == Break(s, c).links && s'.clients == s.clients && s'.threads == s.threads
    requires s'.clientsOwner == s.clientsOwner && s'.threadsOwner.None?
    ensures Shape(s') && Locks(s')
  {
    assert AtOk(s', Main, th);
    ShapeUpdate(s, s', Main);
    WritersFrame(s, s', Main);
    LocksFrame(s, s', Main);
  }

  lemma InvWelcomed(cfg: Config, s: State, s': State, c: Conn, name: string)
    requires Inv(cfg, s) && s.pc[Main] == Thread([], MarkWelcomed(c, name))
    requires c in s.clients
    requires s' == Welcomed(s, c, name)
    ensures Inv(cfg, s')
  {
    ControlWelcomed(cfg, s, s', c, name);
    StreamsGoto(cfg, s, s', Thread([], Spawn(c, name)));
  }

  lemma ControlWelcomed(cfg: Config, s: State, s': State, c: Conn, name: string)
    requires Control(cfg, s) && s.pc[Main] == Thread([], MarkWelcomed(c, name)) && c in s.clients
    requires s' == Welcomed(s, c, name)
    ensures Control(cfg, s')
  {
    LocksWelcomed(s, s', c, name);
    MainWelcomed(s, s', c, name);
    NicksWelcomed(cfg, s, s', c);
  }

  lemma NicksWelcomed(cfg: Config, s: State, s': State, c: Conn)
    requires Nicks(cfg, s) && c in s.clients
    requires s'.clients == s.clients[c := s.clients[c].(welcomed := true)]
    ensures Nicks(cfg, s')
  {
    assert s'.clients.Keys == s.clients.Keys;
  }

  lemma LocksWelcomed(s: State, s': State, c: Conn, name: string)
    requires Shape(s) && Locks(s) && s.pc[Main] == Thread([], MarkWelcomed(c, name)) && c in s.clients
    requires s' == Welcomed(s, c, name)
    ensures Shape(s') && Locks(s')
  {
    assert AtOk(s, Main, s.pc[Main]);
    assert AtOk(s', Main, s'.pc[Main]);
    assert s'.clients.Keys == s.clients.Keys;
    ShapeUpdate(s, s', Main);
    WritersFrame(s, s', Main);
    LocksFrame(s, s', Main);
  }

  lemma InvSpawn(cfg: Config, s: State, s': State, c: Conn, name: string, th: Thread)
    requires Inv(cfg, s) && s.pc[Main] == Thread([], Spawn(c, name))
    requires th.at.Poll? && |th.outs| == 1 && th.outs[0].Broadcast?
    requires s' == Spawned(s, c, th)
    ensures Inv(cfg, s')
  {
    assert Handler(c) !in s.pc;
    ControlSpawn(cfg, s, s', c, name, th);
    StreamsSpawn(cfg, s, s', c, th);
  }

  lemma StreamsSpawn(cfg: Config, s: State, s': State, c: Conn, th: Thread)
    requires Streams(cfg, s) && s.pc[Main].outs == [] && !s.pc[Main].at.Admit? && !th.at.Admit?
    requires Handler(c) !in s.pc && s'.pc == s.pc[Handler(c) := Thread([], Receive)][Main := th] && s'.links == s.links
    ensures Streams(cfg, s')
  {
    WiresFrame(cfg, s, s', Main);
    GreetingsMain(cfg, s, s');
  }

  lemma ControlSpawn(cfg: Config, s: State, s': State, c: Conn, name: string, th: Thread)
    requires Control(cfg, s) && s.pc[Main] == Thread([], Spawn(c, name))
    requires th.at.Poll? && |th.outs| == 1 && th.outs[0].Broadcast?
    requires s' == Spawned(s, c, th)
    ensures Control(cfg, s')
  {
    assert Handler(c) !in s.pc;
    LocksSpawn(s, s', c, name, th);
    MainSpawn(s, s', c, name, th);
  }

  lemma LocksSpawn(s: State, s': State, c: Conn, name: string, th: Thread)
    requires Shape(s) && Locks(s) && s.pc[Main] == Thread([], Spawn(c, name)) && Handler(c) !in s.pc
    requires th.at.Poll? && |th.outs| == 1 && th.outs[0].Broadcast?
    requires s' == Spawned(s, c, th)
    ensures Shape(s') && Locks(s')
  {
    assert AtOk(s, Main, s.pc[Main]);
    forall u | u in s'.pc ensures AtOk(s', u, s'.pc[u]) && OutsOk(s'.links, s'.pc[u].outs) {
      if u in s.pc { assert AtOk(s, u, s.pc[u]) && OutsOk(s.links, s.pc[u].outs); }
    }
    WritersFrame(s, s', Main);
    LocksFrame(s, s', Main);
  }

  /** A thread was joined, or main moved on through the end of shutdown_all. */
  lemma InvJoinStep(cfg: Config, s: State, s': State, at: Point)
    requires Inv(cfg, s) && s.pc[Main].outs == [] && s.clientsOwner != Some(Main) && !s.pc[Main].at.Admit?
    requires s'.pc == s.pc[Main := Thread([], at)] && s'.clients == s.clients && s'.links == s.links
    requires (at.ReapAt? || Drained(at)) && MainLocks(s, s', at)
    requires Records(s') && Registry(s')
    ensures Inv(cfg, s')
  {
    ControlJoined(cfg, s, s', at);
    StreamsGoto(cfg, s, s', Thread([], at));
  }

  lemma ControlJoined(cfg: Config, s: State, s': State, at: Point)
    requires Control(cfg, s) && s.pc[Main].outs == []
    requires s'.pc == s.pc[Main := Thread([], at)] && s'.clients == s.clients && s'.links == s.links
    requires (at.ReapAt? || Drained(at)) && MainLocks(s, s', at)
    requires Records(s') && Registry(s')
    ensures Control(cfg, s')
  {
    ControlGoto(cfg, s, s', Thread([], at));
  }

  lemma InvReapJoin(cfg: Config, s: State, s': State, i: nat, next: Next)
    requires Inv(cfg, s) && s.pc[Main] == Thread([], ReapJoin(i, next)) && s.clientsOwner != Some(Main)
    requires i < |s.threads| && Finished(s, s.threads[i])
    requires s' == MainGoto(s, ReapAt(i, next)).(threads := s.threads[..i] + s.threads[i + 1..], joined := s.joined + [s.threads[i]])
    ensures Inv(cfg, s')
  {
    assert Records(s') && Registry(s') by { MainReapJoin(s, s', i, ReapAt(i, next)); }
    InvJoinStep(cfg, s, s', ReapAt(i, next));
  }

  lemma InvShutdownFds(cfg: Config, s: State, fds: seq<Conn>)
    requires Inv(cfg, s) && s.pc[Main] == Thread([], ShutdownFds(fds)) && s.clientsOwner != Some(Main)
    ensures Inv(cfg, ShutdownNext(s, fds))
  {
    ControlShutdownFds(cfg, s, ShutdownNext(s, fds), fds);
    StreamsShutdownFds(cfg, s, ShutdownNext(s, fds), fds);
  }

  lemma StreamsShutdownFds(cfg: Config, s: State, s': State, fds: seq<Conn>)
    requires Streams(cfg, s) && Main in s.pc && s.pc[Main] == Thread([], ShutdownFds(fds)) && s' == ShutdownNext(s, fds)
    ensures Streams(cfg, s')
  {
    if fds == [] { StreamsGoto(cfg, s, s', Thread([], TakeThreads)); } else { StreamsHangUp(cfg, s, s', fds[0]); }
  }

  lemma ControlShutdownFds(cfg: Config, s: State, s': State, fds: seq<Conn>)
    requires Control(cfg, s) && s.pc[Main] == Thread([], ShutdownFds(fds)) && s.clientsOwner != Some(Main)
    requires s' == ShutdownNext(s, fds)
    ensures Control(cfg, s')
  {
    if fds == [] {
      ControlPlain(cfg, s, s', Thread([], TakeThreads));
    } else {
      ControlHangUp(cfg, s, s', fds[0], Thread([], ShutdownFds(fds[1..])));
    }
  }

  lemma InvTakeThreads(cfg: Config, s: State, s': State)
    requires Inv(cfg, s) && s.pc[Main] == Thread([], TakeThreads) && s.clientsOwner != Some(Main)
    requires s' == MainGoto(s, JoinAll(s.threads)).(threads := [])
    ensures Inv(cfg, s')
  {
    assert Records(s') && Registry(s') by { MainTakeThreads(s, s'); }
    InvJoinStep(cfg, s, s', JoinAll(s.threads));
  }

  lemma InvJoinAll(cfg: Config, s: State, left: seq<Conn>)
    requires Inv(cfg, s) && s.pc[Main] == Thread([], JoinAll(left)) && s.clientsOwner != Some(Main)
    requires left == [] || Finished(s, left[0])
    ensures Inv(cfg, JoinNext(s, left))
  {
    var s' := JoinNext(s, left);
    assert Records(s') && Registry(s') by {
      if left == [] { MainEnds(s, s', CloseListener); } else { MainJoin(s, s', left); }
    }
    InvJoinStep(cfg, s, s', if left == [] then CloseListener else JoinAll(left[1..]));
  }

  lemma InvClose(cfg: Config, s: State)
    requires Inv(cfg, s) && s.pc[Main] == Thread([], CloseListener) && s.clientsOwner != Some(Main)
    ensures Inv(cfg, MainGoto(s, Done))
  {
    var s' := MainGoto(s, Done);
    assert Records(s') && Registry(s') by { MainEnds(s, s', Done); }
    InvJoinStep(cfg, s, s', Done);
  }

  lemma InvReapAt(cfg: Config, s: State, i: nat, next: Next)
    requires Inv(cfg, s) && s.pc[Main] == Thread([], ReapAt(i, next))
    requires i < |s.threads| || s.clientsOwner != Some(Main)
    ensures Inv(cfg, ReapLook(s, i, next))
  {
    assert s.threadsOwner == Some(Main);
    if i < |s.threads| {
      InvReap(cfg, s, ReapLook(s, i, next), if s.threads[i] in s.clients then ReapAt(i + 1, next) else ReapJoin(i, next));
    } else {
      InvMainPlain(cfg, s, ReapLook(s, i, next), Thread([], After(next)));
    }
  }

  predicate ClosingPoint(at: Point) {
    at.ShutdownFds? || at.TakeThreads? || Drained(at)
  }

  lemma ReapAtStep(cfg: Config, s: State, ch: Choice, i: nat, next: Next)
    requires Main in s.pc && s.pc[Main] == Thread([], ReapAt(i, next))
    ensures MainStep(cfg, s, ch) == ReapLook(s, i, next)
  {
  }

  lemma ShutdownFdsStep(cfg: Config, s: State, ch: Choice, fds: seq<Conn>)
    requires Main in s.pc && s.pc[Main] == Thread([], ShutdownFds(fds))
    ensures MainStep(cfg, s, ch) == ShutdownNext(s, fds)
  {
  }

  lemma JoinAllStep(cfg: Config, s: State, ch: Choice, left: seq<Conn>)
    requires Main in s.pc && s.pc[Main] == Thread([], JoinAll(left))
    ensures MainStep(cfg, s, ch) == JoinNext(s, left)
  {
  }

  lemma MarkWelcomedStep(cfg: Config, s: State, ch: Choice, c: Conn, name: string)
    requires Main in s.pc && s.pc[Main] == Thread([], MarkWelcomed(c, name))
    ensures MainStep(cfg, s, ch) == Welcomed(s, c, name)
  {
  }

  lemma ReapJoinStep(cfg: Config, s: State, ch: Choice, i: nat, next: Next)
    requires Main in s.pc && s.pc[Main] == Thread([], ReapJoin(i, next)) && i < |s.threads|
    ensures MainStep(cfg, s, ch)
         == MainGoto(s, ReapAt(i, next)).(threads := s.threads[..i] + s.threads[i + 1..], joined := s.joined + [s.threads[i]])
  {
  }

  lemma InvMainReaping(cfg: Config, s: State, s': State, ch: Choice)
    requires Inv(cfg, s) && s.pc[Main].outs == []
    requires PointEnabled(cfg, s, Main, s.pc[Main].at, ch) && Reaping(s.pc[Main].at)
    requires UsesClients(s, s.pc[Main]) <==> s.clientsOwner == Some(Main)
    requires s' == MainStep(cfg, s, ch)
    ensures Inv(cfg, s')
  {
    var at := s.pc[Main].at;
    if at.ReapAt? {
      ReapAtStep(cfg, s, ch, at.index, at.next);
      InvReapAt(cfg, s, at.index, at.next);
    } else {
      ReapJoinStep(cfg, s, ch, at.index, at.next);
      InvReapJoin(cfg, s, s', at.index, at.next);
    }
  }

  lemma InvMainClosing(cfg: Config, s: State, s': State, ch: Choice)
    requires Inv(cfg, s) && s.pc[Main].outs == [] && s.clientsOwner != Some(Main)
    requires PointEnabled(cfg, s, Main, s.pc[Main].at, ch)
    requires ClosingPoint(s.pc[Main].at)
    requires s' == MainStep(cfg, s, ch)
    ensures Inv(cfg, s')
  {
    match s.pc[Main].at
    case ShutdownFds(fds) => InvShutdownFds(cfg, s, fds);
    case TakeThreads => InvTakeThreads(cfg, s, MainStep(cfg, s, ch));
    case JoinAll(left) => InvJoinAll(cfg, s, left);
    case CloseListener => InvClose(cfg, s);
  }

  predicate AcceptingPoint(at: Point) { at.AcceptOne? || at.Admit? || at.HangUp? || at.MarkWelcomed? || at.Spawn? }

  lemma InvMainAcceptOne(cfg: Config, s: State, ch: Choice)
    requires Inv(cfg, s) && s.pc[Main] == Thread([], AcceptOne) && PointEnabled(cfg, s, Main, AcceptOne, ch)
    requires s.clientsOwner != Some(Main)
    ensures Inv(cfg, MainStep(cfg, s, ch))
  {
    if ch.NewConnection? { InvAccept(cfg, s, ch.conn); } else { InvMainTurn(cfg, s, Thread([], Poll), s.clientsOwner); }
  }

  lemma InvMainAdmit(cfg: Config, s: State, ch: Choice, c: Conn)
    requires Inv(cfg, s) && s.pc[Main] == Thread([], Admit(c)) && PointEnabled(cfg, s, Main, Admit(c), ch) && c in s.links
    ensures Inv(cfg, MainStep(cfg, s, ch))
  {
    InvAdmit(cfg, s, c, ch);
  }

  lemma InvMainHangUp(cfg: Config, s: State, ch: Choice, c: Conn)
    requires Inv(cfg, s) && s.pc[Main] == Thread([], HangUp(c)) && s.clientsOwner != Some(Main)
    ensures Inv(cfg, MainStep(cfg, s, ch))
  {
    InvHangUp(cfg, s, MainStep(cfg, s, ch), c, Thread([], Poll));
  }

  lemma InvMainMarkWelcomed(cfg: Config, s: State, ch: Choice, c: Conn, name: string)
    requires Inv(cfg, s) && s.pc[Main] == Thread([], MarkWelcomed(c, name)) && s.clientsOwner == Some(Main)
    ensures Inv(cfg, MainStep(cfg, s, ch))
  {
    InvWelcomed(cfg, s, MainStep(cfg, s, ch), c, name);
  }

  lemma InvMainSpawn(cfg: Config, s: State, ch: Choice, c: Conn, name: string)
    requires Inv(cfg, s) && s.pc[Main] == Thread([], Spawn(c, name)) && PointEnabled(cfg, s, Main, Spawn(c, name), ch)
    requires s.clientsOwner != Some(Main)
    ensures Inv(cfg, MainStep(cfg, s, ch))
  {
    InvSpawn(cfg, s, MainStep(cfg, s, ch), c, name, MainStep(cfg, s, ch).pc[Main]);
  }

  lemma InvMainAccepting(cfg: Config, s: State, s': State, ch: Choice)
    requires Inv(cfg, s) && s.pc[Main].outs == []
    requires PointEnabled(cfg, s, Main, s.pc[Main].at, ch) && AcceptingPoint(s.pc[Main].at)
    requires s.pc[Main].at.Admit? ==> s.pc[Main].at.conn in s.links
    requires UsesClients(s, s.pc[Main]) <==> s.clientsOwner == Some(Main)
    requires s' == MainStep(cfg, s, ch)
    ensures Inv(cfg, s')
  {
    var at := s.pc[Main].at;
    if at.AcceptOne? { InvMainAcceptOne(cfg, s, ch); }
    else if at.Admit? { InvMainAdmit(cfg, s, ch, at.conn); }
    else if at.HangUp? { InvMainHangUp(cfg, s, ch, at.conn); }
    else if at.MarkWelcomed? { InvMainMarkWelcomed(cfg, s, ch, at.conn, at.name); }
    else { InvMainSpawn(cfg, s, ch, at.conn, at.name); }
  }

  lemma InvMainServing(cfg: Config, s: State, s': State, ch: Choice)
    requires Inv(cfg, s) && s.pc[Main].outs == []
    requires PointEnabled(cfg, s, Main, s.pc[Main].at, ch) && !HandlerPoint(s.pc[Main].at)
    requires !ClosingPoint(s.pc[Main].at) && !Reaping(s.pc[Main].at) && !AcceptingPoint(s.pc[Main].at)
    requires UsesClients(s, s.pc[Main]) <==> s.clientsOwner == Some(Main)
    requires s' == MainStep(cfg, s, ch)
    ensures Inv(cfg, s')
  {
    match s.pc[Main].at
    case ReapLock(next) => InvReap(cfg, s, MainStep(cfg, s, ch), ReapAt(0, next));
    case Poll => InvMainTurn(cfg, s, Thread([], ch.point), s.clientsOwner);
    case StartShutdown => InvMainTurn(cfg, s, Thread([Broadcast(GOODBYE, None)], Collect), s.clientsOwner);
    case Collect => InvMainTurn(cfg, s, Thread([], ShutdownFds(ch.order)), None);
  }

  lemma InvMainTurn(cfg: Config, s: State, th: Thread, owner: Option<ThreadId>)
    requires Inv(cfg, s) && s.pc[Main].outs == [] && Plain(s.pc[Main].at)
    requires MainSends(th) && Plain(th.at)
    requires owner.None? || (owner == s.clientsOwner && owner != Some(Main))
    ensures Inv(cfg, SetThread(s, Main, th).(clientsOwner := owner))
  {
    ControlTurn(cfg, s, th, owner);
    StreamsGoto(cfg, s, SetThread(s, Main, th).(clientsOwner := owner), th);
  }

  lemma ControlTurn(cfg: Config, s: State, th: Thread, owner: Option<ThreadId>)
    requires Control(cfg, s) && s.pc[Main].outs == [] && Plain(s.pc[Main].at)
    requires MainSends(th) && Plain(th.at)
    requires owner.None? || (owner == s.clientsOwner && owner != Some(Main))
    ensures Control(cfg, SetThread(s, Main, th).(clientsOwner := owner))
  {
    ControlPlain(cfg, s, SetThread(s, Main, th).(clientsOwner := owner), th);
  }

  lemma MainFacts(cfg: Config, s: State, ch: Choice)
    requires Main in s.pc && s.pc[Main].outs == [] && Placed(s, Main) && PointEnabled(cfg, s, Main, s.pc[Main].at, ch)
    requires UsesClients(s, s.pc[Main]) <==> s.clientsOwner == Some(Main)
    ensures !HandlerPoint(s.pc[Main].at)
    ensures s.pc[Main].at.Admit? ==> s.pc[Main].at.conn in s.links
    ensures ClosingPoint(s.pc[Main].at) ==> s.clientsOwner != Some(Main)
  {
  }

  lemma InvMain(cfg: Config, s: State, s': State, ch: Choice)
    requires Inv(cfg, s) && s.pc[Main].outs == [] && Placed(s, Main)
    requires PointEnabled(cfg, s, Main, s.pc[Main].at, ch)
    requires UsesClients(s, s.pc[Main]) <==> s.clientsOwner == Some(Main)
    requires s' == MainStep(cfg, s, ch)
    ensures Inv(cfg, s')
  {
    MainFacts(cfg, s, ch);
    if ClosingPoint(s.pc[Main].at) { InvMainClosing(cfg, s, s', ch); }
    else if Reaping(s.pc[Main].at) { InvMainReaping(cfg, s, s', ch); }
    else if AcceptingPoint(s.pc[Main].at) { InvMainAccepting(cfg, s, s', ch); }
    else { InvMainServing(cfg, s, s', ch); }
  }

  /** Every step of every thread keeps the invariant. */
  lemma InvStep(cfg: Config, s: State, t: ThreadId, ch: Choice, s': State)
    requires Inv(cfg, s) && Step(cfg, s, t, ch, s')
    ensures Inv(cfg, s')
  {
    if WaitsForClients(s, t) {
      InvAcquire(cfg, s, t);
    } else if s.pc[t].outs != [] {
      InvSend(cfg, s, s', t, ch);
    } else if t.Handler? {
      InvHandler(cfg, s, t.conn, ch);
    } else {
      InvMain(cfg, s, s', ch);
    }
  }
}
