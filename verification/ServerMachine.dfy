/** The thread-per-client server as a step relation. One step is: taking clients_mtx_; the body of a scope
    that holds it, with its release; one system call; or one operation on threads_mtx_, a write mutex or a
    thread handle. */
module ServerMachine {
  import opened Text
  import opened BackendLines
  import opened ClientTable
  import W = WireProtocol

  datatype Config = Config(maxClients: nat, maxMessage: nat)

  /** The ranges Config.cpp enforces. */
  predicate ConfigOk(cfg: Config) {
    1 <= cfg.maxClients <= MAX_MAX_CLIENTS && 64 <= cfg.maxMessage <= 16 * 1024 * 1024
  }

  datatype ThreadId = Main | Handler(conn: Conn)

  /** A send still to be made by a thread: the calls of broadcast and send_to_fd, a wait for one
      write mutex, and send_frame under it. */
  datatype Send =
    | Broadcast(payload: string, exclude: Option<Conn>)
    | SendTo(target: Conn, payload: string)
    | Write(target: Conn, payload: string)
    | Writing(target: Conn, payload: string)

  /** Where a thread continues once its sends are made. */
  datatype Point =
    // handle_client
    | Receive
    | RelayChat(line: string)
    | Rename(nickname: string)
    | Deliver(recipient: string, text: string)
    | ListUsers
    | Leave
    | CloseOwn
    // accept_loop and accept_one
    | Poll
    | AcceptOne
    | Admit(conn: Conn)
    | HangUp(conn: Conn)
    | MarkWelcomed(conn: Conn, name: string)
    | Spawn(conn: Conn, name: string)
    // reap_finished_threads, then what the loop does next
    | ReapLock(next: Next)
    | ReapAt(index: nat, next: Next)
    | ReapJoin(index: nat, next: Next)
    // shutdown_all
    | StartShutdown
    | Collect
    | ShutdownFds(fds: seq<Conn>)
    | TakeThreads
    | JoinAll(left: seq<Conn>)
    | CloseListener
    | Done

  datatype Next = ThenPoll | ThenAccept | ThenShutdown

  datatype Thread = Thread(outs: seq<Send>, at: Point)

  /** One socket and its write mutex. `wire` is every byte the kernel accepted. History: `done` are the payloads
      written in full, in write-mutex order, `current` and `sent` the frame being written, and `greeting`
      the first frame meant for this socket. After an error, a shutdown or a close every send fails. */
  datatype Link = Link(
    writer: Option<ThreadId>, broken: bool, wire: W.Bytes,
    done: seq<string>, current: string, sent: nat, greeting: string)

  datatype State = State(
    clients: Table,
    clientsOwner: Option<ThreadId>,
    threads: seq<Conn>,
    threadsOwner: Option<ThreadId>,
    joined: seq<Conn>,
    pc: map<ThreadId, Thread>,
    links: map<Conn, Link>)

  function Init(): State {
    State(map[], None, [], None, [], map[Main := Thread([], Poll)], map[])
  }

  /** A payload's code units as bytes. */
  function Bytes(p: string): (b: W.Bytes)
    ensures |b| == |p|
  {
    seq(|p|, i requires 0 <= i < |p| => (p[i] as int % 0x100) as W.byte)
  }

  predicate UsesClients(s: State, th: Thread) {
    if th.outs != [] then th.outs[0].Broadcast? || th.outs[0].SendTo?
    else
      match th.at
      case RelayChat(_) => true
      case Rename(_) => true
      case Deliver(_, _) => true
      case ListUsers => true
      case Leave => true
      case Admit(_) => true
      case MarkWelcomed(_, _) => true
      case ReapAt(i, _) => i < |s.threads|
      case Collect => true
      case _ => false
  }

  /** What the environment decides in a step: map order, results of system calls, input. */
  datatype Choice =
    | Go
    | Order(order: seq<Conn>)
    | Pick(found: Option<Conn>)
    | Number(n: nat)
    | Transfer(count: nat)
    | Interrupt
    | Fail
    | Incoming(payload: string)
    | PeerClosed
    | FrameTooLarge
    | NewConnection(conn: Conn)
    | AcceptFailed
    | Turn(point: Point)

  predicate Finished(s: State, c: Conn) {
    Handler(c) in s.pc && s.pc[Handler(c)] == Thread([], Done)
  }

  /** send_all never crosses from the header into the payload in one call. */
  function SegmentEnd(payload: string, sent: nat): nat {
    if sent < W.FRAME_HEADER_SIZE then W.FRAME_HEADER_SIZE else W.FRAME_HEADER_SIZE + |payload|
  }

  predicate WriteEnabled(cfg: Config, link: Link, payload: string, ch: Choice) {
    if |payload| > cfg.maxMessage then ch.Go?
    else if link.broken then ch.Fail?
    else
      || (ch.Transfer? && 1 <= ch.count <= SegmentEnd(payload, link.sent) - link.sent)
      || ch.Interrupt? || ch.Fail?
  }

  predicate SendEnabled(cfg: Config, s: State, out: Send, ch: Choice) {
    match out
    case Broadcast(_, exclude) => ch.Order? && Enumerates(ch.order, Targets(s.clients, exclude))
    case SendTo(_, _) => ch.Go?
    case Write(c, _) => ch.Go? && c in s.links && s.links[c].writer.None?
    case Writing(c, p) => c in s.links && WriteEnabled(cfg, s.links[c], p, ch)
  }

  predicate Matches(t: Table, c: Conn, recipient: string) {
    c in t && t[c].welcomed && t[c].nickname == recipient
  }

  predicate PickOk(t: Table, self: Conn, recipient: string, found: Option<Conn>) {
    if self !in t then found.None?
    else if found.Some? then Matches(t, found.value, recipient)
    else forall c :: c in t ==> !Matches(t, c, recipient)
  }

  ghost predicate PointEnabled(cfg: Config, s: State, t: ThreadId, at: Point, ch: Choice) {
    match at
    case Receive => ch.Incoming? || ch.PeerClosed? || ch.Fail? || ch.FrameTooLarge?
    case RelayChat(_) => ch.Go?
    case Rename(_) => ch.Go?
    case Deliver(recipient, _) => t.Handler? && ch.Pick? && PickOk(s.clients, t.conn, recipient, ch.found)
    case ListUsers =>
      && ch.Order? && Enumerates(ch.order, Targets(s.clients, None))
      && (forall c :: c in ch.order ==> c in s.clients) && Sorted(NamesInOrder(s.clients, ch.order))
    case Leave => ch.Go?
    case CloseOwn => ch.Go?
    case Poll =>
      && ch.Turn?
      && ch.point in {ReapLock(ThenPoll), ReapLock(ThenAccept), ReapLock(ThenShutdown), StartShutdown}
    case AcceptOne => ch.AcceptFailed? || (ch.NewConnection? && ch.conn !in s.links)
    case Admit(_) => if |s.clients| >= cfg.maxClients then ch.Go? else ch.Number? && FirstFree(s.clients, ch.n)
    case HangUp(_) => ch.Go?
    case MarkWelcomed(_, _) => ch.Go?
    case Spawn(_, _) => ch.Go? && s.threadsOwner.None?
    case ReapLock(_) => ch.Go? && s.threadsOwner.None?
    case ReapAt(_, _) => ch.Go?
    case ReapJoin(i, _) => ch.Go? && i < |s.threads| && Finished(s, s.threads[i])
    case StartShutdown => ch.Go?
    case Collect => ch.Order? && Enumerates(ch.order, s.clients.Keys)
    case ShutdownFds(_) => ch.Go?
    case TakeThreads => ch.Go? && s.threadsOwner.None?
    case JoinAll(left) => ch.Go? && (left == [] || Finished(s, left[0]))
    case CloseListener => ch.Go?
    case Done => false
  }

  predicate WaitsForClients(s: State, t: ThreadId)
    requires t in s.pc
  {
    UsesClients(s, s.pc[t]) && s.clientsOwner != Some(t)
  }

  ghost predicate Enabled(cfg: Config, s: State, t: ThreadId, ch: Choice) {
    && t in s.pc
    && var th := s.pc[t];
       if WaitsForClients(s, t) then ch.Go? && s.clientsOwner.None?
       else if th.outs != [] then SendEnabled(cfg, s, th.outs[0], ch)
       else PointEnabled(cfg, s, t, th.at, ch)
  }

  function SetThread(s: State, t: ThreadId, th: Thread): State {
    s.(pc := s.pc[t := th])
  }

  function SetLink(s: State, c: Conn, link: Link): State {
    s.(links := s.links[c := link])
  }

  function Break(s: State, c: Conn): State {
    if c in s.links then SetLink(s, c, s.links[c].(broken := true)) else s
  }

  function Writes(order: seq<Conn>, payload: string): (w: seq<Send>)
    ensures |w| == |order|
  {
    seq(|order|, i requires 0 <= i < |order| => Write(order[i], payload))
  }

  /** The system calls of send_frame on a link whose write mutex is held. The flag says that send_frame returned. */
  function WriteStep(cfg: Config, link: Link, payload: string, ch: Choice): (Link, bool)
    requires WriteEnabled(cfg, link, payload, ch)
    requires |payload| <= cfg.maxMessage ==> |payload| <= W.MAX_LENGTH
  {
    if |payload| > cfg.maxMessage then (link.(writer := None), true)
    else if ch.Fail? then (link.(writer := None, broken := true), true)
    else if ch.Interrupt? then (link, false)
    else
      var frame := W.EncodeFrame(Bytes(payload));
      var after := link.sent + ch.count;
      var wire := link.wire + frame[link.sent..after];
      if after == |frame| then (link.(writer := None, wire := wire, done := link.done + [payload], current := "", sent := 0), true)
      else (link.(wire := wire, sent := after), false)
  }

  /** A clients_mtx_ scope that turns the first send into `sends`. */
  function Expand(s: State, t: ThreadId, sends: seq<Send>): State
    requires t in s.pc && s.pc[t].outs != []
  {
    SetThread(s, t, s.pc[t].(outs := sends + s.pc[t].outs[1..])).(clientsOwner := None)
  }

  function Lookup(t: Table, c: Conn, payload: string): seq<Send> {
    if c in t then [Write(c, payload)] else []
  }

  function BeginWrite(cfg: Config, s: State, t: ThreadId, c: Conn, payload: string): State
    requires t in s.pc && s.pc[t].outs != [] && c in s.links
  {
    var link := s.links[c].(writer := Some(t));
    var ready := if link.broken || |payload| > cfg.maxMessage then link else link.(current := payload, sent := 0);
    SetLink(SetThread(s, t, s.pc[t].(outs := [Writing(c, payload)] + s.pc[t].outs[1..])), c, ready)
  }

  function AfterCall(s: State, t: ThreadId, c: Conn, link: Link, returned: bool): State
    requires t in s.pc && s.pc[t].outs != []
  {
    SetLink(if returned then SetThread(s, t, s.pc[t].(outs := s.pc[t].outs[1..])) else s, c, link)
  }

  function WriteCall(cfg: Config, s: State, t: ThreadId, c: Conn, payload: string, ch: Choice): State
    requires ConfigOk(cfg) && t in s.pc && s.pc[t].outs != []
    requires c in s.links && WriteEnabled(cfg, s.links[c], payload, ch)
  {
    var (link, returned) := WriteStep(cfg, s.links[c], payload, ch);
    AfterCall(s, t, c, link, returned)
  }

  function SendStep(cfg: Config, s: State, t: ThreadId, ch: Choice): State
    requires ConfigOk(cfg) && t in s.pc && s.pc[t].outs != []
    requires SendEnabled(cfg, s, s.pc[t].outs[0], ch)
  {
    match s.pc[t].outs[0]
    case Broadcast(payload, _) => Expand(s, t, Writes(ch.order, payload))
    case SendTo(c, payload) => Expand(s, t, Lookup(s.clients, c, payload))
    case Write(c, payload) => BeginWrite(cfg, s, t, c, payload)
    case Writing(c, payload) => WriteCall(cfg, s, t, c, payload, ch)
  }

  function Reply(c: Conn, code: string, text: string): Thread {
    Thread([SendTo(c, ErrLine(code, text))], Receive)
  }

  /** handle_line up to its first lock. */
  function OnLine(c: Conn, raw: string): Thread {
    match ParseLine(raw)
    case Blank => Thread([], Receive)
    case Exit => Thread([], Leave)
    case SetNick(args) => (
      match ParseNickArgs(args)
      case NickRejected(code, text) => Reply(c, code, text)
      case NickAccepted(nickname) => Thread([], Rename(nickname)))
    case Private(args) => (
      match ParsePrivateArgs(args)
      case PrivateUsage => Reply(c, "MSG_USAGE", "Usage: /msg <nickname> <message>")
      case PrivateTo(recipient, text) => Thread([], Deliver(recipient, text)))
    case ListUsers => Thread([], Point.ListUsers)
    case BadCommand(command) => Reply(c, "BAD_CMD", "Unknown command '" + command + "'")
    case Chat(line) => Thread([], RelayChat(line))
  }

  /** The thread's continuation and the client table after a scope of handler `c`. */
  function HandlerScope(t: Table, c: Conn, at: Point, ch: Choice): (Thread, Table)
    requires at.RelayChat? || at.Rename? || at.Deliver? || at.ListUsers? || at.Leave?
    requires at.Deliver? ==> ch.Pick? && PickOk(t, c, at.recipient, ch.found)
    requires at.ListUsers? ==> ch.Order? && forall d :: d in ch.order ==> d in t
  {
    match at
    case RelayChat(line) =>
      (if c in t then Thread([Broadcast(MsgLine(t[c].nickname, line), Some(c))], Receive) else Thread([], Receive), t)
    case Rename(nickname) =>
      if UsedByOther(t, c, nickname) then
        (Reply(c, "NICK_TAKEN", "Nickname '" + nickname + "' is already in use"), t)
      else if c !in t then (Thread([], Receive), t)
      else (Thread([Broadcast(NickLine(t[c].nickname, nickname), None)], Receive), t[c := t[c].(nickname := nickname)])
    case Deliver(recipient, text) =>
      if c !in t then (Thread([], Receive), t)
      else if ch.found.None? then (Reply(c, "USER_NOT_FOUND", "User '" + recipient + "' not found"), t)
      else if ch.found.value == c then (Reply(c, "MSG_SELF", "You cannot send a private message to yourself"), t)
      else
        (Thread([SendTo(ch.found.value, PrivLine(t[c].nickname, text)), SendTo(c, PrivSentLine(recipient, text))], Receive), t)
    case ListUsers =>
      (Thread([SendTo(c, ListLine(NamesInOrder(t, ch.order)))], Receive), t)
    case Leave =>
      (Thread(if c in t then [Broadcast(LeftLine(t[c].nickname), Some(c))] else [], CloseOwn), t - {c})
  }

  /** What the receive loop does with the result of recv_frame. */
  function OnFrame(c: Conn, ch: Choice): Thread {
    if ch.Incoming? then OnLine(c, ch.payload)
    else if ch.FrameTooLarge? then Thread([SendTo(c, FRAME_TOO_LARGE)], Leave)
    else Thread([], Leave)
  }

  function HandlerStep(cfg: Config, s: State, c: Conn, ch: Choice): State
    requires Handler(c) in s.pc && s.pc[Handler(c)].outs == []
    requires HandlerPoint(s.pc[Handler(c)].at)
    requires s.pc[Handler(c)].at.Deliver? ==> ch.Pick? && PickOk(s.clients, c, s.pc[Handler(c)].at.recipient, ch.found)
    requires s.pc[Handler(c)].at.ListUsers? ==> ch.Order? && forall d :: d in ch.order ==> d in s.clients
  {
    var t := Handler(c);
    var at := s.pc[t].at;
    match at
    case Receive => SetThread(s, t, OnFrame(c, ch))
    case CloseOwn => SetThread(Break(s, c), t, Thread([], Done))
    case Done => s
    case _ =>
      var (th, table) := HandlerScope(s.clients, c, at, ch);
      SetThread(s, t, th).(clients := table, clientsOwner := None)
  }

  predicate HandlerPoint(at: Point) {
    at.Receive? || at.RelayChat? || at.Rename? || at.Deliver? || at.ListUsers? || at.Leave? || at.CloseOwn? || at.Done?
  }

  function After(next: Next): Point {
    match next case ThenPoll => Poll case ThenAccept => AcceptOne case ThenShutdown => StartShutdown
  }

  function FreshLink(): Link {
    Link(None, false, [], [], "", 0, "")
  }

  function MainGoto(s: State, at: Point): State {
    SetThread(s, Main, Thread([], at))
  }

  function AdmitStep(cfg: Config, s: State, c: Conn, ch: Choice): State
    requires c in s.links
    requires |s.clients| < cfg.maxClients ==> ch.Number?
  {
    var link := s.links[c];
    if |s.clients| >= cfg.maxClients then
      // The rejected socket has no record, hence no mutex anyone could share: the model lets main hold it.
      SetLink(SetThread(s, Main, Thread([Writing(c, SERVER_FULL)], HangUp(c))), c,
        link.(writer := Some(Main), current := SERVER_FULL, sent := 0, greeting := SERVER_FULL)).(clientsOwner := None)
    else
      var name := DefaultName(ch.n);
      SetLink(SetThread(s, Main, Thread([SendTo(c, WelcomeLine(name))], MarkWelcomed(c, name))), c,
        link.(greeting := WelcomeLine(name)))
        .(clients := s.clients[c := ClientRecord(name, false)], clientsOwner := None)
  }

  function Accepted(s: State, c: Conn): State {
    MainGoto(SetLink(s, c, FreshLink()), Admit(c))
  }

  function Welcomed(s: State, c: Conn, name: string): State {
    var table := if c in s.clients then s.clients[c := s.clients[c].(welcomed := true)] else s.clients;
    MainGoto(s, Spawn(c, name)).(clients := table, clientsOwner := None)
  }

  function Spawned(s: State, c: Conn, main: Thread): State {
    SetThread(SetThread(s, Handler(c), Thread([], Receive)).(threads := s.threads + [c]), Main, main)
  }

  /** One turn of the reap loop before any join. */
  function ReapLook(s: State, i: nat, next: Next): State {
    if i >= |s.threads| then MainGoto(s, After(next)).(threadsOwner := None)
    else MainGoto(s, if s.threads[i] in s.clients then ReapAt(i + 1, next) else ReapJoin(i, next)).(clientsOwner := None)
  }

  function ShutdownNext(s: State, fds: seq<Conn>): State {
    if fds == [] then MainGoto(s, TakeThreads) else MainGoto(Break(s, fds[0]), ShutdownFds(fds[1..]))
  }

  function JoinNext(s: State, left: seq<Conn>): State {
    if left == [] then MainGoto(s, CloseListener)
    else MainGoto(s, JoinAll(left[1..])).(joined := s.joined + [left[0]])
  }

  function MainStep(cfg: Config, s: State, ch: Choice): State
    requires Main in s.pc && s.pc[Main].outs == []
    requires !HandlerPoint(s.pc[Main].at) || s.pc[Main].at.Done?
    requires s.pc[Main].at.Poll? ==> ch.Turn?
    requires s.pc[Main].at.AcceptOne? ==> ch.AcceptFailed? || ch.NewConnection?
    requires s.pc[Main].at.Admit? ==> s.pc[Main].at.conn in s.links && (|s.clients| < cfg.maxClients ==> ch.Number?)
    requires s.pc[Main].at.ReapJoin? ==> s.pc[Main].at.index < |s.threads|
    requires s.pc[Main].at.Collect? ==> ch.Order?
  {
    match s.pc[Main].at
    case Poll => MainGoto(s, ch.point)
    case AcceptOne => if ch.AcceptFailed? then MainGoto(s, Poll) else Accepted(s, ch.conn)
    case Admit(c) => AdmitStep(cfg, s, c, ch)
    case HangUp(c) => MainGoto(Break(s, c), Poll)
    case MarkWelcomed(c, name) => Welcomed(s, c, name)
    case Spawn(c, name) => Spawned(s, c, Thread([Broadcast(JoinedLine(name), Some(c))], Poll))
    case ReapLock(next) => MainGoto(s, ReapAt(0, next)).(threadsOwner := Some(Main))
    case ReapAt(i, next) => ReapLook(s, i, next)
    case ReapJoin(i, next) =>
      MainGoto(s, ReapAt(i, next)).(threads := s.threads[..i] + s.threads[i + 1..], joined := s.joined + [s.threads[i]])
    case StartShutdown => SetThread(s, Main, Thread([Broadcast(GOODBYE, None)], Collect))
    case Collect => MainGoto(s, ShutdownFds(ch.order)).(clientsOwner := None)
    case ShutdownFds(fds) => ShutdownNext(s, fds)
    case TakeThreads => MainGoto(s, JoinAll(s.threads)).(threads := [])
    case JoinAll(left) => JoinNext(s, left)
    case CloseListener => MainGoto(s, Done)
    case Done => s
  }

  /** A thread is where its kind of thread can be, so that the step functions are defined. */
  predicate Placed(s: State, t: ThreadId) {
    && t in s.pc
    && (t.Handler? ==> HandlerPoint(s.pc[t].at))
    && (t.Main? ==> !HandlerPoint(s.pc[t].at) || s.pc[t].at.Done?)
    && (t.Main? && s.pc[t].at.Admit? ==> s.pc[t].at.conn in s.links)
  }

  ghost predicate Step(cfg: Config, s: State, t: ThreadId, ch: Choice, s': State) {
    && ConfigOk(cfg) && Enabled(cfg, s, t, ch) && Placed(s, t)
    && s' == if WaitsForClients(s, t) then s.(clientsOwner := Some(t))
             else if s.pc[t].outs != [] then SendStep(cfg, s, t, ch)
             else if t.Main? then MainStep(cfg, s, ch)
             else HandlerStep(cfg, s, t.conn, ch)
  }

  datatype Event = Event(thread: ThreadId, choice: Choice)

  /** The states a run of the server passes through. */
  ghost predicate Run(cfg: Config, states: seq<State>, events: seq<Event>) {
    && |states| == |events| + 1
    && states[0] == Init()
    && forall i {:trigger events[i]} :: 0 <= i < |events| ==> Step(cfg, states[i], events[i].thread, events[i].choice, states[i + 1])
  }

  ghost predicate Reachable(cfg: Config, s: State) {
    exists states, events :: Run(cfg, states, events) && states[|states| - 1] == s
  }
}
