/** Both tiers and the frames between them: how a gateway session comes to know its own name on the C++ server. A rename
    is committed under clients_mtx_; its NICK frame is broadcast later, over a snapshot, one send after the other, while
    other handlers go on. */
module NicknameTracking {
  import opened Text
  import opened ClientTable
  import opened BackendLines
  import P = ClientProtocol
  import G = Gateway
  import GF = GatewayFrames
  import GS = GatewayStores
  import GI = GatewayInvariant

  /** A rename that its handler has still to announce: to everyone in a snapshot not yet taken, or to `targets`. */
  datatype Announcement = Announcement(oldNick: string, newNick: string, targets: Option<set<Conn>>)

  /** A line on its way to one gateway session. History: who was renamed by it, if it announces a rename, and the name
      that the receiver's own frames up to this one give it. */
  datatype Frame = Frame(line: string, renamed: Option<Conn>, ownName: string)

  /** `followed` is the nickname each gateway session believes it has. History: `own` is the name in the connection's own
      last queued WELCOME or rename, `heard` the name in its own last consumed one. */
  datatype Tiers = Tiers(
    table: Table, announcing: map<Conn, Announcement>, queues: map<Conn, seq<Frame>>, broken: set<Conn>,
    own: map<Conn, string>, followed: map<Conn, string>, heard: map<Conn, string>)

  datatype Action =
    | Accept(conn: Conn, n: nat)
    | MarkWelcomed(conn: Conn)
    | Commit(conn: Conn, args: string)
    | TakeSnapshot(conn: Conn)
    | Enqueue(conn: Conn, target: Conn)
    | Finish(conn: Conn)
    | OtherLine(conn: Conn, line: string)
    | Break(conn: Conn)
    | Leave(conn: Conn)
    | Consume(conn: Conn)

  /** What a session makes of one event: the name it believes in afterwards. */
  function Follow(name: string, e: BackendEvent): string {
    match e
    case Welcome(nickname) => nickname
    case Nick(oldNick, newNick) => if oldNick == name then newNick else name
    case Sys(_) => name
    case Msg(_, _) => name
    case Priv(_, _) => name
    case PrivSent(_, _) => name
    case Listing(_, _) => name
    case Err(_, _) => name
    case Unknown(_) => name
  }

  function FollowLine(name: string, line: string): string { Follow(name, ParseBackendLine(line)) }

  function Start(): Tiers { Tiers(map[], map[], map[], {}, map[], map[], map[]) }

  /** A frame is queued unless the connection is broken. */
  function Queue(s: Tiers, c: Conn, f: Frame): Tiers
    requires c in s.queues
  {
    if c in s.broken then s
    else s.(queues := s.queues[c := s.queues[c] + [f]], own := s.own[c := f.ownName])
  }

  function NickFrame(s: Tiers, c: Conn, d: Conn): Frame
    requires c in s.announcing && d in s.own
  {
    var a := s.announcing[c];
    Frame(NickLine(a.oldNick, a.newNick), Some(c), if c == d then a.newNick else s.own[d])
  }

  function Committed(s: Tiers, c: Conn, newNick: string): Tiers
    requires c in s.table
  {
    s.(table := s.table[c := s.table[c].(nickname := newNick)],
       announcing := s.announcing[c := Announcement(s.table[c].nickname, newNick, None)])
  }

  /** A handler does one thing after the other: it commits, leaves and goes on only when its announcement is made. */
  ghost predicate Enabled(s: Tiers, a: Action) {
    match a
    case Accept(c, n) => c !in s.queues && c !in s.table && |s.table| < MAX_MAX_CLIENTS && FirstFree(s.table, n)
    case MarkWelcomed(c) => c in s.table
    case Commit(c, _) => c in s.table && s.table[c].welcomed && c !in s.announcing
    case TakeSnapshot(c) => c in s.announcing && s.announcing[c].targets.None?
    case Enqueue(c, d) =>
      && c in s.announcing && s.announcing[c].targets.Some? && d in s.announcing[c].targets.value
      && d in s.queues && d in s.own
    case Finish(c) => c in s.announcing && s.announcing[c].targets == Some({})
    case OtherLine(c, line) =>
      && c in s.queues && c in s.own && !ParseBackendLine(line).Welcome? && !ParseBackendLine(line).Nick?
    case Break(c) => c in s.queues
    case Leave(c) => c in s.table && c !in s.announcing
    case Consume(c) => c in s.queues && c in s.followed && s.queues[c] != []
  }

  function Do(s: Tiers, a: Action): Tiers
    requires Enabled(s, a)
  {
    match a
    case Accept(c, n) =>
      var name := DefaultName(n);
      s.(table := s.table[c := ClientRecord(name, false)], queues := s.queues[c := [Frame(WelcomeLine(name), None, name)]],
         own := s.own[c := name], followed := s.followed[c := ""], heard := s.heard[c := ""])
    case MarkWelcomed(c) => s.(table := s.table[c := s.table[c].(welcomed := true)])
    case Commit(c, args) =>
      var request := ParseNickArgs(args);
      if request.NickAccepted? && !UsedByOther(s.table, c, request.nickname) then Committed(s, c, request.nickname) else s
    case TakeSnapshot(c) =>
      s.(announcing := s.announcing[c := s.announcing[c].(targets := Some(Targets(s.table, None)))])
    case Enqueue(c, d) =>
      Queue(s, d, NickFrame(s, c, d)).(announcing :=
        s.announcing[c := s.announcing[c].(targets := Some(s.announcing[c].targets.value - {d}))])
    case Finish(c) => s.(announcing := s.announcing - {c})
    case OtherLine(c, line) => Queue(s, c, Frame(line, None, s.own[c]))
    case Break(c) => s.(broken := s.broken + {c})
    case Leave(c) => s.(table := s.table - {c})
    case Consume(c) =>
      var f := s.queues[c][0];
      s.(queues := s.queues[c := s.queues[c][1..]], followed := s.followed[c := FollowLine(s.followed[c], f.line)],
         heard := s.heard[c := f.ownName])
  }

  ghost predicate Run(states: seq<Tiers>, actions: seq<Action>) {
    && |states| == |actions| + 1 && states[0] == Start()
    && forall i {:trigger actions[i]} :: 0 <= i < |actions| ==> Enabled(states[i], actions[i]) && states[i + 1] == Do(states[i], actions[i])
  }

  // What holds in every run.

  /** An announcement is one step behind the table, and so is the renamed client's own stream until its frame is queued. */
  ghost predicate AnnouncementOk(s: Tiers, c: Conn) {
    && c in s.announcing && c in s.table && s.table[c].welcomed
    && var a := s.announcing[c];
       && s.table[c].nickname == a.newNick && ValidNickname(a.oldNick) && ValidNickname(a.newNick)
       && (a.targets.Some? ==> forall d :: d in a.targets.value ==> d in s.queues)
  }

  /** The renamed client itself is still to hear of its rename. */
  predicate OwnPending(s: Tiers, c: Conn) {
    c in s.announcing && (s.announcing[c].targets.None? || c in s.announcing[c].targets.value)
  }

  ghost predicate ConnOk(s: Tiers, c: Conn) {
    && c in s.queues && c in s.own && c in s.followed && c in s.heard
    && OwnNames(s.heard[c], s.queues[c], s.own[c]) && QueueFits(s.heard[c], s.queues[c], c)
    && (c in s.table && c !in s.broken ==>
          s.own[c] == if OwnPending(s, c) then s.announcing[c].oldNick else s.table[c].nickname)
  }

  /** The last queued frame, or the last consumed one if there is none, carries the connection's own name. */
  predicate OwnNames(heard: string, q: seq<Frame>, own: string) {
    own == if q == [] then heard else q[|q| - 1].ownName
  }

  /** A NICK frame renames its receiver from and to what it says, and leaves anybody else's own name as it was. */
  predicate FrameFits(own: string, f: Frame, self: Conn) {
    var e := ParseBackendLine(f.line);
    && (e.Nick? <==> f.renamed.Some?)
    && (e.Nick? ==> if f.renamed == Some(self) then e.oldNick == own && f.ownName == e.newNick else f.ownName == own)
  }

  predicate QueueFits(own: string, q: seq<Frame>, self: Conn)
    decreases |q|
  {
    q == [] || (FrameFits(own, q[0], self) && QueueFits(q[0].ownName, q[1..], self))
  }

  lemma {:induction false} FitsSnoc(heard: string, q: seq<Frame>, f: Frame, self: Conn)
    requires QueueFits(heard, q, self) && FrameFits(if q == [] then heard else q[|q| - 1].ownName, f, self)
    ensures QueueFits(heard, q + [f], self)
    decreases |q|
  {
    if q == [] {
      assert ([f])[1..] == [];
    } else {
      assert (q + [f])[1..] == q[1..] + [f];
      FitsSnoc(q[0].ownName, q[1..], f, self);
    }
  }

  ghost predicate TiersOk(s: Tiers) {
    && NicknamesDistinct(s.table) && NicknamesValid(s.table)
    && (forall c :: c in s.table ==> c in s.queues)
    && (forall c :: c in s.announcing ==> AnnouncementOk(s, c))
    && (forall c :: c in s.queues ==> ConnOk(s, c))
  }

  lemma NewcomerFits(c: Conn, name: string)
    ensures QueueFits("", [Frame(WelcomeLine(name), None, name)], c)
  {
    WelcomeParses(name);
    var q := [Frame(WelcomeLine(name), None, name)];
    assert q[1..] == [];
  }

  lemma AcceptOk(s: Tiers, c: Conn, n: nat)
    requires TiersOk(s) && Enabled(s, Accept(c, n))
    ensures TiersOk(Do(s, Accept(c, n)))
  {
    var s' := Do(s, Accept(c, n));
    DefaultNameIsValid(s.table, n);
    forall d | d in s.table ensures s.table[d].nickname != DefaultName(n) { assert !NicknameUsed(s.table, DefaultName(n)); }
    forall d | d in s'.queues ensures ConnOk(s', d) { AcceptConn(s, c, n, d); }
    forall d | d in s'.announcing ensures AnnouncementOk(s', d) { assert AnnouncementOk(s, d); }
  }

  lemma AcceptConn(s: Tiers, c: Conn, n: nat, d: Conn)
    requires TiersOk(s) && Enabled(s, Accept(c, n)) && d in Do(s, Accept(c, n)).queues
    ensures ConnOk(Do(s, Accept(c, n)), d)
  {
    if d != c { assert ConnOk(s, d); }
    else {
      NewcomerFits(c, DefaultName(n));
      assert c in s.announcing ==> AnnouncementOk(s, c);
    }
  }

  lemma CommitOk(s: Tiers, c: Conn, newNick: string)
    requires TiersOk(s) && c in s.table && s.table[c].welcomed && c !in s.announcing
    requires ValidNickname(newNick) && !UsedByOther(s.table, c, newNick)
    ensures TiersOk(Committed(s, c, newNick))
  {
    var s' := Committed(s, c, newNick);
    assert forall d :: d in s.table && d != c ==> s.table[d].nickname != newNick;
    forall d | d in s'.queues ensures ConnOk(s', d) { assert ConnOk(s, d); }
    forall d | d in s'.announcing ensures AnnouncementOk(s', d) {
      if d != c { assert AnnouncementOk(s, d); }
    }
  }

  lemma TakeSnapshotOk(s: Tiers, c: Conn)
    requires TiersOk(s) && Enabled(s, TakeSnapshot(c))
    ensures TiersOk(Do(s, TakeSnapshot(c)))
  {
    var s' := Do(s, TakeSnapshot(c));
    forall d | d in s'.announcing ensures AnnouncementOk(s', d) { assert AnnouncementOk(s, d); }
    assert AnnouncementOk(s, c);
    forall d | d in s'.queues ensures ConnOk(s', d) { assert ConnOk(s, d); }
  }

  /** Queueing a frame that fits, while nothing else changes. */
  lemma QueuedOk(s: Tiers, c: Conn, f: Frame)
    requires ConnOk(s, c) && FrameFits(s.own[c], f, c)
    ensures var s' := Queue(s, c, f);
            && c in s'.queues && c in s'.own && c in s'.heard
            && OwnNames(s'.heard[c], s'.queues[c], s'.own[c]) && QueueFits(s'.heard[c], s'.queues[c], c)
            && s'.own[c] == if c in s.broken then s.own[c] else f.ownName
  {
    FitsSnoc(s.heard[c], s.queues[c], f, c);
  }

  lemma NickFrameFits(s: Tiers, c: Conn, d: Conn)
    requires AnnouncementOk(s, c) && ConnOk(s, d) && d !in s.broken && (c == d ==> OwnPending(s, c))
    ensures FrameFits(s.own[d], NickFrame(s, c, d), d)
  {
    ValidNicknameIsSpaceFree(s.announcing[c].oldNick);
    NickParses(s.announcing[c].oldNick, s.announcing[c].newNick);
  }

  lemma EnqueueOk(s: Tiers, c: Conn, d: Conn)
    requires TiersOk(s) && Enabled(s, Enqueue(c, d))
    ensures TiersOk(Do(s, Enqueue(c, d)))
  {
    var s' := Do(s, Enqueue(c, d));
    assert AnnouncementOk(s, c) && ConnOk(s, d);
    forall e | e in s'.announcing ensures AnnouncementOk(s', e) { assert AnnouncementOk(s, e); }
    forall e | e in s'.queues ensures ConnOk(s', e) { EnqueueConn(s, c, d, e); }
  }

  lemma EnqueueConn(s: Tiers, c: Conn, d: Conn, e: Conn)
    requires TiersOk(s) && Enabled(s, Enqueue(c, d)) && e in s.queues
    ensures ConnOk(Do(s, Enqueue(c, d)), e)
  {
    assert ConnOk(s, e) && AnnouncementOk(s, c);
    if e == d { ReceiverOk(s, c, d); }
  }

  lemma ReceiverOk(s: Tiers, c: Conn, d: Conn)
    requires AnnouncementOk(s, c) && ConnOk(s, d) && Enabled(s, Enqueue(c, d))
    ensures ConnOk(Do(s, Enqueue(c, d)), d)
  {
    if d !in s.broken {
      NickFrameFits(s, c, d);
      QueuedOk(s, d, NickFrame(s, c, d));
    }
  }

  lemma OtherLineOk(s: Tiers, c: Conn, line: string)
    requires TiersOk(s) && Enabled(s, OtherLine(c, line))
    ensures TiersOk(Do(s, OtherLine(c, line)))
  {
    var s' := Do(s, OtherLine(c, line));
    assert ConnOk(s, c);
    QueuedOk(s, c, Frame(line, None, s.own[c]));
    forall e | e in s'.announcing ensures AnnouncementOk(s', e) { assert AnnouncementOk(s, e); }
    forall e | e in s'.queues ensures ConnOk(s', e) { assert ConnOk(s, e); }
  }

  lemma ConsumeOk(s: Tiers, c: Conn)
    requires TiersOk(s) && Enabled(s, Consume(c))
    ensures TiersOk(Do(s, Consume(c)))
  {
    var s' := Do(s, Consume(c));
    forall e | e in s'.announcing ensures AnnouncementOk(s', e) { assert AnnouncementOk(s, e); }
    forall e | e in s'.queues ensures ConnOk(s', e) { assert ConnOk(s, e); }
  }

  lemma TiersOkStep(s: Tiers, a: Action)
    requires TiersOk(s) && Enabled(s, a)
    ensures TiersOk(Do(s, a))
  {
    var s' := Do(s, a);
    if a.Accept? { AcceptOk(s, a.conn, a.n); }
    else if a.Commit? {
      AcceptedNicknameIsValid(a.args);
      if s' != s { CommitOk(s, a.conn, ParseNickArgs(a.args).nickname); }
    }
    else if a.TakeSnapshot? { TakeSnapshotOk(s, a.conn); }
    else if a.Enqueue? { EnqueueOk(s, a.conn, a.target); }
    else if a.OtherLine? { OtherLineOk(s, a.conn, a.line); }
    else if a.Consume? { ConsumeOk(s, a.conn); }
    else { PlainStepOk(s, a); }
  }

  lemma PlainStepOk(s: Tiers, a: Action)
    requires TiersOk(s) && Enabled(s, a) && (a.MarkWelcomed? || a.Finish? || a.Break? || a.Leave?)
    ensures TiersOk(Do(s, a))
  {
    if a.Finish? { FinishOk(s, a.conn); }
    else if a.Break? { BreakOk(s, a.conn); }
    else if a.Leave? { LeaveOk(s, a.conn); }
    else { MarkWelcomedOk(s, a.conn); }
  }

  lemma BreakOk(s: Tiers, c: Conn)
    requires TiersOk(s) && Enabled(s, Break(c))
    ensures TiersOk(Do(s, Break(c)))
  {
    var s' := Do(s, Break(c));
    forall e | e in s'.announcing ensures AnnouncementOk(s', e) { assert AnnouncementOk(s, e); }
    forall e | e in s'.queues ensures ConnOk(s', e) { assert ConnOk(s, e); }
  }

  lemma LeaveOk(s: Tiers, c: Conn)
    requires TiersOk(s) && Enabled(s, Leave(c))
    ensures TiersOk(Do(s, Leave(c)))
  {
    var s' := Do(s, Leave(c));
    forall e | e in s'.announcing ensures AnnouncementOk(s', e) { assert AnnouncementOk(s, e); }
    forall e | e in s'.queues ensures ConnOk(s', e) { assert ConnOk(s, e); }
  }

  lemma MarkWelcomedOk(s: Tiers, c: Conn)
    requires TiersOk(s) && Enabled(s, MarkWelcomed(c))
    ensures TiersOk(Do(s, MarkWelcomed(c)))
  {
    var s' := Do(s, MarkWelcomed(c));
    forall e | e in s'.announcing ensures AnnouncementOk(s', e) { assert AnnouncementOk(s, e); }
    forall e | e in s'.queues ensures ConnOk(s', e) { assert ConnOk(s, e); }
  }

  lemma FinishOk(s: Tiers, c: Conn)
    requires TiersOk(s) && Enabled(s, Finish(c))
    ensures TiersOk(Do(s, Finish(c)))
  {
    var s' := Do(s, Finish(c));
    forall e | e in s'.announcing ensures AnnouncementOk(s', e) { assert AnnouncementOk(s, e); }
    forall e | e in s'.queues ensures ConnOk(s', e) { assert ConnOk(s, e); }
  }

  lemma {:induction false} RunsKeepTiersOk(states: seq<Tiers>, actions: seq<Action>, n: nat)
    requires Run(states, actions) && n < |states|
    ensures TiersOk(states[n])
  {
    if n > 0 {
      RunsKeepTiersOk(states, actions, n - 1);
      TiersOkStep(states[n - 1], actions[n - 1]);
    }
  }

  // When sessions are on track.

  /** A frame takes a session from the name before it to the name its own frames give it. */
  predicate FrameOk(name: string, f: Frame) { FollowLine(name, f.line) == f.ownName }

  predicate QueueOk(name: string, q: seq<Frame>)
    decreases |q|
  {
    q == [] || (FrameOk(name, q[0]) && QueueOk(q[0].ownName, q[1..]))
  }

  /** The session believes in the name its own frames gave it so far, and will at every frame that is queued. */
  ghost predicate OnTrack(s: Tiers, c: Conn) {
    c in s.followed && c in s.heard && c in s.queues && s.followed[c] == s.heard[c] && QueueOk(s.heard[c], s.queues[c])
  }

  ghost predicate AllOnTrack(s: Tiers) { forall c :: c in s.queues ==> OnTrack(s, c) }

  /** The old name that `c` gives up is not what `d` has last been told to be called. A send to `d` can test this. */
  predicate Clear(s: Tiers, c: Conn, d: Conn)
    requires c in s.announcing && d in s.own
  {
    c == d || d in s.broken || s.own[d] != s.announcing[c].oldNick || s.announcing[c].oldNick == s.announcing[c].newNick
  }

  predicate ClearAction(s: Tiers, a: Action) {
    a.Enqueue? && a.conn in s.announcing && a.target in s.own ==> Clear(s, a.conn, a.target)
  }

  lemma {:induction false} QueueSnoc(name: string, q: seq<Frame>, f: Frame)
    requires QueueOk(name, q)
    ensures QueueOk(name, q + [f]) <==> FrameOk(if q == [] then name else q[|q| - 1].ownName, f)
    decreases |q|
  {
    if q == [] {
      assert ([f])[1..] == [];
    } else {
      assert (q + [f])[1..] == q[1..] + [f];
      QueueSnoc(q[0].ownName, q[1..], f);
    }
  }

  lemma {:induction false} QueueSplits(name: string, q: seq<Frame>, f: Frame)
    requires QueueOk(name, q + [f])
    ensures QueueOk(name, q)
    decreases |q|
  {
    if q != [] {
      assert (q + [f])[1..] == q[1..] + [f];
      QueueSplits(q[0].ownName, q[1..], f);
    }
  }

  /** Queueing a frame keeps a session on track exactly when the frame does. */
  lemma QueueTracks(s: Tiers, c: Conn, f: Frame)
    requires TiersOk(s) && AllOnTrack(s) && c in s.queues
    ensures AllOnTrack(Queue(s, c, f)) <==> c in s.broken || FrameOk(s.own[c], f)
  {
    var s' := Queue(s, c, f);
    assert ConnOk(s, c) && OnTrack(s, c);
    if c !in s.broken {
      QueueSnoc(s.heard[c], s.queues[c], f);
      assert OnTrack(s', c) <==> FrameOk(s.own[c], f);
      if FrameOk(s.own[c], f) {
        forall d | d in s'.queues ensures OnTrack(s', d) { assert OnTrack(s, d); }
      }
    }
  }

  lemma SameTrack(s: Tiers, s': Tiers)
    requires s'.queues == s.queues && s'.followed == s.followed && s'.heard == s.heard
    ensures AllOnTrack(s') <==> AllOnTrack(s)
  {
    if AllOnTrack(s) { forall c | c in s'.queues ensures OnTrack(s', c) { assert OnTrack(s, c); } }
    if AllOnTrack(s') { forall c | c in s.queues ensures OnTrack(s, c) { assert OnTrack(s', c); } }
  }

  lemma NickFrameExactly(oldNick: string, newNick: string, name: string)
    requires SpaceFree(oldNick)
    ensures FollowLine(name, NickLine(oldNick, newNick)) == if oldNick == name then newNick else name
  {
    NickParses(oldNick, newNick);
  }

  /** A NICK frame keeps everyone on track if and only if it is clear for its receiver: a foreign one must not give up the
      name that the receiver was last told, and the receiver's own always matches. */
  lemma EnqueueTracksExactly(s: Tiers, c: Conn, d: Conn)
    requires TiersOk(s) && AllOnTrack(s) && Enabled(s, Enqueue(c, d))
    ensures AllOnTrack(Do(s, Enqueue(c, d))) <==> Clear(s, c, d)
  {
    var a, f := s.announcing[c], NickFrame(s, c, d);
    assert AnnouncementOk(s, c) && ConnOk(s, d) && ConnOk(s, c);
    ValidNicknameIsSpaceFree(a.oldNick);
    NickFrameExactly(a.oldNick, a.newNick, s.own[d]);
    QueueTracks(s, d, f);
    SameTrack(Queue(s, d, f), Do(s, Enqueue(c, d)));
  }

  /** From sessions that are on track a step leaves all of them on track if and only if it is clear. */
  lemma StepTracksExactly(s: Tiers, a: Action)
    requires TiersOk(s) && AllOnTrack(s) && Enabled(s, a)
    ensures AllOnTrack(Do(s, a)) <==> ClearAction(s, a)
  {
    if a.Enqueue? { EnqueueTracksExactly(s, a.conn, a.target); }
    else if a.OtherLine? { OtherLineTracks(s, a.conn, a.line); }
    else if a.Accept? { AcceptTracks(s, a.conn, a.n); }
    else if a.Consume? { ConsumeTracks(s, a.conn); }
    else { SameTrack(s, Do(s, a)); }
  }

  lemma OtherLineTracks(s: Tiers, c: Conn, line: string)
    requires TiersOk(s) && AllOnTrack(s) && Enabled(s, OtherLine(c, line))
    ensures AllOnTrack(Do(s, OtherLine(c, line)))
  {
    assert ConnOk(s, c);
    QueueTracks(s, c, Frame(line, None, s.own[c]));
  }

  lemma AcceptTracks(s: Tiers, c: Conn, n: nat)
    requires AllOnTrack(s) && Enabled(s, Accept(c, n))
    ensures AllOnTrack(Do(s, Accept(c, n)))
  {
    var s', name := Do(s, Accept(c, n)), DefaultName(n);
    WelcomeParses(name);
    var q := [Frame(WelcomeLine(name), None, name)];
    assert q[1..] == [] && s'.queues[c] == q && FrameOk("", q[0]);
    forall d | d in s'.queues ensures OnTrack(s', d) {
      if d != c { assert OnTrack(s, d); }
    }
  }

  lemma ConsumeTracks(s: Tiers, c: Conn)
    requires AllOnTrack(s) && Enabled(s, Consume(c))
    ensures AllOnTrack(Do(s, Consume(c)))
  {
    var s' := Do(s, Consume(c));
    assert OnTrack(s, c);
    forall d | d in s'.queues ensures OnTrack(s', d) {
      if d != c { assert OnTrack(s, d); }
    }
  }

  ghost predicate ClearRun(states: seq<Tiers>, actions: seq<Action>) {
    Run(states, actions) && forall i {:trigger actions[i]} :: 0 <= i < |actions| ==> ClearAction(states[i], actions[i])
  }

  lemma {:induction false} ClearRunsStayOnTrack(states: seq<Tiers>, actions: seq<Action>, n: nat)
    requires ClearRun(states, actions) && n < |states|
    ensures AllOnTrack(states[n])
  {
    if n > 0 {
      ClearRunsStayOnTrack(states, actions, n - 1);
      RunsKeepTiersOk(states, actions, n - 1);
      StepTracksExactly(states[n - 1], actions[n - 1]);
    }
  }

  // The theorems.

  /** Over a run every session is on track in every state if and only if every NICK frame was clear for its receiver when
      it was sent. */
  lemma TrackingExactly(states: seq<Tiers>, actions: seq<Action>)
    requires Run(states, actions)
    ensures (forall n :: 0 <= n < |states| ==> AllOnTrack(states[n])) <==> ClearRun(states, actions)
  {
    if ClearRun(states, actions) {
      forall n | 0 <= n < |states| ensures AllOnTrack(states[n]) { ClearRunsStayOnTrack(states, actions, n); }
    }
    if forall n :: 0 <= n < |states| ==> AllOnTrack(states[n]) {
      forall i | 0 <= i < |actions| ensures ClearAction(states[i], actions[i]) {
        RunsKeepTiersOk(states, actions, i);
        assert AllOnTrack(states[i]) && AllOnTrack(states[i + 1]);
        StepTracksExactly(states[i], actions[i]);
      }
    }
  }

  /** One consumed frame, in any run: a session that believed in its own name goes on doing so if and only if the frame,
      when it announces somebody else's rename, does not give up that name, or changes nothing. */
  lemma ConsumedFrameExactly(states: seq<Tiers>, actions: seq<Action>, n: nat, c: Conn, oldNick: string, newNick: string)
    requires Run(states, actions) && n < |states| && Enabled(states[n], Consume(c)) && c in states[n].heard
    requires states[n].followed[c] == states[n].heard[c]
    requires ParseBackendLine(states[n].queues[c][0].line) == Nick(oldNick, newNick)
    ensures var s' := Do(states[n], Consume(c));
            s'.followed[c] == s'.heard[c] <==>
            states[n].queues[c][0].renamed == Some(c) || oldNick != states[n].heard[c] || oldNick == newNick
  {
    RunsKeepTiersOk(states, actions, n);
    assert ConnOk(states[n], c);
    assert FrameFits(states[n].heard[c], states[n].queues[c][0], c);
  }

  /** In a clear run `oldNick === session.nickname` picks out the renamed session, and no other but for a rename that
      changes nothing. */
  lemma RenamerIsIdentified(states: seq<Tiers>, actions: seq<Action>, n: nat, c: Conn, oldNick: string, newNick: string)
    requires ClearRun(states, actions) && n < |states| && Enabled(states[n], Consume(c))
    requires ParseBackendLine(states[n].queues[c][0].line) == Nick(oldNick, newNick)
    ensures states[n].queues[c][0].renamed == Some(c) ==> oldNick == states[n].followed[c]
    ensures oldNick == states[n].followed[c] && oldNick != newNick ==> states[n].queues[c][0].renamed == Some(c)
  {
    RunsKeepTiersOk(states, actions, n);
    ClearRunsStayOnTrack(states, actions, n);
    assert ConnOk(states[n], c) && OnTrack(states[n], c);
    assert FrameFits(states[n].heard[c], states[n].queues[c][0], c) && FrameOk(states[n].heard[c], states[n].queues[c][0]);
  }

  /** Over every clear run each session's name is its name on the server as of the frames it has consumed, and a session
      that has caught up has the current one. */
  lemma SessionsFollowTheServer(states: seq<Tiers>, actions: seq<Action>, n: nat, c: Conn)
    requires ClearRun(states, actions) && n < |states| && c in states[n].queues
    ensures var s := states[n];
            && c in s.followed && c in s.heard && s.followed[c] == s.heard[c]
            && (s.queues[c] != [] ==> FollowLine(s.followed[c], s.queues[c][0].line) == s.queues[c][0].ownName)
            && (s.queues[c] == [] && c in s.table && c !in s.broken && !OwnPending(s, c) ==>
                  s.followed[c] == s.table[c].nickname)
  {
    ClearRunsStayOnTrack(states, actions, n);
    RunsKeepTiersOk(states, actions, n);
    assert OnTrack(states[n], c) && ConnOk(states[n], c);
  }

  /** Two live sessions that have caught up never believe in one name. */
  lemma CaughtUpSessionsDiffer(states: seq<Tiers>, actions: seq<Action>, n: nat, c: Conn, d: Conn)
    requires ClearRun(states, actions) && n < |states| && c != d && CaughtUp(states[n], c) && CaughtUp(states[n], d)
    ensures c in states[n].followed && d in states[n].followed && states[n].followed[c] != states[n].followed[d]
  {
    RunsKeepTiersOk(states, actions, n);
    SessionsFollowTheServer(states, actions, n, c);
    SessionsFollowTheServer(states, actions, n, d);
  }

  predicate CaughtUp(s: Tiers, c: Conn) {
    c in s.table && c in s.queues && s.queues[c] == [] && c !in s.broken && !OwnPending(s, c)
  }

  // A run in which frames overtake each other.

  lemma Reach(states: seq<Tiers>, actions: seq<Action>, a: Action) returns (more: seq<Tiers>, done: seq<Action>)
    requires Run(states, actions) && Enabled(states[|states| - 1], a)
    ensures Run(more, done) && more == states + [Do(states[|states| - 1], a)] && done == actions + [a]
  {
    more, done := states + [Do(states[|states| - 1], a)], actions + [a];
    forall i | 0 <= i < |done| ensures Enabled(more[i], done[i]) && more[i + 1] == Do(more[i], done[i]) {
      if i < |actions| { assert more[i] == states[i] && more[i + 1] == states[i + 1] && done[i] == actions[i]; }
    }
  }

  function Hello(name: string): Frame { Frame(WelcomeLine(name), None, name) }

  function Clients(first: string, second: string): Table {
    map[1 := ClientRecord(first, true), 2 := ClientRecord(second, true)]
  }

  /** Two clients are in, and nothing but their WELCOMEs is queued. */
  function TwoClients(u: string, v: string): Tiers {
    Tiers(Clients(u, v), map[], map[1 := [Hello(u)], 2 := [Hello(v)]], {}, map[1 := u, 2 := v], map[1 := "", 2 := ""], map[1 := "", 2 := ""])
  }

  lemma DefaultNamesDiffer()
    ensures DefaultName(1) != DefaultName(2)
  {
    assert DefaultName(1)[4..] == Decimal(1) && DefaultName(2)[4..] == Decimal(2);
    assert Decimal(1)[0] != Decimal(2)[0];
  }

  lemma TwoClientsJoin() returns (states: seq<Tiers>, actions: seq<Action>)
    ensures Run(states, actions) && |actions| == 4 && states[4] == TwoClients(DefaultName(1), DefaultName(2))
  {
    var u, v := DefaultName(1), DefaultName(2);
    states, actions := [Start()], [];
    DefaultNamesDiffer();
    states, actions := Reach(states, actions, Accept(1, 1));
    states, actions := Reach(states, actions, MarkWelcomed(1));
    assert states[2].table == map[1 := ClientRecord(u, true)];
    assert NicknameUsed(states[2].table, u);
    states, actions := Reach(states, actions, Accept(2, 2));
    states, actions := Reach(states, actions, MarkWelcomed(2));
    assert states[4] == TwoClients(u, v);
  }

  /** The first has given up its name, the second has taken it, and neither has announced anything. */
  function BothRenamed(u: string, v: string, x: string): Tiers {
    TwoClients(u, v).(table := Clients(x, u), announcing := map[1 := Announcement(u, x, None), 2 := Announcement(v, u, None)])
  }

  function FirstRenamed(u: string, v: string, x: string): Tiers {
    TwoClients(u, v).(table := Clients(x, v), announcing := map[1 := Announcement(u, x, None)])
  }

  lemma FirstRenames(u: string, v: string, x: string)
    requires ValidNickname(x) && x != v
    ensures Enabled(TwoClients(u, v), Commit(1, x)) && Do(TwoClients(u, v), Commit(1, x)) == FirstRenamed(u, v, x)
  {
    NickFidelity(x);
    assert !UsedByOther(Clients(u, v), 1, x);
    assert Clients(u, v)[1 := ClientRecord(x, true)] == Clients(x, v);
  }

  lemma SecondRenames(u: string, v: string, x: string)
    requires ValidNickname(u) && x != u
    ensures Enabled(FirstRenamed(u, v, x), Commit(2, u))
    ensures Do(FirstRenamed(u, v, x), Commit(2, u)) == BothRenamed(u, v, x)
  {
    NickFidelity(u);
    assert !UsedByOther(Clients(x, v), 2, u);
    assert Clients(x, v)[2 := ClientRecord(u, true)] == Clients(x, u);
    assert (map[1 := Announcement(u, x, None)])[2 := Announcement(v, u, None)]
        == map[1 := Announcement(u, x, None), 2 := Announcement(v, u, None)];
  }

  lemma BothRename(states: seq<Tiers>, actions: seq<Action>, u: string, v: string, x: string)
    returns (more: seq<Tiers>, done: seq<Action>)
    requires Run(states, actions) && |actions| == 4 && states[4] == TwoClients(u, v)
    requires ValidNickname(u) && ValidNickname(x) && u != v && x != u && x != v
    ensures Run(more, done) && done == actions + [Commit(1, x), Commit(2, u)] && more[6] == BothRenamed(u, v, x)
  {
    FirstRenames(u, v, x);
    SecondRenames(u, v, x);
    more, done := Reach(states, actions, Commit(1, x));
    more, done := Reach(more, done, Commit(2, u));
  }

  /** The second announces first: to its own session the first one's older rename comes after it. */
  function Overtaken(u: string, v: string, x: string): Tiers {
    BothRenamed(u, v, x).(
      announcing := map[1 := Announcement(u, x, Some({1})), 2 := Announcement(v, u, Some({1}))],
      queues := map[1 := [Hello(u)], 2 := [Hello(v), Frame(NickLine(v, u), Some(2), u), Frame(NickLine(u, x), Some(1), u)]],
      own := map[1 := u, 2 := u])
  }

  /** In between: the second has queued its frame for its own session. */
  function HalfWay(u: string, v: string, x: string, first: Option<set<Conn>>): Tiers {
    BothRenamed(u, v, x).(
      announcing := map[1 := Announcement(u, x, first), 2 := Announcement(v, u, Some({1}))],
      queues := map[1 := [Hello(u)], 2 := [Hello(v), Frame(NickLine(v, u), Some(2), u)]],
      own := map[1 := u, 2 := u])
  }

  lemma ToBoth(u: string, x: string)
    ensures Targets(Clients(x, u), None) == {1, 2}
  {
  }

  lemma Tells(s: Tiers, c: Conn, d: Conn, to: set<Conn>)
    requires c in s.announcing && s.announcing[c].targets == Some(to) && d in to && d in s.queues && d in s.own && d !in s.broken
    ensures Enabled(s, Enqueue(c, d))
    ensures Do(s, Enqueue(c, d)) == s.(
              queues := s.queues[d := s.queues[d] + [NickFrame(s, c, d)]], own := s.own[d := NickFrame(s, c, d).ownName],
              announcing := s.announcing[c := s.announcing[c].(targets := Some(to - {d}))])
  {
  }

  lemma SecondTellsItself(u: string, v: string, x: string)
    ensures var s := BothRenamed(u, v, x);
            && Enabled(s, TakeSnapshot(2)) && Enabled(Do(s, TakeSnapshot(2)), Enqueue(2, 2))
            && Do(Do(s, TakeSnapshot(2)), Enqueue(2, 2)) == HalfWay(u, v, x, None)
  {
    ToBoth(u, x);
    var s1 := Do(BothRenamed(u, v, x), TakeSnapshot(2));
    assert s1.announcing == map[1 := Announcement(u, x, None), 2 := Announcement(v, u, Some({1, 2}))];
    Tells(s1, 2, 2, {1, 2});
    assert {1, 2} - {2} == {1};
    var f := Frame(NickLine(v, u), Some(2), u);
    assert [Hello(v)] + [f] == [Hello(v), f];
    assert (map[1 := [Hello(u)], 2 := [Hello(v)]])[2 := [Hello(v), f]] == map[1 := [Hello(u)], 2 := [Hello(v), f]];
  }

  lemma FirstSnapshot(u: string, v: string, x: string)
    ensures Enabled(HalfWay(u, v, x, None), TakeSnapshot(1))
    ensures Do(HalfWay(u, v, x, None), TakeSnapshot(1)) == HalfWay(u, v, x, Some({1, 2}))
  {
    ToBoth(u, x);
  }

  lemma FirstTellsSecond(u: string, v: string, x: string)
    ensures Enabled(HalfWay(u, v, x, Some({1, 2})), Enqueue(1, 2))
    ensures Do(HalfWay(u, v, x, Some({1, 2})), Enqueue(1, 2)) == Overtaken(u, v, x)
  {
    var s := HalfWay(u, v, x, Some({1, 2}));
    Tells(s, 1, 2, {1, 2});
    assert NickFrame(s, 1, 2) == Frame(NickLine(u, x), Some(1), u);
    QueueOfTwo(Hello(u), Hello(v), Frame(NickLine(v, u), Some(2), u), Frame(NickLine(u, x), Some(1), u));
    NoLongerToTwo(Announcement(u, x, Some({1, 2})), Announcement(v, u, Some({1})));
  }

  lemma QueueOfTwo(a: Frame, b: Frame, f: Frame, g: Frame)
    ensures (map[1 := [a], 2 := [b, f]])[2 := [b, f] + [g]] == map[1 := [a], 2 := [b, f, g]]
  {
    assert [b, f] + [g] == [b, f, g];
  }

  lemma NoLongerToTwo(first: Announcement, second: Announcement)
    requires first.targets == Some({1, 2})
    ensures (map[1 := first, 2 := second])[1 := first.(targets := Some({1, 2} - {2}))]
         == map[1 := first.(targets := Some({1})), 2 := second]
  {
    assert {1, 2} - {2} == {1};
  }

  lemma SecondAnnouncesFirst(states: seq<Tiers>, actions: seq<Action>, u: string, v: string, x: string)
    returns (more: seq<Tiers>, done: seq<Action>)
    requires Run(states, actions) && |actions| == 6 && states[6] == BothRenamed(u, v, x)
    ensures Run(more, done) && |done| == 10 && done[..6] == actions && more[10] == Overtaken(u, v, x)
  {
    SecondTellsItself(u, v, x);
    more, done := ReachTwo(states, actions, TakeSnapshot(2), Enqueue(2, 2));
    FirstSnapshot(u, v, x);
    FirstTellsSecond(u, v, x);
    more, done := ReachTwo(more, done, TakeSnapshot(1), Enqueue(1, 2));
  }

  lemma ReachTwo(states: seq<Tiers>, actions: seq<Action>, a: Action, b: Action) returns (more: seq<Tiers>, done: seq<Action>)
    requires Run(states, actions) && Enabled(states[|actions|], a) && Enabled(Do(states[|actions|], a), b)
    ensures Run(more, done) && |done| == |actions| + 2 && done[..|actions|] == actions
    ensures more[|done|] == Do(Do(states[|actions|], a), b)
  {
    more, done := Reach(states, actions, a);
    more, done := Reach(more, done, b);
  }

  lemma ConsumeOne(states: seq<Tiers>, actions: seq<Action>, c: Conn, name: string)
    returns (more: seq<Tiers>, done: seq<Action>)
    requires Run(states, actions)
    requires c in states[|actions|].queues && states[|actions|].queues[c] != [] && c in states[|actions|].followed
    requires FollowLine(states[|actions|].followed[c], states[|actions|].queues[c][0].line) == name
    ensures Run(more, done) && |done| == |actions| + 1 && done[..|actions|] == actions && more[..|states|] == states
    ensures var s, s' := states[|actions|], more[|done|];
            && s'.queues == s.queues[c := s.queues[c][1..]] && s'.followed == s.followed[c := name]
            && s'.table == s.table && s'.announcing == s.announcing && s'.broken == s.broken
  {
    more, done := Reach(states, actions, Consume(c));
  }

  lemma SecondConsumes(states: seq<Tiers>, actions: seq<Action>, u: string, v: string, x: string)
    returns (more: seq<Tiers>, done: seq<Action>)
    requires Run(states, actions) && |actions| == 10 && states[10] == Overtaken(u, v, x) && SpaceFree(u) && SpaceFree(v)
    ensures Run(more, done) && |done| == 13 && done[..10] == actions && more[..11] == states
    ensures CaughtUp(more[13], 2) && more[13].table == Clients(x, u) && 2 in more[13].followed && more[13].followed[2] == x
  {
    var q := states[10].queues[2];
    WelcomeParses(v);
    NickFrameExactly(v, u, v);
    NickFrameExactly(u, x, u);
    more, done := ConsumeOne(states, actions, 2, v);
    more, done := ConsumeOne(more, done, 2, u);
    more, done := ConsumeOne(more, done, 2, x);
    assert more[13].queues[2] == [];
  }

  /** Two clients `User1` and `User2`; the first renames itself to x, the second then takes `User1`. There is a run in which
      the two NICK frames reach the second session in the other order, so that it ends up, with nothing left to consume,
      believing in the first one's name. */
  lemma ReversedFramesMislead(x: string) returns (states: seq<Tiers>, actions: seq<Action>)
    requires ValidNickname(x) && x != DefaultName(1) && x != DefaultName(2)
    ensures var u, v := DefaultName(1), DefaultName(2);
            && Run(states, actions) && |actions| == 13
            && actions[4] == Commit(1, x) && actions[5] == Commit(2, u)
            && states[10] == Overtaken(u, v, x)
            && CaughtUp(states[13], 2) && states[13].table == Clients(x, u)
            && 2 in states[13].followed && states[13].followed[2] == x
  {
    var u, v := DefaultName(1), DefaultName(2);
    DefaultNamesDiffer();
    NamesAreValid();
    ValidNicknameIsSpaceFree(u);
    ValidNicknameIsSpaceFree(v);
    states, actions := TwoClientsJoin();
    states, actions := BothRename(states, actions, u, v, x);
    var renamed := actions;
    states, actions := SecondAnnouncesFirst(states, actions, u, v, x);
    states, actions := SecondConsumes(states, actions, u, v, x);
    assert states[10] == states[..11][10] && actions[..10][..6] == renamed;
    assert actions[4] == renamed[4] && actions[5] == renamed[5];
  }

  lemma NamesAreValid()
    ensures ValidNickname(DefaultName(1)) && ValidNickname(DefaultName(2))
  {
    DecimalLength(1, 1, 10);
    DecimalLength(2, 1, 10);
  }

  // A condition that the server can test before it hands a name out.

  /** No handler but `c`'s is still announcing that it gives this name up. */
  predicate Vacant(s: Tiers, c: Conn, name: string) {
    forall d :: d in s.announcing && d != c ==> s.announcing[d].oldNick != name || s.announcing[d].newNick == name
  }

  /** A rename, and the default name of a newcomer, takes a vacant name only. */
  predicate VacantAction(s: Tiers, a: Action) {
    match a
    case Accept(c, n) => Vacant(s, c, DefaultName(n))
    case Commit(c, args) => ParseNickArgs(args).NickAccepted? ==> Vacant(s, c, ParseNickArgs(args).nickname)
    case _ => true
  }

  ghost predicate VacantRun(states: seq<Tiers>, actions: seq<Action>) {
    Run(states, actions) && forall i {:trigger actions[i]} :: 0 <= i < |actions| ==> VacantAction(states[i], actions[i])
  }

  /** `d` is still to hear of the rename of `c`. */
  predicate Awaits(s: Tiers, c: Conn, d: Conn)
    requires c in s.announcing
  {
    if s.announcing[c].targets.None? then d in s.table else d in s.announcing[c].targets.value
  }

  /** A name that is being given up is nobody else's, and nobody who is still to hear of it believes in it. */
  ghost predicate GivenUp(s: Tiers, c: Conn) {
    && c in s.announcing
    && (s.announcing[c].oldNick != s.announcing[c].newNick ==>
          forall d :: d in s.table && d != c ==> s.table[d].nickname != s.announcing[c].oldNick)
    && forall d :: d in s.own && Awaits(s, c, d) ==> Clear(s, c, d)
  }

  ghost predicate AllGivenUp(s: Tiers) { forall c :: c in s.announcing ==> GivenUp(s, c) }

  lemma CommitGivenUp(s: Tiers, c: Conn, newNick: string)
    requires TiersOk(s) && AllGivenUp(s) && c in s.table && c !in s.announcing && Vacant(s, c, newNick)
    ensures AllGivenUp(Committed(s, c, newNick))
  {
    var s' := Committed(s, c, newNick);
    var old1 := s.table[c].nickname;
    forall e | e in s'.announcing ensures GivenUp(s', e) {
      if e != c { assert GivenUp(s, e) && AnnouncementOk(s, e); }
      else {
        forall d | d in s'.own && Awaits(s', c, d) ensures Clear(s', c, d) {
          assert ConnOk(s, d);
          if d != c && OwnPending(s, d) { assert GivenUp(s, d) && AnnouncementOk(s, d); }
        }
      }
    }
  }

  lemma EnqueueGivenUp(s: Tiers, c: Conn, d: Conn)
    requires TiersOk(s) && AllGivenUp(s) && Enabled(s, Enqueue(c, d))
    ensures AllGivenUp(Do(s, Enqueue(c, d))) && Clear(s, c, d)
  {
    var s' := Do(s, Enqueue(c, d));
    assert GivenUp(s, c);
    assert Awaits(s, c, d);
    forall e | e in s'.announcing ensures GivenUp(s', e) { GivenUpAfter(s, c, d, e); }
  }

  /** Only the renamed client's own frame changes its own name. */
  lemma OwnAfter(s: Tiers, c: Conn, d: Conn)
    requires Enabled(s, Enqueue(c, d))
    ensures var s' := Do(s, Enqueue(c, d));
            && s'.table == s.table && s'.broken == s.broken && s'.own.Keys == s.own.Keys
            && (forall x :: x in s.own && (x != d || c != d) ==> s'.own[x] == s.own[x])
            && (c == d && c !in s.broken ==> s'.own[c] == s.announcing[c].newNick)
            && s'.announcing.Keys == s.announcing.Keys
            && (forall e :: e in s.announcing ==>
                  && s'.announcing[e].oldNick == s.announcing[e].oldNick && s'.announcing[e].newNick == s.announcing[e].newNick
                  && (s'.announcing[e].targets.None? <==> s.announcing[e].targets.None?)
                  && (s.announcing[e].targets.Some? ==> s'.announcing[e].targets.value <= s.announcing[e].targets.value))
  {
  }

  lemma GivenUpAfter(s: Tiers, c: Conn, d: Conn, e: Conn)
    requires TiersOk(s) && AllGivenUp(s) && Enabled(s, Enqueue(c, d)) && e in s.announcing
    ensures GivenUp(Do(s, Enqueue(c, d)), e)
  {
    OwnAfter(s, c, d);
    assert GivenUp(s, e) && AnnouncementOk(s, c);
    StaysGivenUp(s, Do(s, Enqueue(c, d)), c, d, e);
  }

  lemma StaysGivenUp(s: Tiers, s': Tiers, c: Conn, d: Conn, e: Conn)
    requires GivenUp(s, e) && AnnouncementOk(s, c) && e in s'.announcing
    requires s'.table == s.table && s'.broken == s.broken && s'.own.Keys == s.own.Keys
    requires forall x :: x in s.own && (x != d || c != d) ==> s'.own[x] == s.own[x]
    requires c == d && c in s.own && c !in s.broken ==> s'.own[c] == s.announcing[c].newNick
    requires s'.announcing[e].oldNick == s.announcing[e].oldNick && s'.announcing[e].newNick == s.announcing[e].newNick
    requires s'.announcing[e].targets.None? <==> s.announcing[e].targets.None?
    requires s.announcing[e].targets.Some? ==> s'.announcing[e].targets.value <= s.announcing[e].targets.value
    ensures GivenUp(s', e)
  {
    forall x | x in s'.own && Awaits(s', e, x) ensures Clear(s', e, x) {
      assert Awaits(s, e, x) && Clear(s, e, x);
    }
  }

  lemma AcceptGivenUp(s: Tiers, c: Conn, n: nat)
    requires TiersOk(s) && AllGivenUp(s) && Enabled(s, Accept(c, n)) && Vacant(s, c, DefaultName(n))
    ensures AllGivenUp(Do(s, Accept(c, n)))
  {
    var s' := Do(s, Accept(c, n));
    forall e | e in s'.announcing ensures GivenUp(s', e) {
      assert GivenUp(s, e) && AnnouncementOk(s, e);
      forall x | x in s'.own && Awaits(s', e, x) ensures Clear(s', e, x) {
        if x != c { assert Awaits(s, e, x) && Clear(s, e, x); }
      }
    }
  }

  lemma GivenUpStep(s: Tiers, a: Action)
    requires TiersOk(s) && AllGivenUp(s) && Enabled(s, a) && VacantAction(s, a)
    ensures AllGivenUp(Do(s, a)) && ClearAction(s, a)
  {
    var s' := Do(s, a);
    if a.Accept? { AcceptGivenUp(s, a.conn, a.n); }
    else if a.Commit? { if s' != s { CommitGivenUp(s, a.conn, ParseNickArgs(a.args).nickname); } }
    else if a.Enqueue? { EnqueueGivenUp(s, a.conn, a.target); }
    else { PlainGivenUp(s, a); }
  }

  lemma PlainGivenUp(s: Tiers, a: Action)
    requires AllGivenUp(s) && Enabled(s, a) && Plain(a)
    ensures AllGivenUp(Do(s, a))
  {
    GivesUpLessAt(s, a);
    LessGivenUp(s, Do(s, a));
  }

  predicate Plain(a: Action) {
    a.MarkWelcomed? || a.TakeSnapshot? || a.Finish? || a.OtherLine? || a.Break? || a.Leave? || a.Consume?
  }

  lemma GivesUpLessAt(s: Tiers, a: Action)
    requires Enabled(s, a) && Plain(a)
    ensures GivesUpLess(s, Do(s, a))
  {
    if a.TakeSnapshot? { SnapshotGivesUpLess(s, a.conn); }
    else if a.MarkWelcomed? || a.Leave? { TableGivesUpLess(s, a); }
    else if a.Consume? { ConsumeGivesUpLess(s, a.conn); }
  }

  lemma SnapshotGivesUpLess(s: Tiers, c: Conn)
    requires Enabled(s, TakeSnapshot(c))
    ensures GivesUpLess(s, Do(s, TakeSnapshot(c)))
  {
  }

  lemma TableGivesUpLess(s: Tiers, a: Action)
    requires Enabled(s, a) && (a.MarkWelcomed? || a.Leave?)
    ensures GivesUpLess(s, Do(s, a))
  {
  }

  lemma ConsumeGivesUpLess(s: Tiers, c: Conn)
    requires Enabled(s, Consume(c))
    ensures GivesUpLess(s, Do(s, Consume(c)))
  {
  }

  /** Nothing is announced, awaited or believed in s' that was not in s. */
  ghost predicate GivesUpLess(s: Tiers, s': Tiers) {
    && s.broken <= s'.broken
    && (forall d :: d in s'.table ==> d in s.table && s'.table[d].nickname == s.table[d].nickname)
    && (forall d :: d in s'.own ==> d in s.own && s'.own[d] == s.own[d])
    && (forall e :: e in s'.announcing ==>
          (e in s.announcing && s'.announcing[e].oldNick == s.announcing[e].oldNick && s'.announcing[e].newNick == s.announcing[e].newNick))
    && (forall e, d :: e in s'.announcing && Awaits(s', e, d) ==> Awaits(s, e, d))
  }

  lemma LessGivenUp(s: Tiers, s': Tiers)
    requires AllGivenUp(s) && GivesUpLess(s, s')
    ensures AllGivenUp(s')
  {
    forall e | e in s'.announcing ensures GivenUp(s', e) {
      assert GivenUp(s, e);
      forall x | x in s'.own && Awaits(s', e, x) ensures Clear(s', e, x) { assert Awaits(s, e, x) && Clear(s, e, x); }
    }
  }

  lemma {:induction false} VacantRunsKeepGivenUp(states: seq<Tiers>, actions: seq<Action>, n: nat)
    requires VacantRun(states, actions) && n < |states|
    ensures AllGivenUp(states[n])
  {
    if n > 0 {
      VacantRunsKeepGivenUp(states, actions, n - 1);
      RunsKeepTiersOk(states, actions, n - 1);
      GivenUpStep(states[n - 1], actions[n - 1]);
    }
  }

  /** If the server hands out a name only once nobody is still announcing that it gives it up, every frame is clear: then
      every session follows the server. */
  lemma VacantNamesSuffice(states: seq<Tiers>, actions: seq<Action>)
    requires VacantRun(states, actions)
    ensures ClearRun(states, actions)
  {
    forall i | 0 <= i < |actions| ensures ClearAction(states[i], actions[i]) {
      VacantRunsKeepGivenUp(states, actions, i);
      RunsKeepTiersOk(states, actions, i);
      GivenUpStep(states[i], actions[i]);
    }
  }

  /** `Follow` is what the gateway's event handler does to the session's nickname. */
  lemma GatewayFollows(g: G.Gateway, s: G.Sock, e: BackendEvent)
    requires GI.RunOk(g) && G.Enabled(g, G.BackendSays(s, e))
    ensures s in G.OnBackendEvent(g, s, e).sessions
    ensures G.OnBackendEvent(g, s, e).sessions[s].nickname == Follow(g.sessions[s].nickname, e)
  {
    var x := g.sessions[s];
    assert GS.IdOk(x) && GI.QueueOk(x);
    if e.Welcome? { GatewayFollowsWelcome(g, s, e.nickname); }
    else if e.Nick? { GatewayFollowsNick(g, s, e.oldNick, e.newNick); }
    else if e.Err? { GatewayIgnoresErr(g, s, e.code, e.text); }
    else {
      GF.QuietEvent(g, s, e);
      assert GF.QuietSession(x, G.OnBackendEvent(g, s, e).sessions[s]);
    }
  }

  lemma GatewayIgnoresErr(g: G.Gateway, s: G.Sock, code: string, text: string)
    requires s in g.sessions
    ensures s in G.OnErr(g, s, code, text).sessions && G.OnErr(g, s, code, text).sessions[s].nickname == g.sessions[s].nickname
  {
  }

  lemma AnnouncingKeepsName(g: G.Gateway, s: G.Sock, y: G.Session)
    requires GI.RunOk(g) && s in g.sessions && y.ws == g.sessions[s].ws && GS.IdOk(y) && GI.QueueOk(y)
    requires y.authenticated && y.welcomed && !y.readyAnnounced
    ensures var g' := G.AnnounceReady(G.With(g, s, y), s);
            s in g'.sessions && g'.sessions[s].nickname == y.nickname
  {
    GI.RunOkWith(g, s, y);
    GI.AnnounceReadyDrains(G.With(g, s, y), s);
    GI.CoreKeepsSession(GI.Drained(y), G.AnnounceReady(G.With(g, s, y), s).sessions[s]);
  }

  lemma GatewayFollowsWelcome(g: G.Gateway, s: G.Sock, nickname: string)
    requires GI.RunOk(g) && G.HasBackend(g, s, G.BackendOpen) && !g.sessions[s].welcomed
    ensures s in G.OnWelcome(g, s, nickname).sessions && G.OnWelcome(g, s, nickname).sessions[s].nickname == nickname
  {
    var x := g.sessions[s];
    var y := x.(welcomed := true, nickname := nickname);
    assert GS.IdOk(x) && GI.QueueOk(x);
    if G.Claim(y).None? { AnnouncingKeepsName(g, s, y); }
  }

  lemma GatewayFollowsNick(g: G.Gateway, s: G.Sock, oldNick: string, newNick: string)
    requires GI.RunOk(g) && G.HasBackend(g, s, G.BackendOpen) && g.sessions[s].welcomed
    ensures var g' := G.OnNick(g, s, oldNick, newNick);
            s in g'.sessions && g'.sessions[s].nickname == if oldNick == g.sessions[s].nickname then newNick else g.sessions[s].nickname
  {
    var x := g.sessions[s];
    assert GS.IdOk(x) && GI.QueueOk(x);
    if oldNick == x.nickname {
      var y := G.Renamed(x, newNick);
      if x.readyAnnounced {
        var marked := G.With(g, s, y);
        GI.BroadcastKeepsCore(marked, P.UserUpdate(G.SummaryOf(y)), None);
        GI.CoreKeepsSession(y, G.Broadcast(marked, P.UserUpdate(G.SummaryOf(y)), None).sessions[s]);
      } else {
        AnnouncingKeepsName(g, s, y);
      }
    }
  }
}
