/** From a handler's decision to the bytes of every connection: what becomes of each write of a broadcast or a private
    message, over whole runs. */
module ServerDelivery {
  import opened Text
  import opened BackendLines
  import opened ClientTable
  import opened ServerMachine
  import opened ServerRecords
  import opened ServerInvariant
  import opened ServerTheorems
  import opened ServerShutdown
  import opened ServerRelay

  /** Thread `t` has made the first m of its writes of `p`, is inside the next one or before it, and then has `rest`. */
  predicate Writing(outs: seq<Send>, order: seq<Conn>, p: string, rest: seq<Send>, m: nat, inside: bool) {
    && m <= |order| && (inside ==> m < |order|)
    && outs == (if inside then [Send.Writing(order[m], p)] + Writes(order[m + 1..], p) else Writes(order[m..], p)) + rest
  }

  ghost predicate OutsOf(s: State, t: ThreadId, outs: seq<Send>) { t in s.pc && s.pc[t].outs == outs }

  /** How often thread `t` finished writing `p` on connection `d` between two states of a run. */
  ghost function Deliveries(states: seq<State>, events: seq<ServerMachine.Event>, t: ThreadId, d: Conn, p: string, i: nat, j: nat): nat
    requires |states| == |events| + 1 && i <= j < |states|
    decreases j
  {
    if i == j then 0
    else
      Deliveries(states, events, t, d, p, i, j - 1) +
        if events[j - 1].thread == t && Delivers(states[j - 1], states[j], d, p) then 1 else 0
  }

  predicate Delivers(s: State, s': State, d: Conn, p: string) {
    d in s.links && d in s'.links && s'.links[d].done == s.links[d].done + [p]
  }

  /** What may become of a write. */
  ghost predicate Fate(cfg: Config, s: State, d: Conn, p: string, made: bool, count: nat) {
    if made then count == 1 || (count == 0 && (IsBroken(s, d) || |p| > cfg.maxMessage)) else count == 0
  }

  lemma WritesHead(order: seq<Conn>, p: string, m: nat)
    requires m < |order|
    ensures Writes(order[m..], p) == [Write(order[m], p)] + Writes(order[m + 1..], p)
  {
    assert order[m..] == [order[m]] + order[m + 1..];
  }

  // A thread's sends are its own.

  lemma SendLeavesOuts(cfg: Config, s: State, u: ThreadId, ch: Choice, t: ThreadId)
    requires ConfigOk(cfg) && u in s.pc && s.pc[u].outs != [] && SendEnabled(cfg, s, s.pc[u].outs[0], ch) && t in s.pc && t != u
    ensures t in SendStep(cfg, s, u, ch).pc && SendStep(cfg, s, u, ch).pc[t] == s.pc[t]
  {
    if s.pc[u].outs[0].Writing? { assert SendStep(cfg, s, u, ch) == WriteCall(cfg, s, u, s.pc[u].outs[0].target, s.pc[u].outs[0].payload, ch); }
  }

  lemma HandlerLeavesOuts(cfg: Config, s: State, c: Conn, ch: Choice, t: ThreadId)
    requires Handler(c) in s.pc && s.pc[Handler(c)].outs == [] && HandlerPoint(s.pc[Handler(c)].at)
    requires PointEnabled(cfg, s, Handler(c), s.pc[Handler(c)].at, ch) && t in s.pc && t != Handler(c)
    ensures t in HandlerStep(cfg, s, c, ch).pc && HandlerStep(cfg, s, c, ch).pc[t] == s.pc[t]
  {
  }

  /** Main's steps that start no handler. */
  lemma MainLeavesOuts(cfg: Config, s: State, ch: Choice, t: ThreadId)
    requires Main in s.pc && s.pc[Main].outs == [] && Placed(s, Main) && t in s.pc && t != Main && !s.pc[Main].at.Spawn?
    requires PointEnabled(cfg, s, Main, s.pc[Main].at, ch)
    ensures t in MainStep(cfg, s, ch).pc && MainStep(cfg, s, ch).pc[t] == s.pc[t]
  {
    var at := s.pc[Main].at;
    if at.Admit? { assert MainStep(cfg, s, ch) == AdmitStep(cfg, s, at.conn, ch); }
    else if at.MarkWelcomed? { assert MainStep(cfg, s, ch) == Welcomed(s, at.conn, at.name); }
    else if at.ReapAt? { assert MainStep(cfg, s, ch) == ReapLook(s, at.index, at.next); }
    else if at.ShutdownFds? { assert MainStep(cfg, s, ch) == ShutdownNext(s, at.fds); }
    else if at.JoinAll? { assert MainStep(cfg, s, ch) == JoinNext(s, at.left); }
  }

  lemma SpawnLeavesOuts(s: State, c: Conn, main: Thread, t: ThreadId)
    requires t in s.pc && t != Main && Handler(c) !in s.pc
    ensures t in Spawned(s, c, main).pc && Spawned(s, c, main).pc[t] == s.pc[t]
  {
  }

  lemma OthersLeaveOuts(cfg: Config, s: State, u: ThreadId, ch: Choice, s': State, t: ThreadId)
    requires Records(s) && Step(cfg, s, u, ch, s') && t in s.pc && t != u
    ensures t in s'.pc && s'.pc[t] == s.pc[t]
  {
    if WaitsForClients(s, u) {
    } else if s.pc[u].outs != [] {
      SendLeavesOuts(cfg, s, u, ch, t);
    } else if u.Handler? {
      HandlerLeavesOuts(cfg, s, u.conn, ch, t);
    } else if s.pc[Main].at.Spawn? {
      assert Admitting(s.pc[Main].at) == Some(s.pc[Main].at.conn);
      SpawnLeavesOuts(s, s.pc[Main].at.conn, s'.pc[Main], t);
    } else {
      MainLeavesOuts(cfg, s, ch, t);
    }
  }

  // One step of a writing thread.

  /** What one step of `t` does to its write of `p` on `d`. */
  ghost predicate WriteMoves(cfg: Config, s: State, s': State, d: Conn, p: string, returned: bool) {
    && d in s.links && d in s'.links
    && if returned then Delivers(s, s', d, p) || (s'.links[d].done == s.links[d].done && (IsBroken(s', d) || |p| > cfg.maxMessage))
       else s'.links[d].done == s.links[d].done
  }

  /** A send_frame begins, goes on, or returns: it delivers its payload, or its link is broken or the payload too large. */
  lemma OneWrite(cfg: Config, s: State, t: ThreadId, ch: Choice, d: Conn, p: string, more: seq<Send>) returns (inside: bool)
    requires ConfigOk(cfg) && OutsOf(s, t, [Send.Writing(d, p)] + more) && SendEnabled(cfg, s, Send.Writing(d, p), ch)
    ensures var s' := SendStep(cfg, s, t, ch);
            && OutsOf(s', t, if inside then [Send.Writing(d, p)] + more else more) && WriteMoves(cfg, s, s', d, p, !inside)
            && (forall e :: e in s.links && e != d ==> e in s'.links && s'.links[e].done == s.links[e].done)
  {
    var (link, returned) := WriteStep(cfg, s.links[d], p, ch);
    inside := !returned;
    assert ([Send.Writing(d, p)] + more)[1..] == more;
    assert SendStep(cfg, s, t, ch) == AfterCall(s, t, d, link, returned);
  }

  lemma BeginsWrite(cfg: Config, s: State, t: ThreadId, ch: Choice, d: Conn, p: string, more: seq<Send>)
    requires ConfigOk(cfg) && OutsOf(s, t, [Write(d, p)] + more) && SendEnabled(cfg, s, Write(d, p), ch)
    ensures var s' := SendStep(cfg, s, t, ch);
            && OutsOf(s', t, [Send.Writing(d, p)] + more)
            && (forall e :: e in s.links ==> e in s'.links && s'.links[e].done == s.links[e].done)
  {
    assert ([Write(d, p)] + more)[1..] == more;
  }

  /** The writing thread's own step, for the write it is at and for every other connection. */
  lemma WriterSteps(cfg: Config, s: State, t: ThreadId, ch: Choice, s': State,
                    order: seq<Conn>, p: string, rest: seq<Send>, m: nat, inside: bool) returns (m': nat, inside': bool)
    requires Step(cfg, s, t, ch, s') && m < |order| && t in s.pc && Writing(s.pc[t].outs, order, p, rest, m, inside)
    ensures t in s'.pc && Writing(s'.pc[t].outs, order, p, rest, m', inside')
    ensures m' == m || m' == m + 1
    ensures WriteMoves(cfg, s, s', order[m], p, m' == m + 1)
    ensures forall e :: e in s.links && e != order[m] ==> e in s'.links && s'.links[e].done == s.links[e].done
  {
    var d := order[m];
    WritesHead(order, p, m);
    var more := Writes(order[m + 1..], p) + rest;
    if inside {
      assert s.pc[t].outs == [Send.Writing(d, p)] + more;
      inside' := OneWrite(cfg, s, t, ch, d, p, more);
      m' := if inside' then m else m + 1;
      inside' := inside';
    } else {
      assert s.pc[t].outs == [Write(d, p)] + more;
      BeginsWrite(cfg, s, t, ch, d, p, more);
      m', inside' := m, true;
    }
  }

  // The whole broadcast.

  lemma FateKept(cfg: Config, s: State, s': State, d: Conn, p: string, made: bool, count: nat)
    requires Fate(cfg, s, d, p, made, count) && LinksGrow(s, s')
    ensures Fate(cfg, s', d, p, made, count)
  {
  }

  /** Where a thread that has begun to write `p` to `order` stands later, and what became of its write on each connection,
      as long as it has not come to the end. */
  lemma {:induction false} WritesInRun(cfg: Config, states: seq<State>, events: seq<ServerMachine.Event>, t: ThreadId,
                                       order: seq<Conn>, p: string, rest: seq<Send>, i: nat, j: nat, now: State, d: Conn)
    returns (m: nat, inside: bool)
    requires ConfigOk(cfg) && Run(cfg, states, events) && i <= j < |states| && now == states[j]
    requires NoDuplicates(order) && d in states[i].links && OutsOf(states[i], t, Writes(order, p) + rest)
    requires forall k :: i <= k < j ==> !OutsOf(states[k], t, rest)
    ensures t in now.pc && Writing(now.pc[t].outs, order, p, rest, m, inside) && d in now.links
    ensures Fate(cfg, now, d, p, d in order[..m], Deliveries(states, events, t, d, p, i, j))
    decreases j
  {
    if i == j {
      m, inside := 0, false;
      assert order[0..] == order;
    } else {
      var s, e := states[j - 1], events[j - 1];
      var before, within := WritesInRun(cfg, states, events, t, order, p, rest, i, j - 1, s, d);
      assert !OutsOf(s, t, rest);
      m, inside := NextInRun(cfg, states, events, t, order, p, rest, i, j, s, now, before, within, d);
    }
  }

  lemma NextInRun(cfg: Config, states: seq<State>, events: seq<ServerMachine.Event>, t: ThreadId,
                  order: seq<Conn>, p: string, rest: seq<Send>, i: nat, j: nat, s: State, now: State,
                  before: nat, within: bool, d: Conn)
    returns (m: nat, inside: bool)
    requires ConfigOk(cfg) && Run(cfg, states, events) && i < j < |states| && s == states[j - 1] && now == states[j]
    requires NoDuplicates(order) && d in s.links && t in s.pc && s.pc[t].outs != rest
    requires Writing(s.pc[t].outs, order, p, rest, before, within)
    requires Fate(cfg, s, d, p, d in order[..before], Deliveries(states, events, t, d, p, i, j - 1))
    ensures t in now.pc && Writing(now.pc[t].outs, order, p, rest, m, inside) && d in now.links
    ensures Fate(cfg, now, d, p, d in order[..m], Deliveries(states, events, t, d, p, i, j))
  {
    InvAlong(cfg, states, events, j - 1, s);
    StepOfRun(cfg, states, events, j - 1);
    m, inside := StepInRun(cfg, s, events[j - 1].thread, events[j - 1].choice, now, t, order, p, rest, before, within, d,
                           Deliveries(states, events, t, d, p, i, j - 1));
  }

  lemma StepInRun(cfg: Config, s: State, u: ThreadId, ch: Choice, s': State, t: ThreadId,
                  order: seq<Conn>, p: string, rest: seq<Send>, m: nat, inside: bool, d: Conn, count: nat)
    returns (m': nat, inside': bool)
    requires ConfigOk(cfg) && Inv(cfg, s) && Step(cfg, s, u, ch, s') && NoDuplicates(order) && d in s.links
    requires t in s.pc && s.pc[t].outs != rest && Writing(s.pc[t].outs, order, p, rest, m, inside)
    requires Fate(cfg, s, d, p, d in order[..m], count)
    ensures t in s'.pc && Writing(s'.pc[t].outs, order, p, rest, m', inside') && d in s'.links
    ensures Fate(cfg, s', d, p, d in order[..m'], count + if u == t && Delivers(s, s', d, p) then 1 else 0)
  {
    InvGrows(cfg, s, u, ch, s');
    FateKept(cfg, s, s', d, p, d in order[..m], count);
    if u != t {
      OthersLeaveOuts(cfg, s, u, ch, s', t);
      m', inside' := m, inside;
    } else {
      m', inside' := OwnStepInRun(cfg, s, t, ch, s', order, p, rest, m, inside, d, count);
    }
  }

  lemma OwnStepInRun(cfg: Config, s: State, t: ThreadId, ch: Choice, s': State,
                     order: seq<Conn>, p: string, rest: seq<Send>, m: nat, inside: bool, d: Conn, count: nat)
    returns (m': nat, inside': bool)
    requires Step(cfg, s, t, ch, s') && NoDuplicates(order) && d in s.links && d in s'.links
    requires t in s.pc && s.pc[t].outs != rest && Writing(s.pc[t].outs, order, p, rest, m, inside)
    requires Fate(cfg, s', d, p, d in order[..m], count)
    ensures t in s'.pc && Writing(s'.pc[t].outs, order, p, rest, m', inside')
    ensures Fate(cfg, s', d, p, d in order[..m'], count + if Delivers(s, s', d, p) then 1 else 0)
  {
    NotAtEnd(s.pc[t].outs, order, p, rest, m, inside);
    m', inside' := WriterSteps(cfg, s, t, ch, s', order, p, rest, m, inside);
    CountMoves(cfg, s, s', d, p, order, m, m', count);
  }

  lemma NotAtEnd(outs: seq<Send>, order: seq<Conn>, p: string, rest: seq<Send>, m: nat, inside: bool)
    requires Writing(outs, order, p, rest, m, inside) && outs != rest
    ensures m < |order|
  {
    assert order[|order|..] == [];
  }

  lemma CountMoves(cfg: Config, s: State, s': State, d: Conn, p: string, order: seq<Conn>, m: nat, m': nat, count: nat)
    requires m < |order| && (m' == m || m' == m + 1) && NoDuplicates(order) && d in s.links && d in s'.links
    requires WriteMoves(cfg, s, s', order[m], p, m' == m + 1)
    requires forall e :: e in s.links && e != order[m] ==> e in s'.links && s'.links[e].done == s.links[e].done
    requires Fate(cfg, s', d, p, d in order[..m], count)
    ensures Fate(cfg, s', d, p, d in order[..m'], count + if Delivers(s, s', d, p) then 1 else 0)
  {
    assert order[..m + 1] == order[..m] + [order[m]];
    assert order[m] !in order[..m];
  }

  lemma InvGrows(cfg: Config, s: State, t: ThreadId, ch: Choice, s': State)
    requires ConfigOk(cfg) && Inv(cfg, s) && Step(cfg, s, t, ch, s')
    ensures LinksGrow(s, s')
  {
    if WaitsForClients(s, t) {
    } else if s.pc[t].outs != [] {
      SendsGrow(cfg, s, t, ch);
    } else if t.Handler? {
      HandlerGrows(cfg, s, t.conn, ch);
    } else {
      MainGrows(cfg, s, ch);
    }
  }

  /** From the step that turns its first send into writes of `p` until the thread has made them all. */
  ghost predicate Sends(cfg: Config, states: seq<State>, events: seq<ServerMachine.Event>, t: ThreadId,
                        first: Send, rest: seq<Send>, h: nat, j: nat) {
    && ConfigOk(cfg) && Run(cfg, states, events) && h < j < |states| && events[h].thread == t
    && OutsOf(states[h], t, [first] + rest) && !WaitsForClients(states[h], t)
    && OutsOf(states[j], t, rest) && forall k :: h < k < j ==> !OutsOf(states[k], t, rest)
  }

  lemma AllMade(outs: seq<Send>, order: seq<Conn>, p: string, rest: seq<Send>, m: nat, inside: bool)
    requires Writing(outs, order, p, rest, m, inside) && outs == rest
    ensures m == |order|
  {
  }

  lemma WritesMade(cfg: Config, states: seq<State>, events: seq<ServerMachine.Event>, t: ThreadId,
                   order: seq<Conn>, p: string, rest: seq<Send>, i: nat, j: nat, d: Conn)
    requires ConfigOk(cfg) && Run(cfg, states, events) && i <= j < |states| && NoDuplicates(order) && d in states[i].links
    requires OutsOf(states[i], t, Writes(order, p) + rest) && OutsOf(states[j], t, rest)
    requires forall k :: i <= k < j ==> !OutsOf(states[k], t, rest)
    ensures d in states[j].links
    ensures Fate(cfg, states[j], d, p, d in order, Deliveries(states, events, t, d, p, i, j))
  {
    var m, inside := WritesInRun(cfg, states, events, t, order, p, rest, i, j, states[j], d);
    AllMade(states[j].pc[t].outs, order, p, rest, m, inside);
    assert order[..|order|] == order;
  }

  lemma LinkStays(cfg: Config, states: seq<State>, events: seq<ServerMachine.Event>, h: nat, d: Conn)
    requires ConfigOk(cfg) && Run(cfg, states, events) && h < |events| && d in states[h].links
    ensures d in states[h + 1].links
  {
    RunKeepsInv(cfg, states, events, h);
    InvGrows(cfg, states[h], events[h].thread, events[h].choice, states[h + 1]);
  }

  /** Over every run, when a broadcast is through, its payload has been written exactly once on each connection that was
      welcomed and not excluded at its snapshot, unless that connection is broken or the payload too large, and on no
      other. */
  lemma BroadcastArrives(cfg: Config, states: seq<State>, events: seq<ServerMachine.Event>, t: ThreadId,
                         p: string, exclude: Option<Conn>, rest: seq<Send>, h: nat, j: nat, d: Conn)
    requires Sends(cfg, states, events, t, Broadcast(p, exclude), rest, h, j) && d in states[h].links
    ensures d in states[j].links
    ensures Fate(cfg, states[j], d, p, d in Targets(states[h].clients, exclude),
                 Deliveries(states, events, t, d, p, h + 1, j))
  {
    var ch := events[h].choice;
    assert Step(cfg, states[h], t, ch, states[h + 1]);
    assert ([Broadcast(p, exclude)] + rest)[1..] == rest;
    LinkStays(cfg, states, events, h, d);
    WritesMade(cfg, states, events, t, ch.order, p, rest, h + 1, j, d);
  }

  /** A send to one client: exactly once, unless it has left, its connection is broken, or the payload is too large. */
  lemma SendArrives(cfg: Config, states: seq<State>, events: seq<ServerMachine.Event>, t: ThreadId,
                    target: Conn, p: string, rest: seq<Send>, h: nat, j: nat, d: Conn)
    requires Sends(cfg, states, events, t, SendTo(target, p), rest, h, j) && d in states[h].links
    ensures d in states[j].links
    ensures Fate(cfg, states[j], d, p, d == target && target in states[h].clients,
                 Deliveries(states, events, t, d, p, h + 1, j))
  {
    var order := if target in states[h].clients then [target] else [];
    assert Step(cfg, states[h], t, events[h].choice, states[h + 1]);
    assert ([SendTo(target, p)] + rest)[1..] == rest;
    assert Writes(order, p) == Lookup(states[h].clients, target, p);
    LinkStays(cfg, states, events, h, d);
    WritesMade(cfg, states, events, t, order, p, rest, h + 1, j, d);
  }

  // A chat line, and a private message, from scope to wire.

  /** Handler `c` runs its lock scope `at` in the step after state g. */
  ghost predicate RunsScope(cfg: Config, states: seq<State>, events: seq<ServerMachine.Event>, c: Conn, at: Point, g: nat) {
    && ConfigOk(cfg) && Run(cfg, states, events) && g < |events| && events[g].thread == Handler(c) && c in states[g].clients
    && Handler(c) in states[g].pc && states[g].pc[Handler(c)] == Thread([], at) && !WaitsForClients(states[g], Handler(c))
  }

  /** Over every run a handler's scope meets a table with valid and distinct names, and leaves the table and the sends
      that HandlerScope states. */
  lemma ScopeStep(cfg: Config, states: seq<State>, events: seq<ServerMachine.Event>, c: Conn, at: Point, g: nat)
    requires RunsScope(cfg, states, events, c, at, g) && (at.RelayChat? || at.Deliver? || at.Rename? || at.ListUsers?)
    ensures TableOk(states[g].clients) && Handler(c) in states[g + 1].pc
    ensures at.Deliver? ==> events[g].choice.Pick? && PickOk(states[g].clients, c, at.recipient, events[g].choice.found)
    ensures at.ListUsers? ==>
              && events[g].choice.Order? && Enumerates(events[g].choice.order, Targets(states[g].clients, None))
              && (forall d :: d in events[g].choice.order ==> d in states[g].clients)
              && Sorted(NamesInOrder(states[g].clients, events[g].choice.order))
    ensures HandlerScope(states[g].clients, c, at, events[g].choice) == (states[g + 1].pc[Handler(c)], states[g + 1].clients)
  {
    RunKeepsInv(cfg, states, events, g);
    assert Step(cfg, states[g], Handler(c), events[g].choice, states[g + 1]);
  }

  /** A rename over every run: it takes effect exactly when nobody else has the name, and then its NICK line, which reads
      back as the old and the new name, is written once on every connection that is welcomed at the snapshot. */
  lemma RenameArrives(cfg: Config, states: seq<State>, events: seq<ServerMachine.Event>, c: Conn, name: string,
                      g: nat, h: nat, j: nat, d: Conn)
    requires RunsScope(cfg, states, events, c, Point.Rename(name), g) && ValidNickname(name) && !UsedByOther(states[g].clients, c, name)
    requires g < h < j < |states| && d in states[h].links
    requires Sends(cfg, states, events, Handler(c), Broadcast(NickLine(states[g].clients[c].nickname, name), None), [], h, j)
    ensures states[g + 1].clients == states[g].clients[c := states[g].clients[c].(nickname := name)]
    ensures Handler(c) in states[g + 1].pc
    ensures states[g + 1].pc[Handler(c)].outs == [Broadcast(NickLine(states[g].clients[c].nickname, name), None)]
    ensures ParseBackendLine(NickLine(states[g].clients[c].nickname, name)) == Nick(states[g].clients[c].nickname, name)
    ensures d in states[j].links
    ensures Fate(cfg, states[j], d, NickLine(states[g].clients[c].nickname, name), d in states[h].clients && states[h].clients[d].welcomed,
                 Deliveries(states, events, Handler(c), d, NickLine(states[g].clients[c].nickname, name), h + 1, j))
  {
    ScopeStep(cfg, states, events, c, Point.Rename(name), g);
    RenameIsAnnounced(states[g].clients, c, name, events[g].choice);
    BroadcastArrives(cfg, states, events, Handler(c), NickLine(states[g].clients[c].nickname, name), None, [], h, j, d);
  }

  /** Public chat over every run: from the sender's scope on, the text is written once, as the line that other gateway
      sessions decode to it, on every connection that is welcomed at the snapshot but the sender's. */
  lemma ChatArrives(cfg: Config, states: seq<State>, events: seq<ServerMachine.Event>, c: Conn, text: string,
                    g: nat, h: nat, j: nat, d: Conn) returns (p: string)
    requires RunsScope(cfg, states, events, c, RelayChat(text), g) && text != "" && text[0] != '/' && !EndsInLineBreak(text)
    requires g < h < j < |states| && d in states[h].links && Handler(c) in states[g + 1].pc
    requires Sends(cfg, states, events, Handler(c), Broadcast(MsgLine(states[g].clients[c].nickname, text), Some(c)), [], h, j)
    ensures states[g + 1].pc[Handler(c)].outs == [Broadcast(p, Some(c))]
    ensures PublicDelivery(states[g].clients[c].nickname, text) == Some(ParseBackendLine(p))
    ensures d in states[j].links
    ensures Fate(cfg, states[j], d, p, d != c && d in states[h].clients && states[h].clients[d].welcomed,
                 Deliveries(states, events, Handler(c), d, p, h + 1, j))
  {
    p := MsgLine(states[g].clients[c].nickname, text);
    ScopeStep(cfg, states, events, c, RelayChat(text), g);
    ChatIsBroadcast(states[g].clients, c, text, events[g].choice);
    BroadcastArrives(cfg, states, events, Handler(c), p, Some(c), [], h, j, d);
  }

  /** Private messages over every run: the scope picks the one welcomed client of that name, and the relay is written on
      its connection once, and on no other by that send. */
  lemma PrivateArrives(cfg: Config, states: seq<State>, events: seq<ServerMachine.Event>, c: Conn, target: string, text: string,
                       g: nat, h: nat, j: nat, peer: Conn, d: Conn)
    requires RunsScope(cfg, states, events, c, Deliver(target, text), g) && Matches(states[g].clients, peer, target) && peer != c
    requires g < h < j < |states| && d in states[h].links
    requires Sends(cfg, states, events, Handler(c), SendTo(peer, PrivLine(states[g].clients[c].nickname, text)),
                   [SendTo(c, PrivSentLine(target, text))], h, j)
    ensures Handler(c) in states[g + 1].pc
    ensures states[g + 1].pc[Handler(c)].outs
         == [SendTo(peer, PrivLine(states[g].clients[c].nickname, text)), SendTo(c, PrivSentLine(target, text))]
    ensures d in states[j].links
    ensures Fate(cfg, states[j], d, PrivLine(states[g].clients[c].nickname, text), d == peer && peer in states[h].clients,
                 Deliveries(states, events, Handler(c), d, PrivLine(states[g].clients[c].nickname, text), h + 1, j))
  {
    var p := PrivLine(states[g].clients[c].nickname, text);
    ScopeStep(cfg, states, events, c, Deliver(target, text), g);
    PrivateIsDelivered(states[g].clients, c, target, text, events[g].choice);
    SendArrives(cfg, states, events, Handler(c), peer, p, [SendTo(c, PrivSentLine(target, text))], h, j, d);
  }
}
