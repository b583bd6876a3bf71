/** What every interleaving keeps of the byte streams: whole frames in write-mutex order, the greeting first. */
module ServerWire {
  import opened Text
  import opened BackendLines
  import opened ClientTable
  import opened ServerMachine
  import opened ServerLocks
  import opened ServerRecords
  import W = WireProtocol

  // Whole frames.

  function BytesAll(ps: seq<string>): (bs: seq<W.Bytes>)
    ensures |bs| == |ps|
  {
    seq(|ps|, i requires 0 <= i < |ps| => Bytes(ps[i]))
  }

  predicate AllShort(ps: seq<string>, max: nat) {
    forall i :: 0 <= i < |ps| ==> |ps[i]| <= max
  }

  lemma ShortFits(ps: seq<string>, max: nat)
    requires AllShort(ps, max) && max <= W.MAX_LENGTH
    ensures W.AllFit(BytesAll(ps), max) && W.AllFit(BytesAll(ps), W.MAX_LENGTH)
  {
  }

  /** Everything on the wire is the encoding of the finished payloads and a proper prefix of one more frame. */
  ghost predicate LinkOk(cfg: Config, link: Link)
    requires ConfigOk(cfg)
  {
    && AllShort(link.done, cfg.maxMessage)
    && |link.current| <= cfg.maxMessage && link.sent < W.FRAME_HEADER_SIZE + |link.current|
    && (ShortFits(link.done, cfg.maxMessage);
        link.wire == W.EncodeAll(BytesAll(link.done)) + W.EncodeFrame(Bytes(link.current))[..link.sent])
  }

  /** While the link works, an unfinished frame belongs to the thread that holds the mutex. */
  ghost predicate InFlight(cfg: Config, s: State, c: Conn)
    requires c in s.links
  {
    var link := s.links[c];
    link.broken
    || if link.writer.None? then link.sent == 0
       else
         && Holds(s, link.writer.value, c)
         && var p := s.pc[link.writer.value].outs[0].payload;
            if |p| <= cfg.maxMessage then link.current == p else link.sent == 0
  }

  ghost predicate Wires(cfg: Config, s: State)
    requires ConfigOk(cfg)
  {
    forall c :: c in s.links ==> LinkOk(cfg, s.links[c]) && InFlight(cfg, s, c)
  }

  lemma NewFrame(cfg: Config, link: Link, payload: string, writer: Option<ThreadId>)
    requires ConfigOk(cfg) && LinkOk(cfg, link) && link.sent == 0 && |payload| <= cfg.maxMessage
    ensures LinkOk(cfg, link.(writer := writer, current := payload, sent := 0))
  {
  }

  lemma GrowFrame(cfg: Config, link: Link, after: nat, wire: W.Bytes)
    requires ConfigOk(cfg) && LinkOk(cfg, link) && link.sent <= after < W.FRAME_HEADER_SIZE + |link.current|
    requires wire == link.wire + W.EncodeFrame(Bytes(link.current))[link.sent..after]
    ensures LinkOk(cfg, link.(wire := wire, sent := after))
  {
    ShortFits(link.done, cfg.maxMessage);
    var frame := W.EncodeFrame(Bytes(link.current));
    assert frame[..link.sent] + frame[link.sent..after] == frame[..after];
  }

  lemma FinishFrame(cfg: Config, link: Link, wire: W.Bytes)
    requires ConfigOk(cfg) && LinkOk(cfg, link)
    requires wire == link.wire + W.EncodeFrame(Bytes(link.current))[link.sent..]
    ensures LinkOk(cfg, link.(writer := None, wire := wire, done := link.done + [link.current], current := "", sent := 0))
  {
    ShortFits(link.done, cfg.maxMessage);
    ShortFits(link.done + [link.current], cfg.maxMessage);
    var frame := W.EncodeFrame(Bytes(link.current));
    assert frame[..link.sent] + frame[link.sent..] == frame;
    W.EncodeAllSnoc(BytesAll(link.done), Bytes(link.current));
    assert BytesAll(link.done + [link.current]) == BytesAll(link.done) + [Bytes(link.current)];
    assert wire == W.EncodeAll(BytesAll(link.done)) + frame;
    assert W.EncodeFrame(Bytes(""))[..0] == [];
  }

  /** One system call of send_frame, or its early return. */
  lemma WriteStepOk(cfg: Config, link: Link, payload: string, ch: Choice)
    requires ConfigOk(cfg) && LinkOk(cfg, link) && WriteEnabled(cfg, link, payload, ch)
    requires !link.broken ==> if |payload| <= cfg.maxMessage then link.current == payload else link.sent == 0
    ensures var (after, returned) := WriteStep(cfg, link, payload, ch);
            && LinkOk(cfg, after) && after.greeting == link.greeting
            && after.writer == (if returned then None else link.writer)
            && (after.broken || (if returned then after.sent == 0 else |payload| <= cfg.maxMessage && after.current == payload))
            && (link.broken ==> after.broken && after.wire == link.wire && after.done == link.done)
            && (after.done == link.done || after.done == link.done + [payload])
            && (returned && |payload| <= cfg.maxMessage ==> after.broken || after.done == link.done + [payload])
            && (!returned ==> after.done == link.done && after.broken == link.broken)
  {
    if |payload| <= cfg.maxMessage && ch.Transfer? {
      var frame := W.EncodeFrame(Bytes(payload));
      var after := link.sent + ch.count;
      if after == |frame| {
        assert frame[link.sent..after] == frame[link.sent..];
        FinishFrame(cfg, link, link.wire + frame[link.sent..after]);
      } else {
        GrowFrame(cfg, link, after, link.wire + frame[link.sent..after]);
      }
    }
  }

  /** Steps that leave every link and every held mutex alone. */
  lemma WiresFrame(cfg: Config, s: State, s': State, t: ThreadId)
    requires ConfigOk(cfg) && Wires(cfg, s) && s'.links == s.links
    requires t in s.pc && forall c :: !Holds(s, t, c)
    requires forall u :: u in s.pc && u != t ==> u in s'.pc && s'.pc[u] == s.pc[u]
    ensures Wires(cfg, s')
  {
    forall c | c in s'.links ensures InFlight(cfg, s', c) {
      assert InFlight(cfg, s, c);
    }
  }

  lemma WiresBreak(cfg: Config, s: State, s': State, t: ThreadId, c: Conn)
    requires ConfigOk(cfg) && Wires(cfg, s) && s'.links == Break(s, c).links
    requires t in s.pc && forall d :: !Holds(s, t, d)
    requires forall u :: u in s.pc && u != t ==> u in s'.pc && s'.pc[u] == s.pc[u]
    ensures Wires(cfg, s')
  {
    forall d | d in s'.links ensures LinkOk(cfg, s'.links[d]) && InFlight(cfg, s', d) {
      assert LinkOk(cfg, s.links[d]) && InFlight(cfg, s, d);
    }
  }

  lemma WiresBeginWrite(cfg: Config, s: State, t: ThreadId, c: Conn, payload: string)
    requires ConfigOk(cfg) && Wires(cfg, s)
    requires t in s.pc && s.pc[t].outs != [] && s.pc[t].outs[0] == Write(c, payload)
    requires c in s.links && s.links[c].writer.None?
    ensures Wires(cfg, BeginWrite(cfg, s, t, c, payload))
  {
    var s' := BeginWrite(cfg, s, t, c, payload);
    assert InFlight(cfg, s, c) && LinkOk(cfg, s.links[c]);
    if !s.links[c].broken && |payload| <= cfg.maxMessage {
      NewFrame(cfg, s.links[c], payload, Some(t));
    }
    forall d | d in s'.links ensures LinkOk(cfg, s'.links[d]) && InFlight(cfg, s', d) {
      if d != c { assert LinkOk(cfg, s.links[d]) && InFlight(cfg, s, d); }
    }
  }

  lemma WiresAfterCall(cfg: Config, s: State, t: ThreadId, c: Conn, payload: string, link: Link, returned: bool)
    requires ConfigOk(cfg) && Wires(cfg, s) && c in s.links && s.links[c].writer == Some(t)
    requires t in s.pc && s.pc[t].outs != [] && s.pc[t].outs[0] == Writing(c, payload)
    requires LinkOk(cfg, link) && link.writer == if returned then None else Some(t)
    requires link.broken || if returned then link.sent == 0 else |payload| <= cfg.maxMessage && link.current == payload
    ensures Wires(cfg, AfterCall(s, t, c, link, returned))
  {
    var s' := AfterCall(s, t, c, link, returned);
    forall d | d in s'.links ensures LinkOk(cfg, s'.links[d]) && InFlight(cfg, s', d) {
      if d != c { assert LinkOk(cfg, s.links[d]) && InFlight(cfg, s, d); }
    }
  }

  /** One link is set up anew, by a main thread that holds no mutex. */
  lemma WiresSetLink(cfg: Config, s: State, s': State, c: Conn)
    requires ConfigOk(cfg) && Wires(cfg, s)
    requires Main in s.pc && s.pc[Main].outs == []
    requires forall u :: u in s.pc && u != Main ==> u in s'.pc && s'.pc[u] == s.pc[u]
    requires c in s'.links && s'.links == s.links[c := s'.links[c]]
    requires LinkOk(cfg, s'.links[c]) && InFlight(cfg, s', c)
    ensures Wires(cfg, s')
  {
    forall d | d in s'.links ensures LinkOk(cfg, s'.links[d]) && InFlight(cfg, s', d) {
      if d != c { assert LinkOk(cfg, s.links[d]) && InFlight(cfg, s, d); }
    }
  }

  lemma EmptyLink(cfg: Config, link: Link)
    requires ConfigOk(cfg) && link.wire == [] && link.done == [] && link.sent == 0 && |link.current| <= cfg.maxMessage
    ensures LinkOk(cfg, link)
  {
    assert BytesAll([]) == [];
  }

  // The greeting first.

  predicate Aims(out: Send, c: Conn) { HasTarget(out) && out.target == c }

  predicate NoAim(outs: seq<Send>, c: Conn) {
    forall i :: 0 <= i < |outs| ==> !Aims(outs[i], c)
  }

  /** Main is about to admit `c`, or stands at the one send of its greeting. */
  ghost predicate MainGreets(cfg: Config, s: State, c: Conn)
    requires Main in s.pc && c in s.links
  {
    var main, greeting := s.pc[Main], s.links[c].greeting;
    || (main == Thread([], Admit(c)) && s.links[c] == FreshLink())
    || (&& main.outs != [] && Aims(main.outs[0], c) && NoAim(main.outs[1..], c)
        && main.outs[0].payload == greeting && |greeting| <= cfg.maxMessage
        && ((main.at.MarkWelcomed? && main.at.conn == c) || main.at == HangUp(c))
        && (main.outs[0].SendTo? ==> c in s.clients))
  }

  /** Nothing has been sent on `c`, nobody can reach it, and only main holds a send for it. */
  ghost predicate Quiet(cfg: Config, s: State, c: Conn)
    requires Main in s.pc && c in s.links
  {
    && (c in s.clients ==> !s.clients[c].welcomed)
    && Handler(c) !in s.pc
    && (forall t :: t in s.pc && t != Main ==> NoAim(s.pc[t].outs, c))
    && MainGreets(cfg, s, c)
  }

  ghost predicate GreetOk(cfg: Config, s: State, c: Conn)
    requires Main in s.pc && c in s.links
  {
    var link := s.links[c];
    if link.done != [] then link.done[0] == link.greeting else link.broken || Quiet(cfg, s, c)
  }

  ghost predicate Greetings(cfg: Config, s: State) {
    && Main in s.pc
    && (forall c :: c in s.links ==> GreetOk(cfg, s, c))
    && (s.pc[Main].at.Admit? ==> s.pc[Main].at.conn in s.links && s.links[s.pc[Main].at.conn] == FreshLink())
  }

  predicate Reaches(t: Table, sends: seq<Send>) {
    forall i :: 0 <= i < |sends| ==> HasTarget(sends[i]) ==> sends[i].target in t && t[sends[i].target].welcomed
  }

  /** A handler's program changes; its new sends go to itself or to welcomed clients. */
  lemma GreetingsThread(cfg: Config, s: State, s': State, t: ThreadId)
    requires Greetings(cfg, s) && t in s.pc && t != Main
    requires t in s'.pc && s'.pc == s.pc[t := s'.pc[t]] && s'.links == s.links
    requires s'.clients.Keys <= s.clients.Keys && forall c :: c in s'.clients ==> s'.clients[c].welcomed == s.clients[c].welcomed
    requires forall c :: c in s.clients && c !in s'.clients ==> t == Handler(c)
    requires forall c :: c in s.links && Quiet(cfg, s, c) ==> NoAim(s'.pc[t].outs, c)
    ensures Greetings(cfg, s')
  {
    forall c | c in s'.links ensures GreetOk(cfg, s', c) {
      assert GreetOk(cfg, s, c);
      if Quiet(cfg, s, c) { assert Quiet(cfg, s', c); }
    }
  }

  lemma SpliceNoAim(outs: seq<Send>, sends: seq<Send>, c: Conn)
    requires outs != [] && NoAim(outs, c) && NoAim(sends, c)
    ensures NoAim(sends + outs[1..], c)
  {
    forall i | 0 <= i < |sends + outs[1..]| ensures !Aims((sends + outs[1..])[i], c) {
      if i >= |sends| { assert (sends + outs[1..])[i] == outs[i - |sends| + 1]; }
    }
  }

  /** A broadcast's snapshot holds welcomed clients only; a lookup passes its own target on. */
  lemma GreetingsExpand(cfg: Config, s: State, t: ThreadId, sends: seq<Send>)
    requires Greetings(cfg, s) && t in s.pc && s.pc[t].outs != []
    requires
      || (s.pc[t].outs[0].Broadcast? && Reaches(s.clients, sends))
      || (s.pc[t].outs[0].SendTo? && sends == Lookup(s.clients, s.pc[t].outs[0].target, s.pc[t].outs[0].payload))
    ensures Greetings(cfg, Expand(s, t, sends))
  {
    var s' := Expand(s, t, sends);
    forall c | c in s'.links ensures GreetOk(cfg, s', c) {
      assert GreetOk(cfg, s, c);
      if Quiet(cfg, s, c) {
        if t == Main {
          assert s.pc[Main].outs[0].SendTo?;
          assert s'.pc[Main].outs[1..] == s.pc[Main].outs[1..];
        } else {
          SpliceNoAim(s.pc[t].outs, sends, c);
        }
        assert Quiet(cfg, s', c);
      }
    }
  }

  /** A send that begins, or continues, without finishing. */
  lemma GreetingsSameDone(cfg: Config, s: State, s': State, t: ThreadId, c: Conn, later: Send)
    requires Greetings(cfg, s) && t in s.pc && s.pc[t].outs != [] && Aims(s.pc[t].outs[0], c) && c in s.links
    requires s'.pc == s.pc[t := s.pc[t].(outs := [later] + s.pc[t].outs[1..])] && s'.clients == s.clients
    requires (later.Write? || later.Writing?) && later.target == c && later.payload == s.pc[t].outs[0].payload
    requires c in s'.links && s'.links == s.links[c := s'.links[c]]
    requires s'.links[c].done == s.links[c].done && s'.links[c].greeting == s.links[c].greeting
    requires s'.links[c].broken == s.links[c].broken
    ensures Greetings(cfg, s')
  {
    assert s'.pc[t].outs[1..] == s.pc[t].outs[1..];
    forall d | d in s'.links ensures GreetOk(cfg, s', d) {
      assert GreetOk(cfg, s, d);
      if Quiet(cfg, s, d) {
        if t != Main { SpliceNoAim(s.pc[t].outs, [later], d); }
        assert Quiet(cfg, s', d);
      }
    }
    if s.pc[Main].at.Admit? { assert Quiet(cfg, s, s.pc[Main].at.conn); }
  }

  /** A send that returns: it is in `done`, or the link is broken, or the payload was too large. */
  lemma GreetingsReturned(cfg: Config, s: State, s': State, t: ThreadId, c: Conn)
    requires Greetings(cfg, s) && t in s.pc && s.pc[t].outs != [] && Aims(s.pc[t].outs[0], c) && c in s.links
    requires s'.pc == s.pc[t := s.pc[t].(outs := s.pc[t].outs[1..])] && s'.clients == s.clients
    requires c in s'.links && s'.links == s.links[c := s'.links[c]] && s'.links[c].greeting == s.links[c].greeting
    requires var p, before, after := s.pc[t].outs[0].payload, s.links[c], s'.links[c];
             && (after.done == before.done || after.done == before.done + [p])
             && (before.broken ==> after.broken && after.done == before.done)
             && (|p| <= cfg.maxMessage ==> after.broken || after.done == before.done + [p])
    ensures Greetings(cfg, s')
  {
    forall d | d in s'.links ensures GreetOk(cfg, s', d) {
      assert GreetOk(cfg, s, d);
      if Quiet(cfg, s, d) && !(t == Main && d == c) {
        assert t != Main;
        assert [] + s.pc[t].outs[1..] == s.pc[t].outs[1..];
        SpliceNoAim(s.pc[t].outs, [], d);
        assert Quiet(cfg, s', d);
      }
    }
    if s.pc[Main].at.Admit? { assert Quiet(cfg, s, s.pc[Main].at.conn); }
  }

  /** A socket is closed or shut down by a thread with nothing to send. */
  lemma GreetingsBreak(cfg: Config, s: State, s': State, t: ThreadId, c: Conn)
    requires Greetings(cfg, s) && t in s.pc && s.pc[t].outs == []
    requires t == Handler(c) || (t == Main && !s.pc[Main].at.Admit?)
    requires s'.links == Break(s, c).links && s'.clients == s.clients
    requires t in s'.pc && s'.pc == s.pc[t := s'.pc[t]] && s'.pc[t].outs == [] && (t == Main ==> !s'.pc[Main].at.Admit?)
    ensures Greetings(cfg, s')
  {
    forall d | d in s'.links ensures GreetOk(cfg, s', d) {
      assert GreetOk(cfg, s, d);
      if d != c && Quiet(cfg, s, d) { assert Quiet(cfg, s', d); }
    }
    if s.pc[Main].at.Admit? { assert Quiet(cfg, s, s.pc[Main].at.conn); }
  }

  /** Main moves on between points at which it greets nobody. */
  lemma GreetingsMain(cfg: Config, s: State, s': State)
    requires Greetings(cfg, s) && s.pc[Main].outs == [] && !s.pc[Main].at.Admit?
    requires s'.links == s.links && Main in s'.pc && !s'.pc[Main].at.Admit?
    ensures Greetings(cfg, s')
  {
    forall c | c in s'.links ensures GreetOk(cfg, s', c) {
      assert GreetOk(cfg, s, c);
    }
  }

  lemma GreetingsAccept(cfg: Config, s: State, s': State, c: Conn)
    requires Shape(s) && Greetings(cfg, s) && s.pc[Main].outs == [] && s.pc[Main].at.AcceptOne? && c !in s.links
    requires s'.clients == s.clients && s'.links == s.links[c := FreshLink()]
    requires s'.pc == s.pc[Main := Thread([], Admit(c))]
    ensures Greetings(cfg, s')
  {
    forall t | t in s.pc ensures NoAim(s.pc[t].outs, c) && t != Handler(c) {
      assert AtOk(s, t, s.pc[t]) && OutsOk(s.links, s.pc[t].outs);
    }
    assert Quiet(cfg, s', c);
    forall d | d in s'.links ensures GreetOk(cfg, s', d) {
      if d != c { assert GreetOk(cfg, s, d); }
    }
  }

  lemma GreetingsAdmit(cfg: Config, s: State, s': State, c: Conn, first: Send, at: Point, greeting: string)
    requires Greetings(cfg, s) && s.pc[Main] == Thread([], Admit(c))
    requires s'.pc == s.pc[Main := Thread([first], at)]
    requires Aims(first, c) && first.payload == greeting && |greeting| <= cfg.maxMessage
    requires (at.MarkWelcomed? && at.conn == c) || at == HangUp(c)
    requires c in s.links && c in s'.links && s'.links == s.links[c := s'.links[c]]
    requires s'.links[c].done == [] && s'.links[c].greeting == greeting && !s'.links[c].broken
    requires s'.clients == s.clients || (c in s'.clients && !s'.clients[c].welcomed && s'.clients == s.clients[c := s'.clients[c]])
    requires first.SendTo? ==> c in s'.clients
    ensures Greetings(cfg, s')
  {
    assert GreetOk(cfg, s, c) && Quiet(cfg, s, c);
    assert Quiet(cfg, s', c);
    forall d | d in s'.links ensures GreetOk(cfg, s', d) {
      if d != c { assert GreetOk(cfg, s, d); }
    }
  }
}
