/** The server's loops and lock scopes as objects, the steps of its machine, and the renames that NicknameTracking
    follows: three views of one program, and what ties them together. */
module ServerRefinement {
  import opened Text
  import opened BackendLines
  import opened ClientTable
  import opened ServerMachine
  import W = WireProtocol
  import Io = SocketIo
  import N = NicknameTracking

  // send_frame: one call of the loops is a sequence of the machine's system calls.

  /** The link after these results of send, while send_frame has not returned. */
  function Calls(cfg: Config, link: Link, payload: string, chs: seq<Choice>): (Link, bool)
    requires ConfigOk(cfg) && CallsEnabled(cfg, link, payload, chs)
    decreases |chs|
  {
    if chs == [] then (link, false)
    else
      var (next, returned) := WriteStep(cfg, link, payload, chs[0]);
      if returned then (next, true) else Calls(cfg, next, payload, chs[1..])
  }

  predicate CallsEnabled(cfg: Config, link: Link, payload: string, chs: seq<Choice>)
    requires ConfigOk(cfg)
    decreases |chs|
  {
    chs == [] || (
      && WriteEnabled(cfg, link, payload, chs[0])
      && var (next, returned) := WriteStep(cfg, link, payload, chs[0]);
         if returned then |chs| == 1 else CallsEnabled(cfg, next, payload, chs[1..]))
  }

  /** The link when its write mutex has just been taken for this payload. */
  predicate Begun(link: Link, payload: string) { !link.broken && link.current == payload && link.sent == 0 }

  /** The results of send by which a frame goes out up to `total` bytes: header and payload in a call each, then an error
      unless that was all. */
  function Script(payload: string, total: nat): seq<Choice> {
    if total < W.FRAME_HEADER_SIZE then (if total > 0 then [Transfer(total)] else []) + [Fail]
    else
      [Transfer(W.FRAME_HEADER_SIZE)] + (if total > W.FRAME_HEADER_SIZE then [Transfer(total - W.FRAME_HEADER_SIZE)] else [])
        + if total < W.FRAME_HEADER_SIZE + |payload| then [Fail] else []
  }

  function Sent(link: Link, payload: string, total: nat): Link
    requires |payload| <= W.MAX_LENGTH && total <= W.FRAME_HEADER_SIZE + |payload|
  {
    link.(wire := link.wire + W.EncodeFrame(Bytes(payload))[..total], sent := total)
  }

  lemma FrameSize(payload: string)
    requires |payload| <= W.MAX_LENGTH
    ensures |W.EncodeFrame(Bytes(payload))| == W.FRAME_HEADER_SIZE + |payload|
  {
  }

  lemma FailAt(cfg: Config, link: Link, payload: string, total: nat)
    requires ConfigOk(cfg) && |payload| <= cfg.maxMessage && !link.broken && total < W.FRAME_HEADER_SIZE + |payload|
    ensures CallsEnabled(cfg, Sent(link, payload, total), payload, [Fail])
    ensures Calls(cfg, Sent(link, payload, total), payload, [Fail])
         == (Sent(link, payload, total).(writer := None, broken := true), true)
  {
  }

  /** One transfer that does not finish the frame. */
  lemma TransferTo(cfg: Config, link: Link, payload: string, done: nat, total: nat)
    requires ConfigOk(cfg) && |payload| <= cfg.maxMessage && !link.broken && done < total < W.FRAME_HEADER_SIZE + |payload|
    requires total <= SegmentEnd(payload, done)
    ensures WriteEnabled(cfg, Sent(link, payload, done), payload, Transfer(total - done))
    ensures WriteStep(cfg, Sent(link, payload, done), payload, Transfer(total - done)) == (Sent(link, payload, total), false)
  {
    FrameSize(payload);
    var frame := W.EncodeFrame(Bytes(payload));
    assert frame[..done] + frame[done..total] == frame[..total];
    assert link.wire + frame[..done] + frame[done..total] == link.wire + frame[..total];
  }

  function Finished(link: Link, payload: string): Link
    requires |payload| <= W.MAX_LENGTH
  {
    link.(writer := None, wire := link.wire + W.EncodeFrame(Bytes(payload)), done := link.done + [payload], current := "", sent := 0)
  }

  /** The transfer that finishes it. */
  lemma TransferRest(cfg: Config, link: Link, payload: string, done: nat)
    requires ConfigOk(cfg) && |payload| <= cfg.maxMessage && !link.broken && done < W.FRAME_HEADER_SIZE + |payload|
    requires SegmentEnd(payload, done) == W.FRAME_HEADER_SIZE + |payload|
    ensures var rest := Transfer(W.FRAME_HEADER_SIZE + |payload| - done);
            && WriteEnabled(cfg, Sent(link, payload, done), payload, rest)
            && WriteStep(cfg, Sent(link, payload, done), payload, rest) == (Finished(link, payload), true)
  {
    FrameSize(payload);
    var frame := W.EncodeFrame(Bytes(payload));
    assert frame[..done] + frame[done..|frame|] == frame;
    assert link.wire + frame[..done] + frame[done..|frame|] == link.wire + frame;
  }

  /** Every outcome of send_frame's loops that puts `total` bytes of a frame on the wire is one of the machine's, by the
      script: the same bytes, and a frame is done exactly when all of them are out. */
  lemma ScriptWorks(cfg: Config, link: Link, payload: string, total: nat)
    requires ConfigOk(cfg) && |payload| <= cfg.maxMessage && Begun(link, payload) && total <= W.FRAME_HEADER_SIZE + |payload|
    ensures CallsEnabled(cfg, link, payload, Script(payload, total))
    ensures Calls(cfg, link, payload, Script(payload, total))
         == (if total == W.FRAME_HEADER_SIZE + |payload| then Finished(link, payload)
             else Sent(link, payload, total).(writer := None, broken := true), true)
  {
    assert Sent(link, payload, 0) == link by { assert link.wire + W.EncodeFrame(Bytes(payload))[..0] == link.wire; }
    if total < W.FRAME_HEADER_SIZE { ScriptInHeader(cfg, link, payload, total); }
    else { ScriptInPayload(cfg, link, payload, total); }
  }

  lemma ScriptInHeader(cfg: Config, link: Link, payload: string, total: nat)
    requires ConfigOk(cfg) && |payload| <= cfg.maxMessage && !link.broken && Sent(link, payload, 0) == link
    requires total < W.FRAME_HEADER_SIZE
    ensures CallsEnabled(cfg, link, payload, Script(payload, total))
    ensures Calls(cfg, link, payload, Script(payload, total)) == (Sent(link, payload, total).(writer := None, broken := true), true)
  {
    FailAt(cfg, link, payload, total);
    if total > 0 {
      TransferTo(cfg, link, payload, 0, total);
      assert Script(payload, total)[1..] == [Fail];
    } else {
      assert Script(payload, total) == [Fail];
    }
  }

  lemma ScriptInPayload(cfg: Config, link: Link, payload: string, total: nat)
    requires ConfigOk(cfg) && |payload| <= cfg.maxMessage && !link.broken && Sent(link, payload, 0) == link
    requires W.FRAME_HEADER_SIZE <= total <= W.FRAME_HEADER_SIZE + |payload|
    ensures CallsEnabled(cfg, link, payload, Script(payload, total))
    ensures Calls(cfg, link, payload, Script(payload, total))
         == (if total == W.FRAME_HEADER_SIZE + |payload| then Finished(link, payload)
             else Sent(link, payload, total).(writer := None, broken := true), true)
  {
    var script := Script(payload, total);
    if payload == "" {
      TransferRest(cfg, link, payload, 0);
      assert script == [Transfer(W.FRAME_HEADER_SIZE)];
    } else {
      TransferTo(cfg, link, payload, 0, W.FRAME_HEADER_SIZE);
      assert script[0] == Transfer(W.FRAME_HEADER_SIZE);
      PayloadCalls(cfg, link, payload, total, script[1..]);
    }
  }

  lemma PayloadCalls(cfg: Config, link: Link, payload: string, total: nat, script: seq<Choice>)
    requires ConfigOk(cfg) && 0 < |payload| <= cfg.maxMessage && !link.broken
    requires W.FRAME_HEADER_SIZE <= total <= W.FRAME_HEADER_SIZE + |payload|
    requires script == (if total > W.FRAME_HEADER_SIZE then [Transfer(total - W.FRAME_HEADER_SIZE)] else [])
                       + if total < W.FRAME_HEADER_SIZE + |payload| then [Fail] else []
    ensures var half := Sent(link, payload, W.FRAME_HEADER_SIZE);
            && CallsEnabled(cfg, half, payload, script)
            && Calls(cfg, half, payload, script)
               == (if total == W.FRAME_HEADER_SIZE + |payload| then Finished(link, payload)
                   else Sent(link, payload, total).(writer := None, broken := true), true)
  {
    if total == W.FRAME_HEADER_SIZE + |payload| {
      TransferRest(cfg, link, payload, W.FRAME_HEADER_SIZE);
      assert script == [Transfer(|payload|)];
    } else {
      FailAt(cfg, link, payload, total);
      if total > W.FRAME_HEADER_SIZE {
        TransferTo(cfg, link, payload, W.FRAME_HEADER_SIZE, total);
        assert script[1..] == [Fail];
      } else {
        assert script == [Fail];
      }
    }
  }

  /** send_frame on a connection does what the machine can do on a link: the same bytes, the same verdict. */
  method SendFrameRefines(conn: Io.Connection, cfg: Config, ghost link: Link, payload: string)
    returns (status: Io.IoStatus, ghost chs: seq<Choice>)
    requires ConfigOk(cfg) && Begun(link, payload)
    modifies conn`sent, conn`schedule
    ensures CallsEnabled(cfg, link, payload, chs) && Calls(cfg, link, payload, chs).1
    ensures var after := Calls(cfg, link, payload, chs).0;
            && (status == Io.TooLarge <==> |payload| > cfg.maxMessage)
            && (status == Io.Ok <==> after.done == link.done + [payload])
            && (status == Io.Error <==> after.broken)
            && link.wire <= after.wire && conn.sent == old(conn.sent) + after.wire[|link.wire|..]
  {
    ghost var total;
    status, total := Io.SendFrame(conn, Bytes(payload), cfg.maxMessage);
    if status == Io.TooLarge {
      chs := [Go];
      assert chs[1..] == [];
    } else {
      chs := Script(payload, total);
      ScriptWorks(cfg, link, payload, total);
      FrameSize(payload);
      assert W.EncodeFrame(Bytes(payload))[..|W.EncodeFrame(Bytes(payload))|] == W.EncodeFrame(Bytes(payload));
    }
  }

  // Lock scopes: what the methods do to the table is what the machine's scopes do.

  method RenameRefines(server: Server, fd: Conn, newNick: string) returns (taken: bool, oldNick: Option<string>)
    requires server.Valid() && ValidNickname(newNick)
    modifies server
    ensures server.clients == HandlerScope(old(server.clients), fd, Point.Rename(newNick), Go).1
    ensures HandlerScope(old(server.clients), fd, Point.Rename(newNick), Go).0 ==
            if taken then Reply(fd, "NICK_TAKEN", "Nickname '" + newNick + "' is already in use")
            else if oldNick.Some? then Thread([Broadcast(NickLine(oldNick.value, newNick), None)], Receive)
            else Thread([], Receive)
  {
    taken, oldNick := server.Rename(fd, newNick);
  }

  method LeaveRefines(server: Server, fd: Conn) returns (leavingNick: string)
    requires server.Valid()
    modifies server
    ensures server.clients == HandlerScope(old(server.clients), fd, Point.Leave, Go).1
    ensures HandlerScope(old(server.clients), fd, Point.Leave, Go).0 ==
            Thread(if leavingNick != "" then [Broadcast(LeftLine(leavingNick), Some(fd))] else [], CloseOwn)
  {
    assert fd in server.clients ==> ValidNickname(server.clients[fd].nickname);
    leavingNick := server.Leave(fd);
  }

  method FindTargetRefines(server: Server, fd: Conn, target: string, text: string)
    returns (sender: Option<string>, targetFd: Option<Conn>)
    ensures PickOk(server.clients, fd, target, targetFd)
    ensures sender.Some? && targetFd.Some? && targetFd != Some(fd) ==>
              HandlerScope(server.clients, fd, Point.Deliver(target, text), Pick(targetFd)).0 ==
              Thread([SendTo(targetFd.value, PrivLine(sender.value, text)), SendTo(fd, PrivSentLine(target, text))], Receive)
  {
    sender, targetFd := server.FindTarget(fd, target);
  }

  method AdmitRefines(server: Server, cfg: Config, s: State, fd: Conn) returns (full: bool, nickname: string, ghost ch: Choice)
    requires server.Valid() && server.maxClients == cfg.maxClients && s.clients == server.clients && fd !in s.clients
    requires fd in s.links
    modifies server
    ensures |s.clients| < cfg.maxClients ==> ch.Number? && FirstFree(s.clients, ch.n)
    ensures server.clients == AdmitStep(cfg, s, fd, ch).clients
    ensures AdmitStep(cfg, s, fd, ch).links[fd].greeting == if full then SERVER_FULL else WelcomeLine(nickname)
  {
    full, nickname := server.Admit(fd);
    ch := Go;
    if !full {
      ghost var n :| FirstFree(s.clients, n) && nickname == DefaultName(n);
      ch := Number(n);
    }
  }

  // NicknameTracking: its table changes and announcements are the machine's.

  /** A commit is the machine's rename scope: the same table, and an announcement exactly when the scope leaves its
      handler with the NICK broadcast. */
  lemma CommitIsTheScope(s: N.Tiers, c: Conn, args: string, ch: Choice)
    requires N.Enabled(s, N.Commit(c, args)) && ParseNickArgs(args).NickAccepted?
    ensures var name := ParseNickArgs(args).nickname;
            var (th, table) := HandlerScope(s.table, c, Point.Rename(name), ch);
            var s' := N.Do(s, N.Commit(c, args));
            && s'.table == table
            && (c in s'.announcing <==> th.outs == [Broadcast(NickLine(s.table[c].nickname, name), None)])
            && (c in s'.announcing ==> s'.announcing[c] == N.Announcement(s.table[c].nickname, name, None))
  {
    var name := ParseNickArgs(args).nickname;
    if UsedByOther(s.table, c, name) {
      assert HandlerScope(s.table, c, Point.Rename(name), ch).0.outs[0].SendTo?;
    }
  }

  /** Its snapshot is the machine's: one write for each target. */
  lemma SnapshotIsTheScope(s: N.Tiers, c: Conn, order: seq<Conn>, line: string, d: Conn)
    requires N.Enabled(s, N.TakeSnapshot(c)) && Enumerates(order, Targets(s.table, None))
    ensures var to := N.Do(s, N.TakeSnapshot(c)).announcing[c].targets;
            to.Some? && (d in to.value <==> Write(d, line) in Writes(order, line))
  {
    if d in order {
      var i :| 0 <= i < |order| && order[i] == d;
      assert Writes(order, line)[i] == Write(d, line);
    }
  }

  /** A newcomer's record and WELCOME are those of the machine's admission. */
  lemma AcceptIsTheScope(s: N.Tiers, cfg: Config, m: State, c: Conn, n: nat)
    requires N.Enabled(s, N.Accept(c, n)) && m.clients == s.table && c in m.links && |m.clients| < cfg.maxClients
    ensures var s', m' := N.Do(s, N.Accept(c, n)), AdmitStep(cfg, m, c, Number(n));
            s'.table == m'.clients && s'.queues[c] == [N.Hello(DefaultName(n))] && m'.links[c].greeting == N.Hello(DefaultName(n)).line
  {
  }
}
