/** The C++ side of the framing: loops over system calls that transfer part of the data,
    are interrupted, or fail. */
module SocketIo {
  import opened WireProtocol

  datatype IoStatus = Ok | ClosedByPeer | Error | TooLarge

  /** What one send or recv call will do: move some bytes, return with EINTR or EAGAIN, or fail. */
  datatype CallOutcome = Transfer(atMost: nat) | Interrupted | WouldBlock | Failed

  /** No call of this schedule ends a transfer loop: sending retries EINTR and EAGAIN, receiving EINTR only. */
  predicate Survivable(schedule: seq<CallOutcome>, sending: bool) {
    forall i :: 0 <= i < |schedule| ==>
      schedule[i].Transfer? || schedule[i].Interrupted? || (sending && schedule[i].WouldBlock?)
  }

  /** `after` is `before` without its first outcome; an exhausted schedule fails. */
  predicate Consumed(before: seq<CallOutcome>, after: seq<CallOutcome>, outcome: CallOutcome) {
    if before == [] then after == [] && outcome == Failed else after == before[1..] && outcome == before[0]
  }

  /** A connected socket as its owner sees it. `schedule` fixes what the following system calls
      do. A terminating run makes finitely many calls, so every such run has a schedule;
      a call past the end of the schedule fails. */
  class Connection {
    var sent: Bytes
    var unread: Bytes
    var schedule: seq<CallOutcome>

    constructor (unread: Bytes, schedule: seq<CallOutcome>)
      ensures this.unread == unread && this.schedule == schedule && sent == []
    {
      this.unread, this.schedule, sent := unread, schedule, [];
    }

    method NextCall() returns (outcome: CallOutcome)
      modifies this`schedule
      ensures Consumed(old(schedule), schedule, outcome)
    {
      if schedule == [] { return Failed; }
      outcome, schedule := schedule[0], schedule[1..];
    }

    /** ::send: n > 0 bytes accepted, or n < 0 with the reason. */
    method Send(data: Bytes) returns (n: int, reason: CallOutcome)
      requires data != []
      modifies this`sent, this`schedule
      ensures Consumed(old(schedule), schedule, reason)
      ensures n <= |data|
      ensures n > 0 ==> sent == old(sent) + data[..n] && reason.Transfer?
      ensures n <= 0 ==> sent == old(sent) && !reason.Transfer?
    {
      reason := NextCall();
      if reason.Transfer? {
        n := if reason.atMost == 0 then 1 else if reason.atMost < |data| then reason.atMost else |data|;
        sent := sent + data[..n];
      } else {
        n := -1;
      }
    }

    /** ::recv: some bytes, 0 at end of stream, or n < 0 with the reason. */
    method Recv(len: nat) returns (n: int, data: Bytes, reason: CallOutcome)
      requires len > 0
      modifies this`unread, this`schedule
      ensures Consumed(old(schedule), schedule, reason)
      ensures n <= len
      ensures n > 0 ==> |data| == n && old(unread) == data + unread
      ensures n <= 0 ==> data == [] && unread == old(unread)
      ensures n == 0 ==> unread == []
      ensures n < 0 <==> !reason.Transfer?
    {
      data := [];
      reason := NextCall();
      if reason.Transfer? {
        var limit := if reason.atMost == 0 then 1 else if reason.atMost < len then reason.atMost else len;
        n := if limit < |unread| then limit else |unread|;
        data := unread[..n];
        unread := unread[n..];
      } else {
        n := -1;
      }
    }
  }

  /** Ok exactly when every byte went out; on Error a proper prefix did. */
  method SendAll(conn: Connection, data: Bytes) returns (status: IoStatus, ghost total: nat)
    modifies conn`sent, conn`schedule
    ensures total <= |data| && conn.sent == old(conn.sent) + data[..total]
    ensures status == if total == |data| then Ok else Error
    ensures Survivable(old(conn.schedule), true) ==> Survivable(conn.schedule, true) && (status == Error ==> conn.schedule == [])
  {
    var done := 0;
    while done < |data|
      invariant 0 <= done <= |data|
      invariant conn.sent == old(conn.sent) + data[..done]
      invariant Survivable(old(conn.schedule), true) ==> Survivable(conn.schedule, true)
      decreases |conn.schedule|
    {
      var n, reason := conn.Send(data[done..]);
      if n > 0 {
        assert data[..done] + data[done..][..n] == data[..done + n];
        done := done + n;
        continue;
      }
      if reason.Interrupted? || reason.WouldBlock? { continue; }
      return Error, done;
    }
    return Ok, done;
  }

  /** Fills the whole buffer, or reports why not. The bytes taken off the stream are the ones
      written at the front of the buffer. */
  method RecvExact(conn: Connection, buf: array<byte>) returns (status: IoStatus, ghost total: nat)
    modifies conn`unread, conn`schedule, buf
    ensures total <= buf.Length && old(conn.unread) == buf[..total] + conn.unread
    ensures status == Ok <==> total == buf.Length
    ensures status == ClosedByPeer ==> conn.unread == []
    ensures status != TooLarge
    ensures Survivable(old(conn.schedule), false) ==> Survivable(conn.schedule, false) && (status == Error ==> conn.schedule == [])
  {
    var got := 0;
    while got < buf.Length
      invariant 0 <= got <= buf.Length
      invariant old(conn.unread) == buf[..got] + conn.unread
      invariant Survivable(old(conn.schedule), false) ==> Survivable(conn.schedule, false)
      decreases |conn.schedule|
    {
      var n, data, reason := conn.Recv(buf.Length - got);
      if n > 0 {
        ghost var before := buf[..got];
        forall i | 0 <= i < n { buf[got + i] := data[i]; }
        assert buf[..got + n] == before + data;
        got := got + n;
        continue;
      }
      if n == 0 { return ClosedByPeer, got; }
      if reason.Interrupted? { continue; }
      return Error, got;
    }
    return Ok, got;
  }

  /** Ok exactly when one whole frame was appended to the stream; an oversized payload
      writes nothing; an error leaves a proper prefix of the frame behind. */
  method SendFrame(conn: Connection, payload: Bytes, max: nat) returns (status: IoStatus, ghost total: nat)
    requires max <= MAX_LENGTH
    modifies conn`sent, conn`schedule
    ensures status == TooLarge <==> |payload| > max
    ensures status == TooLarge ==> conn.sent == old(conn.sent)
    ensures status != TooLarge ==>
              && total <= |EncodeFrame(payload)|
              && conn.sent == old(conn.sent) + EncodeFrame(payload)[..total]
              && status == if total == |EncodeFrame(payload)| then Ok else Error
    ensures Survivable(old(conn.schedule), true) ==> Survivable(conn.schedule, true) && (status == Error ==> conn.schedule == [])
  {
    if |payload| > max { return TooLarge, 0; }
    var header := Header(|payload|);
    status, total := SendAll(conn, header);
    assert EncodeFrame(payload)[..total] == header[..total];
    if status != Ok { return; }
    if payload == [] { return Ok, total; }
    ghost var more;
    status, more := SendAll(conn, payload);
    total := total + more;
    assert EncodeFrame(payload)[..total] == header + payload[..more];
  }

  /** Takes exactly the first frame off the stream, or says why there is none. */
  method RecvFrame(conn: Connection, max: nat) returns (status: IoStatus, out: Bytes)
    modifies conn`unread, conn`schedule
    ensures status == Ok ==> Fits(out, max) && old(conn.unread) == EncodeFrame(out) + conn.unread
    ensures status == TooLarge ==> Oversized(old(conn.unread), max) && conn.unread == old(conn.unread)[FRAME_HEADER_SIZE..]
    ensures status == ClosedByPeer ==>
              Stuck(old(conn.unread), max) && !Oversized(old(conn.unread), max) && conn.unread == []
    ensures Survivable(old(conn.schedule), false) ==> Survivable(conn.schedule, false) && (status == Error ==> conn.schedule == [])
  {
    out := [];
    var lengthBytes := new byte[FRAME_HEADER_SIZE];
    ghost var total;
    status, total := RecvExact(conn, lengthBytes);
    if status != Ok { return; }
    var header := lengthBytes[..];
    ghost var stream := old(conn.unread);
    assert stream[..FRAME_HEADER_SIZE] == header[..FRAME_HEADER_SIZE] == header;
    var len := DeclaredLength(header);
    assert DeclaredLength(stream) == len;
    if len > max { return TooLarge, out; }
    if len == 0 {
      FirstFrame(stream);
      return Ok, out;
    }
    var body := new byte[len];
    status, total := RecvExact(conn, body);
    if status == Ok {
      out := body[..];
      assert stream[FRAME_HEADER_SIZE..FRAME_HEADER_SIZE + len] == out;
      FirstFrame(stream);
    }
  }

  /** Repeated recv_frame, as a handler thread calls it, reads the same frames and reaches the same
      verdict as the functional parser, and so as the gateway's decoder: an error of the socket
      can only cut the list short. */
  method RecvFrames(conn: Connection, max: nat) returns (frames: seq<Bytes>, status: IoStatus)
    modifies conn`unread, conn`schedule
    ensures status != Ok
    ensures frames <= Parse(old(conn.unread), max).frames
    ensures status != Error ==> frames == Parse(old(conn.unread), max).frames
    ensures status == TooLarge ==> Parse(old(conn.unread), max).tooLarge
    ensures status == ClosedByPeer ==> !Parse(old(conn.unread), max).tooLarge
    ensures Survivable(old(conn.schedule), false) ==> Survivable(conn.schedule, false) && (status == Error ==> conn.schedule == [])
  {
    ghost var all := Parse(conn.unread, max);
    frames := [];
    while true
      invariant Prepend(frames, Parse(conn.unread, max)) == all
      invariant Survivable(old(conn.schedule), false) ==> Survivable(conn.schedule, false)
      decreases |conn.unread|
    {
      ghost var stream := conn.unread;
      var payload;
      status, payload := RecvFrame(conn, max);
      if status != Ok {
        if status != Error { StuckParse(frames, stream, max); }
        return;
      }
      EncodedFrameShape(payload, conn.unread);
      TakeFrame(frames, stream, max);
      frames := frames + [payload];
    }
  }
}
