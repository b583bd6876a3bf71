/** The browser's WebSocket client: connection lifecycle and reconnection with backoff. */
module Reconnect {
  import opened Text
  import opened ChatState

  /** readyState of the current WebSocket. */
  datatype Phase = Opening | Open

  datatype Options = Options(reconnect: bool, maxReconnectAttempts: int)

  /** `timer` holds the delay of the pending timer. */
  datatype Link = Link(socket: Option<Phase>, status: ConnectionStatus, attempts: nat, timer: Option<nat>, intentional: bool)

  datatype Event =
    | Connect(constructed: bool)
    | Disconnect
    | Opened
    | Errored
    | Closed
    | TimerFired(constructed: bool)

  function Power(n: nat): nat { if n == 0 then 1 else 2 * Power(n - 1) }

  /** Delay before the n-th retry, in milliseconds. */
  function Delay(n: nat): nat
    requires n >= 1
  {
    var exponential := 1000 * Power(n - 1);
    if exponential <= 10000 then exponential else 10000
  }

  function Fresh(): Link { Link(None, Idle, 0, None, false) }

  /** connect(); `constructed` says whether `new WebSocket` returned. */
  function Connecting(l: Link, constructed: bool): Link {
    Link(if constructed then Some(Opening) else None, if constructed then ConnectionStatus.Connecting else Failed,
         l.attempts, None, false)
  }

  function OnClose(o: Options, l: Link): Link {
    if l.intentional then l.(socket := None, status := Disconnected)
    else if o.reconnect && l.attempts < o.maxReconnectAttempts then
      l.(socket := None, status := Reconnecting, attempts := l.attempts + 1, timer := Some(Delay(l.attempts + 1)))
    else l.(socket := None, status := if l.attempts > 0 then Failed else Disconnected)
  }

  /** Handlers run for the current socket only: closeSocket detaches those of a socket it drops. */
  predicate Enabled(l: Link, e: Event) {
    match e
    case Connect(_) => true
    case Disconnect => true
    case Opened => l.socket == Some(Opening)
    case Errored => l.socket.Some?
    case Closed => l.socket.Some?
    case TimerFired(_) => l.timer.Some?
  }

  function Do(o: Options, l: Link, e: Event): Link {
    match e
    case Connect(constructed) => Connecting(l, constructed)
    case Disconnect => Link(None, Disconnected, l.attempts, None, true)
    case Opened => l.(socket := Some(Open), status := Connected, attempts := 0)
    case Errored => l.(status := if l.status == ConnectionStatus.Connecting then Failed else l.status)
    case Closed => OnClose(o, l)
    case TimerFired(constructed) => Connecting(l, constructed)
  }

  /** The link after a trace, when each event was enabled. */
  predicate Possible(o: Options, l: Link, trace: seq<Event>) {
    trace == [] || (Possible(o, l, trace[..|trace| - 1]) && Enabled(After(o, l, trace[..|trace| - 1]), trace[|trace| - 1]))
  }

  function After(o: Options, l: Link, trace: seq<Event>): Link {
    if trace == [] then l else Do(o, After(o, l, trace[..|trace| - 1]), trace[|trace| - 1])
  }

  // The object.

  class ThreadLinkClient {
    const options: Options
    var socket: Option<Phase>
    var status: ConnectionStatus
    var reconnectAttempts: nat
    var reconnectTimer: Option<nat>
    var intentionalClose: bool

    function State(): Link
      reads this
    {
      Link(socket, status, reconnectAttempts, reconnectTimer, intentionalClose)
    }

    constructor (options: Options)
      ensures State() == Fresh() && this.options == options
    {
      this.options := options;
      socket, status, reconnectAttempts, reconnectTimer, intentionalClose := None, Idle, 0, None, false;
    }

    /** The constructor of the new socket may throw. */
    method Connect(constructed: bool)
      modifies this
      ensures State() == Do(options, old(State()), Event.Connect(constructed))
    {
      intentionalClose := false;
      ClearReconnectTimer();
      CloseSocket(false);
      status := ConnectionStatus.Connecting;
      if !constructed {
        status := Failed;
        return;
      }
      socket := Some(Opening);
    }

    method Disconnect()
      modifies this
      ensures State() == Do(options, old(State()), Event.Disconnect)
    {
      intentionalClose := true;
      ClearReconnectTimer();
      CloseSocket(true);
      status := Disconnected;
    }

    method OnOpen()
      modifies this
      ensures State() == Do(options, old(State()), Opened)
    {
      socket := Some(Open);
      reconnectAttempts := 0;
      status := Connected;
    }

    method OnError()
      modifies this`status
      ensures State() == Do(options, old(State()), Errored)
    {
      if status == ConnectionStatus.Connecting { status := Failed; }
    }

    method OnClose()
      modifies this
      ensures State() == Do(options, old(State()), Closed)
    {
      socket := None;
      if intentionalClose {
        status := Disconnected;
        return;
      }
      if options.reconnect && reconnectAttempts < options.maxReconnectAttempts {
        ScheduleReconnect();
        return;
      }
      status := if reconnectAttempts > 0 then Failed else Disconnected;
    }

    method OnTimer(constructed: bool)
      modifies this
      ensures State() == Do(options, old(State()), TimerFired(constructed))
    {
      Connect(constructed);
    }

    method ScheduleReconnect()
      modifies this`status, this`reconnectAttempts, this`reconnectTimer
      ensures status == Reconnecting && reconnectAttempts == old(reconnectAttempts) + 1
      ensures reconnectTimer == Some(Delay(reconnectAttempts))
    {
      status := Reconnecting;
      reconnectAttempts := reconnectAttempts + 1;
      var delay := 1000 * Power(reconnectAttempts - 1);
      reconnectTimer := Some(if delay <= 10000 then delay else 10000);
    }

    method ClearReconnectTimer()
      modifies this`reconnectTimer
      ensures reconnectTimer == None
    {
      if reconnectTimer.Some? { reconnectTimer := None; }
    }

    /** Drops the socket and its handlers. */
    method CloseSocket(updateStatus: bool)
      modifies this`socket, this`status
      ensures socket == None
      ensures status == if old(socket).Some? && updateStatus && old(status) != Failed then Disconnected else old(status)
    {
      if socket.None? { return; }
      socket := None;
      if updateStatus && status != Failed { status := Disconnected; }
    }

    predicate IsConnected()
      reads this
    {
      status == Connected && socket == Some(Open)
    }
  }

  // Invariant.

  predicate LinkOk(o: Options, l: Link) {
    && (l.timer.Some? <==> l.status == Reconnecting)
    && (l.timer.Some? ==> l.socket.None? && !l.intentional && o.reconnect && l.attempts >= 1 && l.timer.value == Delay(l.attempts))
    && (l.socket.Some? ==> !l.intentional && l.status in {ConnectionStatus.Connecting, Connected, Failed})
    && (l.status == Connected <==> l.socket == Some(Open))
    && (l.attempts == 0 || l.attempts <= o.maxReconnectAttempts)
    && (l.intentional ==> l.status == Disconnected)
  }

  lemma LinkOkStep(o: Options, l: Link, e: Event)
    requires LinkOk(o, l) && Enabled(l, e)
    ensures LinkOk(o, Do(o, l, e))
  {
  }

  /** In every trace of events a pending timer means no socket and status reconnecting, the attempts never exceed the
      maximum, and `connected` means exactly that the current socket is open. */
  lemma {:induction false} TracesKeepLinkOk(o: Options, trace: seq<Event>)
    requires Possible(o, Fresh(), trace)
    ensures LinkOk(o, After(o, Fresh(), trace))
  {
    if trace != [] {
      TracesKeepLinkOk(o, trace[..|trace| - 1]);
      LinkOkStep(o, After(o, Fresh(), trace[..|trace| - 1]), trace[|trace| - 1]);
    }
  }

  /** A close that the user asked for never reaches the close handler: disconnect has detached it. */
  lemma CloseHandlerIsNeverIntentional(o: Options, trace: seq<Event>)
    requires Possible(o, Fresh(), trace) && Enabled(After(o, Fresh(), trace), Closed)
    ensures !After(o, Fresh(), trace).intentional
  {
    TracesKeepLinkOk(o, trace);
  }

  // A run of failures.

  /** What happens while the server cannot be reached: errors, closes, and timers whose socket is constructed. */
  predicate Failure(e: Event) { e.Errored? || e.Closed? || e == TimerFired(true) }

  predicate AllFailures(trace: seq<Event>) { forall i :: 0 <= i < |trace| ==> Failure(trace[i]) }

  function Retries(trace: seq<Event>): nat {
    if trace == [] then 0
    else Retries(trace[..|trace| - 1]) + if trace[|trace| - 1].TimerFired? then 1 else 0
  }

  /** Milliseconds that the fired timers waited. */
  function Waited(o: Options, l: Link, trace: seq<Event>): nat {
    if trace == [] then 0
    else
      var before := After(o, l, trace[..|trace| - 1]);
      Waited(o, l, trace[..|trace| - 1]) +
        if trace[|trace| - 1].TimerFired? && before.timer.Some? then before.timer.value else 0
  }

  function Backoff(n: nat): nat { if n == 0 then 0 else Backoff(n - 1) + Delay(n) }

  /** Every failure trace counts its retries in `attempts` and waits the backoff of exactly those. */
  lemma {:induction false} FailuresCount(o: Options, l: Link, trace: seq<Event>)
    requires LinkOk(o, l) && l.socket.Some? && Possible(o, l, trace) && AllFailures(trace)
    ensures var now := After(o, l, trace);
            && LinkOk(o, now) && !now.intentional
            && now.attempts == l.attempts + Retries(trace) + (if now.timer.Some? then 1 else 0)
            && Waited(o, l, trace) + Backoff(l.attempts) == Backoff(l.attempts + Retries(trace))
            && (now.socket.None? && now.timer.None? ==>
                  now.status == (if now.attempts > 0 then Failed else Disconnected)
                  && !(o.reconnect && now.attempts < o.maxReconnectAttempts))
  {
    if trace != [] {
      var front, last := trace[..|trace| - 1], trace[|trace| - 1];
      FailuresBefore(trace);
      FailuresCount(o, l, front);
      LinkOkStep(o, After(o, l, front), last);
      FailureCounts(o, After(o, l, front), last);
    }
  }

  lemma FailuresBefore(trace: seq<Event>)
    requires AllFailures(trace) && trace != []
    ensures AllFailures(trace[..|trace| - 1]) && Failure(trace[|trace| - 1])
  {
    assert forall i :: 0 <= i < |trace| - 1 ==> trace[..|trace| - 1][i] == trace[i];
  }

  /** What one failure does to the count, and to a link with nothing pending. */
  lemma FailureCounts(o: Options, l: Link, e: Event)
    requires LinkOk(o, l) && !l.intentional && Enabled(l, e) && Failure(e)
    ensures var now := Do(o, l, e);
            && !now.intentional
            && now.attempts + (if l.timer.Some? then 1 else 0)
               == l.attempts + (if now.timer.Some? then 1 else 0) + (if e.TimerFired? then 1 else 0)
            && (e.TimerFired? ==> l.timer == Some(Delay(l.attempts)))
            && (now.socket.None? && now.timer.None? ==>
                  now.status == (if now.attempts > 0 then Failed else Disconnected)
                  && !(o.reconnect && now.attempts < o.maxReconnectAttempts))
  {
  }

  /** The number of retries still allowed. */
  function Remaining(o: Options, l: Link): nat {
    if o.reconnect && l.attempts < o.maxReconnectAttempts then o.maxReconnectAttempts - l.attempts else 0
  }

  /** A run of asynchronous failures, with no open and no call by the user, never makes more retries than remain; when
      it can go no further it has made all of them, and the status is failed (disconnected if no retry was ever made). */
  lemma FailuresEndInFailed(o: Options, l: Link, trace: seq<Event>)
    requires LinkOk(o, l) && l.socket.Some? && Possible(o, l, trace) && AllFailures(trace)
    ensures var now := After(o, l, trace);
            && Retries(trace) <= Remaining(o, l)
            && (now.socket.None? && now.timer.None? <==> Stuck(now))
            && (Stuck(now) ==>
                  && Retries(trace) == Remaining(o, l)
                  && Waited(o, l, trace) == Backoff(l.attempts + Remaining(o, l)) - Backoff(l.attempts)
                  && now.status == if l.attempts + Remaining(o, l) > 0 then Failed else Disconnected)
  {
    FailuresCount(o, l, trace);
    if !o.reconnect { RetriesNeedReconnect(o, l, trace); }
    var now := After(o, l, trace);
    if now.socket.None? && now.timer.None? { NothingFails(now); }
    else if now.socket.Some? { assert Enabled(now, Closed) && Failure(Closed); }
    else { assert Enabled(now, TimerFired(true)) && Failure(TimerFired(true)); }
  }

  lemma {:induction false} RetriesNeedReconnect(o: Options, l: Link, trace: seq<Event>)
    requires LinkOk(o, l) && l.socket.Some? && Possible(o, l, trace) && AllFailures(trace) && !o.reconnect
    ensures Retries(trace) == 0
  {
    if trace != [] {
      var front := trace[..|trace| - 1];
      FailuresBefore(trace);
      FailuresCount(o, l, front);
      RetriesNeedReconnect(o, l, front);
    }
  }

  /** No failure can happen any more: only the user can start again. */
  ghost predicate Stuck(l: Link) { forall e :: Failure(e) ==> !Enabled(l, e) }

  lemma NothingFails(l: Link)
    requires l.socket.None? && l.timer.None?
    ensures Stuck(l)
  {
  }

  /** A constructor that throws when the timer fires ends the retries at once, however many remain. */
  lemma ThrowingConstructorStopsRetries(o: Options, l: Link, constructed: bool)
    requires LinkOk(o, l) && l.timer.Some?
    ensures Stuck(Do(o, l, TimerFired(constructed))) <==> !constructed
    ensures !constructed ==> Do(o, l, TimerFired(constructed)).status == Failed
  {
    var now := Do(o, l, TimerFired(constructed));
    if constructed { assert Enabled(now, Closed) && Failure(Closed); }
  }

  /** The closed form of the backoff: doubling for four retries, ten seconds each from then on. */
  lemma {:induction false} BackoffTotal(n: nat)
    ensures Backoff(n) == if n <= 4 then 1000 * (Power(n) - 1) else 15000 + 10000 * (n - 4)
  {
    if n > 0 {
      BackoffTotal(n - 1);
      if n > 4 { LongDelay(n); } else { ShortPowers(); }
    }
  }

  lemma ShortPowers()
    ensures Power(0) == 1 && Power(1) == 2 && Power(2) == 4 && Power(3) == 8 && Power(4) == 16
  {
    assert Power(1) == 2 * Power(0);
    assert Power(2) == 2 * Power(1);
  }

  lemma {:induction false} LongDelay(n: nat)
    requires n > 4
    ensures Power(n - 1) >= 16 && Delay(n) == 10000
  {
    ShortPowers();
    if n > 5 { LongDelay(n - 1); }
  }

  /** From a fresh page with the default of five retries, an unreachable server means 25 seconds of waiting. */
  lemma DefaultBackoff(trace: seq<Event>)
    requires var o := Options(true, 5); var l := Connecting(Fresh(), true); Possible(o, l, trace) && AllFailures(trace) && Stuck(After(o, l, trace))
    ensures Waited(Options(true, 5), Connecting(Fresh(), true), trace) == 25000 && Retries(trace) == 5
  {
    FailuresEndInFailed(Options(true, 5), Connecting(Fresh(), true), trace);
    BackoffTotal(5);
  }
}
