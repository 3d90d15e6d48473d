/** The browser's WebSocket client: opening, closing and reconnecting (webapp/src/websocket.ts). */
module Reconnect {
  import opened Basics

  const MIN_RETRY := 1000
  const TIMEOUT := 30000
  const INCREMENT := 500

  /** What the first k waits add up to. */
  function Slept(k: nat): nat {
    if k == 0 then 0 else Slept(k - 1) + MIN_RETRY + INCREMENT * (k - 1)
  }

  /** Another attempt is possible after k waits exactly when k is at most nine. */
  lemma NineWaits(k: nat)
    ensures Slept(k) < TIMEOUT <==> k <= 9
  {
  }

  /** A series of attempts without success: attempt i follows the i-th closing by its wait, the
      next closing follows the attempt, and no closing comes when the time is up. */
  ghost predicate Series(closes: seq<int>, attempts: seq<int>) {
    && |closes| == |attempts|
    && (forall i | 0 <= i < |closes| ::
          attempts[i] >= closes[i] + MIN_RETRY + INCREMENT * i && closes[i] - closes[0] < TIMEOUT)
    && (forall i | 0 < i < |closes| :: closes[i] >= attempts[i - 1])
  }

  lemma {:induction false} ClosedAfter(closes: seq<int>, attempts: seq<int>, i: nat)
    requires Series(closes, attempts) && i < |closes|
    ensures closes[i] - closes[0] >= Slept(i)
  {
    if i > 0 { ClosedAfter(closes, attempts, i - 1); }
  }

  /** The bound is ten, and ten is reached when connections fail at once. */
  lemma AtMostTen(closes: seq<int>, attempts: seq<int>)
    requires Series(closes, attempts)
    ensures |attempts| <= 10
    ensures exists c, a :: Series(c, a) && |a| == 10
  {
    if |attempts| > 10 {
      ClosedAfter(closes, attempts, 10);
      NineWaits(10);
    }
    var c := seq(10, (i: nat) => Slept(i));
    var a := seq(10, (i: nat) => Slept(i + 1));
    forall i | 0 <= i < 10 ensures c[i] - c[0] < TIMEOUT { NineWaits(i); }
    assert Series(c, a);
  }

  datatype Ready = Connecting | Open | Closed

  /** A socket; `handled` until the client detaches its close handler. */
  datatype Socket = Socket(ready: Ready, handled: bool, isReconnect: bool)

  datatype Message = Challenge(seq0: nat) | Ping(seq1: nat) | Leave(seq2: nat)

  class WebSocketClient {
    const authToken: string
    var ws: Option<Socket>
    var seqNo: nat
    var serverSeqNo: nat
    var connID: Id
    var originalConnID: Id
    var lastDisconnect: int
    var reconnectRetryTime: int
    var closed: bool
    var pinging: bool
    var waitingForPong: bool
    /** A listener that will send the leave message once the connection opens. */
    var leaveOnOpen: bool
    /** When the pending timeouts are due. */
    var timers: seq<int>
    var sent: seq<Message>

    /** The latest time seen, the waits begun and the attempts made since the last reconnection,
        and the attempts made ever. */
    ghost var clock: int
    ghost var waits: nat
    ghost var attempts: nat
    ghost var attemptsEver: nat

    /** A socket that may still open or report its closing. */
    predicate Attached()
      reads this
    {
      ws.Some? && ws.value.handled && !ws.value.ready.Closed?
    }

    /** How long the client must have been disconnected. */
    ghost predicate Waited()
      reads this
    {
      waits == 0 ||
      (if timers == [] then clock - lastDisconnect >= Slept(waits) else timers[0] - lastDisconnect >= Slept(waits))
    }

    ghost predicate Valid()
      reads this
    {
      && 0 <= lastDisconnect <= clock && 0 < clock
      && reconnectRetryTime == MIN_RETRY + INCREMENT * waits
      && (lastDisconnect == 0 ==> waits == 0)
      && attempts + |timers| <= waits <= 10
      && |timers| <= 1 && (timers != [] ==> !Attached())
      && (pinging ==> !closed && Attached() && ws.value.ready.Open?)
      && (leaveOnOpen ==> closed) && (ws.Some? && !ws.value.handled ==> ws.value.ready.Closed?)
      && (!closed ==> attempts + |timers| == waits && Waited() && (timers != [] || Attached()))
    }

    constructor (authToken: string, now: int)
      requires now > 0
      ensures Valid() && !closed && Attached() && attempts == 0 && attemptsEver == 0 && sent == []
    {
      this.authToken := authToken;
      ws := Some(Socket(Connecting, true, false));
      seqNo, serverSeqNo, connID, originalConnID := 1, 0, NONE, NONE;
      lastDisconnect, reconnectRetryTime, closed := 0, MIN_RETRY, false;
      pinging, waitingForPong, leaveOnOpen := false, false, false;
      timers, sent := [], [];
      clock, waits, attempts, attemptsEver := now, 0, 0, 0;
    }

    /** A message is sent only over an open socket, but takes its number in any case. */
    method SendLeave()
      requires Valid()
      modifies this`sent, this`seqNo
      ensures Valid() && seqNo == old(seqNo) + 1
      ensures sent == if ws.Some? && ws.value.ready.Open? then old(sent) + [Leave(old(seqNo))] else old(sent)
    {
      if ws.Some? && ws.value.ready.Open? { sent := sent + [Leave(seqNo)]; }
      seqNo := seqNo + 1;
    }

    method Close()
      requires Valid()
      modifies this
      ensures Valid() && closed && ws.None? && !pinging && !leaveOnOpen
      ensures seqNo == 1 && serverSeqNo == 0 && connID == NONE && originalConnID == NONE
      ensures timers == old(timers) && sent == old(sent) && attempts == old(attempts)
      ensures attemptsEver == old(attemptsEver)
      ensures lastDisconnect == old(lastDisconnect) && reconnectRetryTime == old(reconnectRetryTime)
    {
      closed := true;
      StopPingInterval();
      ws := None;
      seqNo, serverSeqNo := 1, 0;
      connID, originalConnID := NONE, NONE;
      leaveOnOpen := false;
    }

    /** The listeners of the client's own "open" event: a leave that waits for it is sent, once. */
    method EmitOpen()
      requires Valid() && Attached() && ws.value.ready.Open?
      modifies this
      ensures Valid() && !leaveOnOpen
      ensures attempts == old(attempts) && attemptsEver == old(attemptsEver) && timers == old(timers)
      ensures lastDisconnect == old(lastDisconnect) && reconnectRetryTime == old(reconnectRetryTime)
      ensures closed == old(closed) && connID == (if old(leaveOnOpen) then NONE else old(connID))
      ensures originalConnID == if old(leaveOnOpen) then NONE else old(originalConnID)
      ensures ws == if old(leaveOnOpen) then None else old(ws)
      ensures sent == old(sent) + if old(leaveOnOpen) then [Leave(old(seqNo))] else []
      ensures !old(leaveOnOpen) ==> seqNo == old(seqNo) && pinging == old(pinging)
    {
      if leaveOnOpen {
        leaveOnOpen := false;
        SendLeave();
        Close();
      }
    }

    method StopPingInterval()
      modifies this`pinging, this`waitingForPong
      ensures !pinging && (waitingForPong <==> old(waitingForPong) && !old(pinging))
    {
      if pinging { pinging, waitingForPong := false, false; }
    }

    method StartPingInterval()
      requires Valid() && (!closed ==> Attached() && ws.value.ready.Open?)
      modifies this`pinging, this`waitingForPong
      ensures Valid() && pinging == !closed
    {
      if closed { return; }
      StopPingInterval();
      pinging := true;
    }

    method PingServer()
      requires Valid()
      modifies this`sent, this`seqNo, this`waitingForPong
      ensures Valid()
      ensures ws.Some? && ws.value.ready.Open? ==> waitingForPong && sent == old(sent) + [Ping(old(seqNo))]
      ensures ws.Some? && ws.value.ready.Open? ==> seqNo == old(seqNo) + 1
      ensures !(ws.Some? && ws.value.ready.Open?) ==> sent == old(sent) && seqNo == old(seqNo)
      ensures !(ws.Some? && ws.value.ready.Open?) ==> waitingForPong == old(waitingForPong)
    {
      if ws.Some? && ws.value.ready.Open? {
        waitingForPong := true;
        sent, seqNo := sent + [Ping(seqNo)], seqNo + 1;
      }
    }

    /** Authenticates, and after a reconnection starts counting and waiting afresh. */
    method Opened()
      requires Valid() && Attached() && ws.value.ready.Connecting?
      modifies this`ws, this`sent, this`seqNo, this`lastDisconnect, this`reconnectRetryTime, this`waits, this`attempts
      ensures Valid() && ws == Some(old(ws).value.(ready := Open))
      ensures sent == old(sent) + if authToken == "" then [] else [Challenge(old(seqNo))]
      ensures seqNo == old(seqNo) + if authToken == "" then 0 else 1
      ensures attempts == if ws.value.isReconnect then 0 else old(attempts)
      ensures ws.value.isReconnect ==> lastDisconnect == 0 && reconnectRetryTime == MIN_RETRY
    {
      ws := Some(ws.value.(ready := Open));
      if authToken != "" {
        sent, seqNo := sent + [Challenge(seqNo)], seqNo + 1;
      }
      if ws.value.isReconnect {
        lastDisconnect := 0;
        reconnectRetryTime := MIN_RETRY;
        waits, attempts := 0, 0;
      }
    }

    /** The socket opens. A reconnection starts the count afresh; a leave that waits for it is sent
        and the client closes for good. */
    method OnOpen()
      requires Valid() && Attached() && ws.value.ready.Connecting?
      modifies this
      ensures Valid() && attemptsEver == old(attemptsEver) && closed == old(closed)
      ensures old(ws.value.isReconnect) ==> attempts == 0 && lastDisconnect == 0 && reconnectRetryTime == MIN_RETRY
      ensures !old(ws.value.isReconnect) ==> attempts == old(attempts) && leaveOnOpen == old(leaveOnOpen)
      ensures !closed ==> Attached() && ws.value.ready.Open? && pinging && waitingForPong
      ensures old(ws.value.isReconnect && leaveOnOpen) ==> ws.None? && !leaveOnOpen
      ensures old(ws.value.isReconnect && leaveOnOpen) ==>
        sent == old(sent) + (if authToken == "" then [Leave(old(seqNo))]
                             else [Challenge(old(seqNo)), Leave(old(seqNo) + 1)])
    {
      Opened();
      if ws.value.isReconnect { EmitOpen(); }
      StartPingInterval();
      PingServer();
    }

    /** The server's greeting. The first connection ID is kept as the original one, and a first
        connection, unlike a reconnection, counts as open only now. */
    method OnHello(id: Id, seqOfMsg: nat)
      requires Valid() && Attached() && ws.value.ready.Open?
      modifies this
      ensures Valid() && attempts == old(attempts) && attemptsEver == old(attemptsEver) && closed == old(closed)
      ensures var leaving := old(leaveOnOpen && !ws.value.isReconnect);
        && ws == (if leaving then None else old(ws))
        && connID == (if leaving then NONE else id)
        && originalConnID == if leaving then NONE
                             else if old(originalConnID) == NONE && id != old(connID) then id else old(originalConnID)
    {
      serverSeqNo := seqOfMsg + 1;
      if id != connID {
        connID, serverSeqNo, seqNo := id, 0, 1;
        if originalConnID == NONE { originalConnID := connID; }
      }
      if !ws.value.isReconnect { EmitOpen(); }
    }

    /** The close handler: schedules an attempt unless the client is closed. */
    method OnClose(now: int)
      requires Valid() && now >= clock && (Attached() || closed)
      modifies this
      ensures Valid() && !Attached() && !pinging && attempts == old(attempts) && attemptsEver == old(attemptsEver)
      ensures ws == if old(ws).Some? then Some(old(ws).value.(ready := Closed)) else None
      ensures old(closed) ==> closed && timers == old(timers)
      ensures !old(closed) ==> if closed then timers == [] else timers == [now + old(reconnectRetryTime)]
      ensures !old(closed) ==> (closed <==> old(lastDisconnect) != 0 && now - old(lastDisconnect) >= TIMEOUT)
    {
      if ws.Some? { ws := Some(ws.value.(ready := Closed)); }
      clock := now;
      StopPingInterval();
      if !closed { Reconnect(now); }
    }

    /** Gives up once the client has been disconnected for thirty seconds. */
    method Reconnect(now: int)
      requires 0 < lastDisconnect <= now || lastDisconnect == 0 == waits
      requires 0 < now == clock && !closed && timers == [] && attempts == waits <= 10 && !pinging && !leaveOnOpen
      requires ws.Some? ==> ws.value.ready.Closed?
      requires reconnectRetryTime == MIN_RETRY + INCREMENT * waits
      requires waits > 0 ==> now - lastDisconnect >= Slept(waits)
      modifies this`lastDisconnect, this`closed, this`timers, this`reconnectRetryTime, this`waits
      ensures Valid()
      ensures closed <==> old(lastDisconnect) != 0 && now - old(lastDisconnect) >= TIMEOUT
      ensures timers == if closed then [] else [now + old(reconnectRetryTime)]
      ensures lastDisconnect == if old(lastDisconnect) == 0 then now else old(lastDisconnect)
    {
      if lastDisconnect == 0 { lastDisconnect := now; }
      if now - lastDisconnect >= TIMEOUT {
        closed := true;
        return;
      }
      NineWaits(waits);
      timers := timers + [now + reconnectRetryTime];
      reconnectRetryTime := reconnectRetryTime + INCREMENT;
      waits := waits + 1;
    }

    /** The pending timeout, never early. It makes an attempt unless the client has been closed. */
    method OnTimer(now: int)
      requires Valid() && timers != [] && now >= clock && now >= timers[0]
      modifies this
      ensures Valid() && timers == [] && closed == old(closed)
      ensures attempts == old(attempts) + (if closed then 0 else 1) && attempts <= 10
      ensures attemptsEver == old(attemptsEver) + if closed then 0 else 1
      ensures ws == if closed then old(ws) else Some(Socket(Connecting, true, true))
    {
      clock := now;
      timers := [];
      if !closed {
        ws := Some(Socket(Connecting, true, true));
        attempts, attemptsEver := attempts + 1, attemptsEver + 1;
      }
    }

    /** The ping interval: an unanswered ping detaches the socket and counts as its closing. */
    method OnPingInterval(now: int)
      requires Valid() && pinging && now >= clock
      modifies this
      ensures Valid() && attempts == old(attempts) && attemptsEver == old(attemptsEver)
      ensures old(waitingForPong) ==> !Attached() && (closed || timers == [now + old(reconnectRetryTime)])
      ensures !old(waitingForPong) ==> ws == old(ws) && waitingForPong && sent == old(sent) + [Ping(old(seqNo))]
    {
      if waitingForPong && ws.Some? {
        OnClose(now);
        ws := Some(ws.value.(handled := false));
      } else {
        PingServer();
      }
    }

    method OnPong()
      requires Valid()
      modifies this`waitingForPong
      ensures Valid() && !waitingForPong
    {
      waitingForPong := false;
    }

    /** Leaves at once over an open connection, later over one still being made, never otherwise. */
    method SendLeaveAndClose()
      requires Valid()
      modifies this
      ensures Valid() && closed && attempts == old(attempts) && attemptsEver == old(attemptsEver)
      ensures timers == old(timers)
      ensures old(Attached() && ws.value.ready.Open?) ==> sent == old(sent) + [Leave(old(seqNo))] && ws.None?
      ensures old(Attached() && ws.value.ready.Open?) ==> !leaveOnOpen
      ensures old(Attached() && ws.value.ready.Connecting?) ==> sent == old(sent) && leaveOnOpen && ws == old(ws)
      ensures !old(Attached()) ==> sent == old(sent) && ws.None? && !leaveOnOpen
    {
      if ws.None? || ws.value.ready.Closed? {
        Close();
      } else if ws.value.ready.Open? {
        SendLeave();
        Close();
      } else {
        closed := true;
        leaveOnOpen := true;
      }
    }
  }
}
