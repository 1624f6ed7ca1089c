/** `wsManager` of plugin/background.js: the relay connection, its 1000 ms
    reconnect timer, its 30 s heartbeat with a 60 s pong timeout and the
    one-minute keep-alive alarm.  Each browser callback is a method; the
    clock is the `now` the callback reads from `Date.now()`. */
module PluginConnection {
  import opened Strings
  import opened Wire
  import PluginRouter

  const DefaultWsUrl := "ws://127.0.0.1:10044"
  const PongTimeoutMs := 60000
  const KeepAliveAlarm := "ws_keepalive"

  class WsManager {
    var ws: Option<Socket>
    var wsUrl: string
    var connecting: bool
    /** `reconnectTimer !== null` */
    var reconnectTimer: bool
    /** `heartbeatTimer !== null` */
    var heartbeatTimer: bool
    var lastPongTime: int
    /** Identity of the next `new WebSocket`. */
    var nextId: nat

    /** Sockets whose `onclose` handler is still attached. */
    ghost var live: set<nat>
    /** 1000 ms reconnect timers handed to `setTimeout` that have not fired. */
    ghost var pendingReconnects: nat
    /** Heartbeat intervals handed to `setInterval` and not cleared. */
    ghost var heartbeats: nat

    /** At most one live socket, and it is `ws`; `connecting` is exactly
        "ws is still connecting"; the heartbeat runs only on a socket that
        has opened; the two timer fields account for every pending timer. */
    ghost predicate Valid()
      reads this
    {
      && (connecting <==> ws.Some? && ws.value.state == Connecting)
      && (heartbeatTimer ==> ws.Some? && ws.value.state != Connecting)
      && (ws.Some? ==> ws.value.id < nextId)
      && live == (if ws.Some? then {ws.value.id} else {})
      && pendingReconnects == (if reconnectTimer then 1 else 0)
      && heartbeats == (if heartbeatTimer then 1 else 0)
    }

    /** The object literal before `init()`. */
    constructor ()
      ensures Valid()
      ensures ws.None? && wsUrl == DefaultWsUrl && !connecting
      ensures !reconnectTimer && !heartbeatTimer && lastPongTime == 0
    {
      ws := None;
      wsUrl := DefaultWsUrl;
      connecting := false;
      reconnectTimer := false;
      heartbeatTimer := false;
      lastPongTime := 0;
      nextId := 0;
      live := {};
      pendingReconnects := 0;
      heartbeats := 0;
    }

    /** Consequences of the invariant. */
    lemma AtMostOne()
      requires Valid()
      ensures |live| <= 1 && pendingReconnects <= 1 && heartbeats <= 1
      ensures ws.None? ==> live == {}
    {
    }

    /** `connect()`: a no-op while a socket exists or a connect is in
        flight; otherwise opens one socket to `wsUrl`. */
    method Connect()
      requires Valid()
      modifies this
      ensures Valid()
      ensures if old(ws).None? then
                && ws == Some(Socket(old(nextId), wsUrl, Connecting))
                && nextId == old(nextId) + 1 && live == {old(nextId)}
              else ws == old(ws) && nextId == old(nextId) && live == old(live)
      ensures wsUrl == old(wsUrl) && lastPongTime == old(lastPongTime)
      ensures reconnectTimer == old(reconnectTimer) && pendingReconnects == old(pendingReconnects)
      ensures heartbeatTimer == old(heartbeatTimer) && heartbeats == old(heartbeats)
    {
      if ws.Some? || connecting {
        return;
      }
      connecting := true;
      ws := Some(Socket(nextId, wsUrl, Connecting));
      live := live + {nextId};
      nextId := nextId + 1;
    }

    /** `init()` after storage answers: `wsUrl` is the stored value when
        there is one, then `connect()`. */
    method Init(stored: Option<string>)
      requires Valid()
      modifies this
      ensures Valid()
      ensures wsUrl == if stored.Some? then stored.value else old(wsUrl)
      ensures old(ws).None? ==> ws == Some(Socket(old(nextId), wsUrl, Connecting))
                                && nextId == old(nextId) + 1 && live == {old(nextId)}
      ensures old(ws).Some? ==> ws == old(ws) && nextId == old(nextId) && live == old(live)
      ensures lastPongTime == old(lastPongTime)
      ensures reconnectTimer == old(reconnectTimer) && pendingReconnects == old(pendingReconnects)
      ensures heartbeatTimer == old(heartbeatTimer) && heartbeats == old(heartbeats)
    {
      if stored.Some? {
        wsUrl := stored.value;
      }
      Connect();
    }

    /** `startHeartbeat()`: idempotent. */
    method StartHeartbeat()
      requires Valid() && ws.Some? && ws.value.state == Open
      modifies this
      ensures Valid() && heartbeatTimer && heartbeats == 1
      ensures ws == old(ws) && connecting == old(connecting) && nextId == old(nextId) && live == old(live)
      ensures wsUrl == old(wsUrl) && lastPongTime == old(lastPongTime)
      ensures reconnectTimer == old(reconnectTimer) && pendingReconnects == old(pendingReconnects)
    {
      if heartbeatTimer {
        return;
      }
      heartbeatTimer := true;
      heartbeats := heartbeats + 1;
    }

    /** `stopHeartbeat()`; callable mid-update, so it needs only the
        heartbeat bookkeeping. */
    method StopHeartbeat()
      requires heartbeats == (if heartbeatTimer then 1 else 0)
      modifies this
      ensures !heartbeatTimer && heartbeats == 0
      ensures ws == old(ws) && connecting == old(connecting) && nextId == old(nextId) && live == old(live)
      ensures wsUrl == old(wsUrl) && lastPongTime == old(lastPongTime)
      ensures reconnectTimer == old(reconnectTimer) && pendingReconnects == old(pendingReconnects)
    {
      if heartbeatTimer {
        heartbeatTimer := false;
        heartbeats := heartbeats - 1;
      }
    }

    /** `ws.onopen` of the current socket: clears `connecting`, resets
        `lastPongTime` and starts the heartbeat. */
    method OnOpen(id: nat, now: int)
      requires Valid() && ws.Some? && ws.value.id == id && ws.value.state == Connecting
      modifies this
      ensures Valid()
      ensures ws == Some(old(ws).value.(state := Open)) && !connecting
      ensures lastPongTime == now && heartbeatTimer
      ensures nextId == old(nextId) && live == old(live) && wsUrl == old(wsUrl)
      ensures reconnectTimer == old(reconnectTimer) && pendingReconnects == old(pendingReconnects)
    {
      connecting := false;
      ws := Some(ws.value.(state := Open));
      lastPongTime := now;
      StartHeartbeat();
    }

    /** `ws.onmessage` of the current (open) socket: `handleMessage`.  A pong
        refreshes `lastPongTime`; a job yields the tabs `handleOJ` opens. */
    method OnMessage(id: nat, f: Frame, now: int) returns (tabs: seq<Submission>)
      requires Valid() && ws.Some? && ws.value.id == id && ws.value.state == Open
      modifies this
      ensures Valid()
      ensures lastPongTime == if PluginRouter.HandleMessage(f).Pong? then now else old(lastPongTime)
      ensures tabs == match PluginRouter.HandleMessage(f)
                        case Routed(s) => s
                        case _ => []
      ensures ws == old(ws) && connecting == old(connecting) && nextId == old(nextId) && live == old(live)
      ensures wsUrl == old(wsUrl) && heartbeatTimer == old(heartbeatTimer) && heartbeats == old(heartbeats)
      ensures reconnectTimer == old(reconnectTimer) && pendingReconnects == old(pendingReconnects)
    {
      tabs := [];
      match PluginRouter.HandleMessage(f)
      case Pong => lastPongTime := now;
      case Routed(s) => tabs := s;
      case _ =>
    }

    /** `scheduleReconnect()`: at most one pending timer. */
    method ScheduleReconnect()
      requires Valid()
      modifies this
      ensures Valid() && reconnectTimer && pendingReconnects == 1
      ensures ws == old(ws) && connecting == old(connecting) && nextId == old(nextId) && live == old(live)
      ensures wsUrl == old(wsUrl) && lastPongTime == old(lastPongTime)
      ensures heartbeatTimer == old(heartbeatTimer) && heartbeats == old(heartbeats)
    {
      if reconnectTimer {
        return;
      }
      reconnectTimer := true;
      pendingReconnects := pendingReconnects + 1;
    }

    /** `ws.onclose` of a socket whose handler is still attached: stops the
        heartbeat, forgets the socket and schedules one reconnect. */
    method OnClose(id: nat)
      requires Valid() && id in live
      modifies this
      ensures Valid()
      ensures ws.None? && !connecting && live == {}
      ensures !heartbeatTimer && heartbeats == 0 && reconnectTimer && pendingReconnects == 1
      ensures nextId == old(nextId) && wsUrl == old(wsUrl) && lastPongTime == old(lastPongTime)
    {
      StopHeartbeat();
      ws := None;
      live := {};
      connecting := false;
      ScheduleReconnect();
    }

    /** The 1000 ms reconnect timer fires: it clears itself, then `connect()`. */
    method ReconnectTimerFires()
      requires Valid() && pendingReconnects > 0
      modifies this
      ensures Valid()
      ensures !reconnectTimer && pendingReconnects == 0
      ensures old(ws).None? ==> ws == Some(Socket(old(nextId), wsUrl, Connecting))
                                && nextId == old(nextId) + 1 && live == {old(nextId)}
      ensures old(ws).Some? ==> ws == old(ws) && nextId == old(nextId) && live == old(live)
      ensures wsUrl == old(wsUrl) && lastPongTime == old(lastPongTime)
      ensures heartbeatTimer == old(heartbeatTimer) && heartbeats == old(heartbeats)
    {
      pendingReconnects := pendingReconnects - 1;
      reconnectTimer := false;
      Connect();
    }

    /** `reconnect(force)` (the flag is unused): detaches `onclose` before
        closing the current socket, so the close path cannot schedule a
        second reconnect, then connects at once. */
    method Reconnect()
      requires Valid()
      modifies this
      ensures Valid()
      ensures ws == Some(Socket(old(nextId), wsUrl, Connecting)) && connecting
      ensures nextId == old(nextId) + 1 && live == {old(nextId)}
      ensures old(ws).Some? ==> old(ws).value.id !in live
      ensures !heartbeatTimer && heartbeats == 0
      ensures reconnectTimer == old(reconnectTimer) && pendingReconnects == old(pendingReconnects)
      ensures wsUrl == old(wsUrl) && lastPongTime == old(lastPongTime)
    {
      if ws.Some? {
        live := live - {ws.value.id};
        ws := None;
      }
      StopHeartbeat();
      connecting := false;
      Connect();
    }

    /** One heartbeat interval at time `now`: nothing unless the socket is
        OPEN; otherwise a ping, and a forced reconnect when no pong came for
        more than 60 s.  A forced reconnect stops the heartbeat, so no later
        tick can fire for that connection. */
    method HeartbeatTick(now: int) returns (sent: seq<Outbound>, forced: bool)
      requires Valid() && heartbeats > 0
      modifies this
      ensures Valid()
      ensures sent == if old(ws).Some? && old(ws).value.state == Open then [Ping(now)] else []
      ensures forced <==> sent != [] && now - old(lastPongTime) > PongTimeoutMs
      ensures forced ==> && ws == Some(Socket(old(nextId), wsUrl, Connecting))
                         && old(ws).value.id !in live && !heartbeatTimer
                         && nextId == old(nextId) + 1 && live == {old(nextId)} && heartbeats == 0
      ensures !forced ==> && ws == old(ws) && nextId == old(nextId) && live == old(live)
                          && heartbeatTimer == old(heartbeatTimer) && heartbeats == old(heartbeats)
      ensures reconnectTimer == old(reconnectTimer) && pendingReconnects == old(pendingReconnects)
      ensures wsUrl == old(wsUrl) && lastPongTime == old(lastPongTime)
    {
      if ws.None? || ws.value.state != Open {
        return [], false;
      }
      sent := [Ping(now)];
      forced := now - lastPongTime > PongTimeoutMs;
      if forced {
        Reconnect();
      }
    }

    /** `send(data)`: only on an OPEN socket, otherwise dropped. */
    method Send(data: Outbound) returns (sent: seq<Outbound>)
      requires Valid()
      ensures sent == if ws.Some? && ws.value.state == Open then [data] else []
    {
      if ws.Some? && ws.value.state == Open {
        sent := [data];
      } else {
        sent := [];
      }
    }

    /** The keep-alive alarm: connects when there is no socket at all. */
    method Alarm(name: string)
      requires Valid()
      modifies this
      ensures Valid()
      ensures if name == KeepAliveAlarm && old(ws).None? then
                && ws == Some(Socket(old(nextId), wsUrl, Connecting))
                && nextId == old(nextId) + 1 && live == {old(nextId)}
              else ws == old(ws) && nextId == old(nextId) && live == old(live)
      ensures wsUrl == old(wsUrl) && lastPongTime == old(lastPongTime)
      ensures reconnectTimer == old(reconnectTimer) && pendingReconnects == old(pendingReconnects)
      ensures heartbeatTimer == old(heartbeatTimer) && heartbeats == old(heartbeats)
    {
      if name == KeepAliveAlarm {
        if ws.None? {
          Connect();
        }
      }
    }

    /** A change of `wsUrl` in the `local` storage area: adopt it and
        `reconnect(true)`. Changes in other areas never reach this method:
        the listener drops them. */
    method ChangeUrl(url: string)
      requires Valid()
      modifies this
      ensures Valid()
      ensures wsUrl == url && ws == Some(Socket(old(nextId), url, Connecting)) && connecting
      ensures nextId == old(nextId) + 1 && live == {old(nextId)}
      ensures old(ws).Some? ==> old(ws).value.id !in live
      ensures !heartbeatTimer && heartbeats == 0
      ensures reconnectTimer == old(reconnectTimer) && pendingReconnects == old(pendingReconnects)
      ensures lastPongTime == old(lastPongTime)
    {
      wsUrl := url;
      Reconnect();
    }

    /** The server starts the closing handshake: the socket is CLOSING until
        its close event. */
    method PeerClosing()
      requires Valid() && ws.Some? && ws.value.state == Open
      modifies this
      ensures Valid()
      ensures ws == Some(old(ws).value.(state := Closing))
      ensures connecting == old(connecting) && nextId == old(nextId) && live == old(live)
      ensures wsUrl == old(wsUrl) && lastPongTime == old(lastPongTime)
      ensures reconnectTimer == old(reconnectTimer) && pendingReconnects == old(pendingReconnects)
      ensures heartbeatTimer == old(heartbeatTimer) && heartbeats == old(heartbeats)
    {
      ws := Some(ws.value.(state := Closing));
    }
  }

  /** Two closes before the reconnect timer fires leave one pending timer. */
  method TwoClosesOneTimer() returns (m: WsManager)
    ensures m.Valid() && m.pendingReconnects == 1
  {
    m := new WsManager();
    m.Connect();
    var first := m.ws.value.id;
    m.OnClose(first);
    m.Alarm(KeepAliveAlarm);
    var second := m.ws.value.id;
    m.OnClose(second);
  }

  /** After a pong timeout the next timeout needs a new open and 60 s more
      of silence: the forced reconnect leaves no heartbeat running. */
  method TimeoutOnce() returns (m: WsManager, forced: bool)
    ensures m.Valid() && forced && !m.heartbeatTimer && m.heartbeats == 0
  {
    m := new WsManager();
    m.Connect();
    m.OnOpen(m.ws.value.id, 0);
    var sent;
    sent, forced := m.HeartbeatTick(60001);
  }
}
