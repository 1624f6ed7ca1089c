/** `wsManager` of background.js: a `lockReconnect` flag instead of a
    `connecting` flag, a 1000 ms reconnect delay with no timer dedup, an
    `onerror` that closes the socket, and the 30 s `keepAlive` alarm. */
module DraftConnection {
  import opened Strings
  import opened Wire
  import DraftRouter

  const DefaultWsUrl := "ws://127.0.0.1:10044"
  const KeepAliveAlarm := "keepAlive"
  const ClientName := "chrome-extension"

  class DraftWsManager {
    var ws: Option<Socket>
    var url: string
    var lockReconnect: bool
    /** Identity of the next `new WebSocket`. */
    var nextId: nat

    /** Sockets whose `onclose` handler is still attached. */
    ghost var live: set<nat>
    /** `setTimeout(connect, 1000)` calls that have not fired yet. */
    ghost var pendingConnects: nat
    /** Sockets closed while still connecting whose `error` event has not
        fired yet: closing a connecting socket fails it, and the failure is
        reported by an `error` event.  The current socket can be one of
        them (the error handler closes it and keeps it). */
    ghost var failing: set<nat>

    /** The lock is held while the socket has not opened (`onopen` releases
        it) and only while there is a socket; `onclose` is attached to the
        current socket only. */
    ghost predicate Valid()
      reads this
    {
      && (lockReconnect ==> ws.Some?)
      && (ws.Some? && ws.value.state == Connecting ==> lockReconnect)
      && (ws.Some? && ws.value.state == Open ==> !lockReconnect)
      && (ws.Some? ==> ws.value.id < nextId)
      && live == (if ws.Some? then {ws.value.id} else {})
      && (forall i :: i in failing ==> i < nextId)
    }

    /** The object literal before `init()`. */
    constructor ()
      ensures Valid()
      ensures ws.None? && url == DefaultWsUrl && !lockReconnect
      ensures nextId == 0 && pendingConnects == 0 && failing == {}
    {
      ws := None;
      url := DefaultWsUrl;
      lockReconnect := false;
      nextId := 0;
      live := {};
      pendingConnects := 0;
      failing := {};
    }

    /** `connect()`: a no-op while there is a socket or the lock is held;
        otherwise takes the lock and opens a socket to `url`. */
    method Connect()
      requires Valid()
      modifies this
      ensures Valid()
      ensures if old(ws).None? then
                && ws == Some(Socket(old(nextId), url, Connecting)) && lockReconnect
                && nextId == old(nextId) + 1 && live == {old(nextId)}
              else ws == old(ws) && lockReconnect == old(lockReconnect) && nextId == old(nextId) && live == old(live)
      ensures url == old(url) && pendingConnects == old(pendingConnects) && failing == old(failing)
    {
      if ws.Some? || lockReconnect {
        return;
      }
      lockReconnect := true;
      ws := Some(Socket(nextId, url, Connecting));
      live := live + {nextId};
      nextId := nextId + 1;
    }

    /** `init()`: the stored URL when truthy, else the default, then
        `connect()`. */
    method Init(stored: Option<string>)
      requires Valid()
      modifies this
      ensures Valid()
      ensures url == Or(stored, DefaultWsUrl)
      ensures old(ws).None? ==> && ws == Some(Socket(old(nextId), url, Connecting)) && lockReconnect
                                && nextId == old(nextId) + 1 && live == {old(nextId)}
      ensures old(ws).Some? ==> && ws == old(ws) && lockReconnect == old(lockReconnect)
                                && nextId == old(nextId) && live == old(live)
      ensures pendingConnects == old(pendingConnects) && failing == old(failing)
    {
      url := Or(stored, DefaultWsUrl);
      Connect();
    }

    /** `send(data)`: only on an OPEN socket, otherwise dropped. */
    method Send(data: Outbound) returns (sent: seq<Outbound>)
      requires Valid()
      ensures sent == if ws.Some? && ws.value.state == Open then [data] else []
    {
      if ws.Some? && ws.value.state == Open {
        sent := [data];
      } else {
        sent := [];
      }
    }

    /** `ws.onopen` of the current socket: releases the lock and greets the
        relay. */
    method OnOpen(id: nat) returns (sent: seq<Outbound>)
      requires Valid() && ws.Some? && ws.value.id == id && ws.value.state == Connecting
      modifies this
      ensures Valid()
      ensures ws == Some(old(ws).value.(state := Open)) && !lockReconnect
      ensures sent == [Hello(ClientName)]
      ensures url == old(url) && nextId == old(nextId) && live == old(live)
      ensures pendingConnects == old(pendingConnects) && failing == old(failing)
    {
      ws := Some(ws.value.(state := Open));
      lockReconnect := false;
      sent := Send(Hello(ClientName));
    }

    /** `ws.onmessage` of the open socket: the tasks `handleOJ` opens. */
    method OnMessage(id: nat, f: Frame) returns (tasks: seq<DraftRouter.Task>)
      requires Valid() && ws.Some? && ws.value.id == id && ws.value.state == Open
      ensures tasks == DraftRouter.OnMessage(f)
    {
      tasks := DraftRouter.OnMessage(f);
    }

    /** `ws.onclose` of a socket whose handler is still attached: forgets it,
        releases the lock and adds one more 1000 ms connect timer. */
    method OnClose(id: nat)
      requires Valid() && id in live
      modifies this
      ensures Valid()
      ensures ws.None? && !lockReconnect && live == {}
      ensures pendingConnects == old(pendingConnects) + 1
      ensures url == old(url) && nextId == old(nextId) && failing == old(failing)
    {
      ws := None;
      live := {};
      lockReconnect := false;
      pendingConnects := pendingConnects + 1;
    }

    /** One pending 1000 ms timer fires: `connect()`. */
    method ConnectTimerFires()
      requires Valid() && pendingConnects > 0
      modifies this
      ensures Valid()
      ensures pendingConnects == old(pendingConnects) - 1
      ensures old(ws).None? ==> && ws == Some(Socket(old(nextId), url, Connecting)) && lockReconnect
                                && nextId == old(nextId) + 1 && live == {old(nextId)}
      ensures old(ws).Some? ==> && ws == old(ws) && lockReconnect == old(lockReconnect)
                                && nextId == old(nextId) && live == old(live)
      ensures url == old(url) && failing == old(failing)
    {
      pendingConnects := pendingConnects - 1;
      Connect();
    }

    /** Detach `onclose`, close and forget the current socket, release the
        lock, `connect()` at once.  A socket closed while still connecting
        fails, and its `error` event is still due. */
    method Reconnect()
      requires Valid()
      modifies this
      ensures Valid()
      ensures ws == Some(Socket(old(nextId), url, Connecting)) && lockReconnect
      ensures nextId == old(nextId) + 1 && live == {old(nextId)}
      ensures old(ws).Some? ==> old(ws).value.id !in live
      ensures failing == if old(ws).Some? && old(ws).value.state == Connecting
                         then old(failing) + {old(ws).value.id} else old(failing)
      ensures url == old(url) && pendingConnects == old(pendingConnects)
    {
      if ws.Some? {
        live := live - {ws.value.id};
        if ws.value.state == Connecting {
          failing := failing + {ws.value.id};
        }
        ws := None;
      }
      lockReconnect := false;
      Connect();
    }

    /** A change of `wsUrl` in any storage area (this listener does not
        test the area): adopt it and `reconnect()`. */
    method ChangeUrl(newUrl: string)
      requires Valid()
      modifies this
      ensures Valid()
      ensures url == newUrl && ws == Some(Socket(old(nextId), newUrl, Connecting))
      ensures nextId == old(nextId) + 1
      ensures old(ws).Some? ==> old(ws).value.id !in live
      ensures failing == if old(ws).Some? && old(ws).value.state == Connecting
                         then old(failing) + {old(ws).value.id} else old(failing)
      ensures pendingConnects == old(pendingConnects)
    {
      url := newUrl;
      Reconnect();
    }

    /** The `keepAlive` alarm: without an OPEN socket, `connect()` (a no-op
        while a socket exists, so a connecting or closing socket is left
        alone); with one, a bare ping. */
    method KeepAlive(name: string) returns (sent: seq<Outbound>)
      requires Valid()
      modifies this
      ensures Valid()
      ensures name == KeepAliveAlarm && old(ws).None? ==>
                && sent == [] && ws == Some(Socket(old(nextId), url, Connecting)) && lockReconnect
                && nextId == old(nextId) + 1 && live == {old(nextId)}
      ensures name != KeepAliveAlarm || old(ws).Some? ==>
                && ws == old(ws) && lockReconnect == old(lockReconnect)
                && nextId == old(nextId) && live == old(live)
      ensures name != KeepAliveAlarm ==> sent == []
      ensures name == KeepAliveAlarm && old(ws).Some? ==>
                sent == if old(ws).value.state == Open then [BarePing] else []
      ensures url == old(url) && pendingConnects == old(pendingConnects) && failing == old(failing)
    {
      sent := [];
      if name == KeepAliveAlarm {
        if ws.None? || ws.value.state != Open {
          Connect();
        } else {
          sent := Send(BarePing);
        }
      }
    }

    /** The error event of socket `id`, as written: the handler closes
        `this.ws`, the CURRENT socket, whichever socket erred; when that
        socket was still connecting and is not the one that erred, its own
        error is now due.  With no current socket the handler throws a
        TypeError and changes nothing else. */
    method OnError(id: nat) returns (threw: bool)
      requires Valid() && (id in failing || (ws.Some? && ws.value.id == id))
      modifies this
      ensures Valid()
      ensures threw <==> old(ws).None?
      ensures failing == (old(failing) - {id}) +
                         (if old(ws).Some? && old(ws).value.state == Connecting && old(ws).value.id != id
                          then {old(ws).value.id} else {})
      ensures old(ws).Some? ==> ws == Some(old(ws).value.(state := Closing))
      ensures old(ws).None? ==> ws == old(ws)
      ensures lockReconnect == old(lockReconnect) && live == old(live) && nextId == old(nextId)
      ensures url == old(url) && pendingConnects == old(pendingConnects)
    {
      failing := failing - {id};
      if ws.None? {
        return true;
      }
      threw := false;
      if ws.value.state == Connecting && ws.value.id != id {
        failing := failing + {ws.value.id};
      }
      ws := Some(ws.value.(state := Closing));
    }

    /** The error event of socket `id`, closing the socket that erred:
        the current socket is closed only when it is the one that erred. */
    method OnErrorOwn(id: nat)
      requires Valid() && (id in failing || (ws.Some? && ws.value.id == id))
      modifies this
      ensures Valid()
      ensures failing == old(failing) - {id}
      ensures ws == if old(ws).Some? && old(ws).value.id == id
                    then Some(old(ws).value.(state := Closing)) else old(ws)
      ensures lockReconnect == old(lockReconnect) && live == old(live) && nextId == old(nextId)
      ensures url == old(url) && pendingConnects == old(pendingConnects)
    {
      failing := failing - {id};
      if ws.Some? && ws.value.id == id {
        ws := Some(ws.value.(state := Closing));
      }
    }
  }

  /** Two closes before any timer fires leave two pending connect timers. */
  method TwoClosesTwoTimers() returns (m: DraftWsManager)
    ensures m.Valid() && m.pendingConnects == 2
  {
    m := new DraftWsManager();
    m.Connect();
    m.OnClose(m.ws.value.id);
    var sent := m.KeepAlive(KeepAliveAlarm);
    m.OnClose(m.ws.value.id);
  }

  /** As written: a URL change while the first socket is still connecting
      retires it; its due error event then closes the replacement. */
  method StaleErrorClosesReplacement() returns (m: DraftWsManager, threw: bool)
    ensures m.Valid() && !threw
    ensures m.ws.Some? && m.ws.value.id == 1 && m.ws.value.state == Closing
    ensures m.failing == {1}
  {
    m := new DraftWsManager();
    m.Connect();
    m.ChangeUrl(DefaultWsUrl);
    threw := m.OnError(0);
  }

  /** As written, the failure propagates: the replacement closed while
      connecting still owes its error after a second URL change retires it,
      and that error closes the next socket. */
  method StaleErrorChain() returns (m: DraftWsManager)
    ensures m.Valid()
    ensures m.ws == Some(Socket(2, DefaultWsUrl, Closing)) && m.failing == {2}
  {
    m := new DraftWsManager();
    m.Connect();
    m.ChangeUrl(DefaultWsUrl);
    var threw := m.OnError(0);
    m.ChangeUrl(DefaultWsUrl);
    threw := m.OnError(1);
  }

  /** Corrected: the same events leave the replacement connecting. */
  method StaleErrorSpared() returns (m: DraftWsManager)
    ensures m.Valid()
    ensures m.ws == Some(Socket(1, DefaultWsUrl, Connecting))
  {
    m := new DraftWsManager();
    m.Connect();
    m.ChangeUrl(DefaultWsUrl);
    m.OnErrorOwn(0);
  }
}
