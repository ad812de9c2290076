/**
 * The client connection manager of `socketService.ts`: one socket or none,
 * a reconnect counter bounded by five with delays doubling from one second,
 * and helpers that send or listen only while a socket exists. Timers are
 * recorded as the delays they were scheduled with; a timer firing is a call
 * to `Connect`. Sockets are numbered handles.
 */
module SocketService {
  import opened Common

  /** A client socket: its handle, whether its `connect` event has fired, and its application listeners by event name. */
  datatype ClientSocket = ClientSocket(handle: nat, connected: bool, listeners: multiset<string>)

  /** What the helpers send to the server. */
  datatype ClientMessage =
    | SubscribeRoute(routeId: string)
    | UnsubscribeRoute(routeId: string)
    | SubscribeBus(busId: string)
    | UnsubscribeBus(busId: string)
    | SubscribeArea(latitude: real, longitude: real, radius: Option<real>)
    | ShareLocation(busId: string, latitude: real, longitude: real, speed: Option<real>, direction: Option<real>)
    | UpdateOccupancy(busId: string, occupiedSeats: int, totalSeats: int)
    | SendAlert(alertType: string, message: string, alertRouteId: Option<string>, alertBusId: Option<string>,
                severity: Option<string>)
    | Ping

  const MaxReconnectAttempts: nat := 5
  const ReconnectDelay: nat := 1000

  function Pow2(k: nat): (p: nat)
    ensures p >= 1
  {
    if k == 0 then 1 else 2 * Pow2(k - 1)
  }

  /** The wait before the `attempt`-th reconnect: `reconnectDelay * 2^(attempt - 1)`. */
  function Delay(attempt: nat): (d: nat)
    requires attempt >= 1
    ensures d >= ReconnectDelay
  {
    ReconnectDelay * Pow2(attempt - 1)
  }

  /**
   * The delays `n` failures in a row schedule, starting from `attempts`
   * earlier ones: one per failure until the counter reaches five, then none.
   */
  function Backoff(attempts: nat, n: nat): (ds: seq<nat>)
    ensures |ds| == if attempts >= MaxReconnectAttempts then 0
                    else if n <= MaxReconnectAttempts - attempts then n else MaxReconnectAttempts - attempts
    decreases n
  {
    if n == 0 || attempts >= MaxReconnectAttempts then []
    else [Delay(attempts + 1)] + Backoff(attempts + 1, n - 1)
  }

  /** From a fresh counter, any run of five or more failures waits 1, 2, 4, 8 and 16 seconds, and then gives up. */
  lemma FreshBackoff(n: nat)
    requires n >= 5
    ensures Backoff(0, n) == [1000, 2000, 4000, 8000, 16000]
  {
    assert Pow2(4) == 16 && Pow2(3) == 8 && Pow2(2) == 4 && Pow2(1) == 2;
    assert Backoff(5, n - 5) == [];
    assert Backoff(4, n - 4) == [16000];
    assert Backoff(3, n - 3) == [8000, 16000];
    assert Backoff(2, n - 2) == [4000, 8000, 16000];
    assert Backoff(1, n - 1) == [2000, 4000, 8000, 16000];
  }

  /** Every delay lies between one and sixteen seconds, each twice the one before. */
  lemma {:induction false} BackoffBounds(attempts: nat, n: nat)
    ensures forall i :: 0 <= i < |Backoff(attempts, n)| ==> 1000 <= Backoff(attempts, n)[i] <= 16000
    ensures forall i :: 0 < i < |Backoff(attempts, n)| ==> Backoff(attempts, n)[i] == 2 * Backoff(attempts, n)[i - 1]
    decreases n
  {
    if n > 0 && attempts < MaxReconnectAttempts {
      BackoffBounds(attempts + 1, n - 1);
      assert Pow2(4) == 16;
      assert Pow2(attempts) <= 16 by {
        if attempts < 4 { PowMonotone(attempts, 4); }
      }
      if n > 1 && attempts + 1 < MaxReconnectAttempts {
        assert Backoff(attempts, n)[1] == Delay(attempts + 2);
      }
    }
  }

  lemma {:induction false} PowMonotone(j: nat, k: nat)
    requires j <= k
    ensures Pow2(j) <= Pow2(k)
    decreases k
  {
    if j < k {
      PowMonotone(j, k - 1);
    }
  }

  class Service {
    var socket: Option<ClientSocket>
    var reconnectAttempts: nat
    /** The delays of the reconnect timers scheduled so far, in order. */
    var scheduled: seq<nat>
    /** Messages sent, with the handle of the socket that sent them. */
    var sent: seq<(nat, ClientMessage)>

    ghost predicate Valid()
      reads this
    {
      && reconnectAttempts <= MaxReconnectAttempts
      && forall i :: 0 <= i < |scheduled| ==> 1000 <= scheduled[i] <= 16000
    }

    /** A new service: no socket, no attempts. */
    constructor()
      ensures socket.None? && reconnectAttempts == 0 && scheduled == [] && sent == []
      ensures Valid()
    {
      socket := None;
      reconnectAttempts := 0;
      scheduled := [];
      sent := [];
    }

    /** `connect`: a new socket replaces the field (the old one is not closed); not yet connected. */
    method Connect(handle: nat)
      requires Valid()
      modifies this
      ensures socket == Some(ClientSocket(handle, false, multiset{}))
      ensures reconnectAttempts == old(reconnectAttempts) && scheduled == old(scheduled) && sent == old(sent)
      ensures Valid()
    {
      socket := Some(ClientSocket(handle, false, multiset{}));
    }

    /** The socket's `connect` event: the counter goes back to zero. */
    method OnConnected()
      requires Valid()
      modifies this
      ensures reconnectAttempts == 0
      ensures old(socket).Some? ==> socket == Some(old(socket).value.(connected := true))
      ensures old(socket).None? ==> socket.None?
      ensures scheduled == old(scheduled) && sent == old(sent)
      ensures Valid()
    {
      reconnectAttempts := 0;
      if socket.Some? {
        socket := Some(socket.value.(connected := true));
      }
    }

    /**
     * `handleReconnect`: below five attempts, count one more and schedule a
     * reconnect after the doubled delay; at five, nothing.
     */
    method HandleReconnect()
      requires Valid()
      modifies this
      ensures scheduled == old(scheduled) + Backoff(old(reconnectAttempts), 1)
      ensures old(reconnectAttempts) < MaxReconnectAttempts ==> reconnectAttempts == old(reconnectAttempts) + 1
      ensures old(reconnectAttempts) >= MaxReconnectAttempts ==> reconnectAttempts == old(reconnectAttempts)
      ensures socket == old(socket) && sent == old(sent)
      ensures Valid()
    {
      BackoffBounds(reconnectAttempts, 1);
      if reconnectAttempts < MaxReconnectAttempts {
        reconnectAttempts := reconnectAttempts + 1;
        var delay := ReconnectDelay * Pow2(reconnectAttempts - 1);
        scheduled := scheduled + [delay];
      }
    }

    /**
     * The socket's `disconnect` event. Socket.io has already marked the socket
     * disconnected when the event fires, whatever the reason; only a
     * disconnect the server initiated triggers a reconnect.
     */
    method OnDisconnect(reason: string)
      requires Valid()
      modifies this
      ensures reason == "io server disconnect" ==> scheduled == old(scheduled) + Backoff(old(reconnectAttempts), 1)
      ensures reason == "io server disconnect" ==>
                reconnectAttempts == if old(reconnectAttempts) < MaxReconnectAttempts then old(reconnectAttempts) + 1
                                     else old(reconnectAttempts)
      ensures reason != "io server disconnect" ==> scheduled == old(scheduled) && reconnectAttempts == old(reconnectAttempts)
      ensures old(socket).Some? ==> socket == Some(old(socket).value.(connected := false))
      ensures old(socket).None? ==> socket.None?
      ensures !IsConnected()
      ensures sent == old(sent)
      ensures Valid()
    {
      if socket.Some? {
        socket := Some(socket.value.(connected := false));
      }
      if reason == "io server disconnect" {
        HandleReconnect();
      }
    }

    /** The socket's `connect_error` event: always a reconnect attempt (the pending `connect` promise is rejected). */
    method OnConnectError()
      requires Valid()
      modifies this
      ensures scheduled == old(scheduled) + Backoff(old(reconnectAttempts), 1)
      ensures reconnectAttempts == if old(reconnectAttempts) < MaxReconnectAttempts then old(reconnectAttempts) + 1
                                   else old(reconnectAttempts)
      ensures socket == old(socket) && sent == old(sent)
      ensures Valid()
    {
      HandleReconnect();
    }

    /** `disconnect`: the socket, if any, is dropped; with none it does nothing. */
    method Disconnect()
      modifies this
      ensures socket.None?
      ensures reconnectAttempts == old(reconnectAttempts) && scheduled == old(scheduled) && sent == old(sent)
    {
      if socket.Some? {
        socket := None;
      }
    }

    /** Every subscribe and emit helper: sent on the current socket, or dropped when there is none. */
    method Send(message: ClientMessage)
      modifies this
      ensures old(socket).None? ==> sent == old(sent)
      ensures old(socket).Some? ==> sent == old(sent) + [(old(socket).value.handle, message)]
      ensures socket == old(socket) && reconnectAttempts == old(reconnectAttempts) && scheduled == old(scheduled)
    {
      if socket.Some? {
        sent := sent + [(socket.value.handle, message)];
      }
    }

    /** The `on…` helpers: one more listener for the event, when there is a socket. */
    method Listen(event: string)
      modifies this
      ensures old(socket).None? ==> socket.None?
      ensures old(socket).Some? ==> socket == Some(old(socket).value.(listeners := old(socket).value.listeners + multiset{event}))
      ensures reconnectAttempts == old(reconnectAttempts) && scheduled == old(scheduled) && sent == old(sent)
    {
      if socket.Some? {
        socket := Some(socket.value.(listeners := socket.value.listeners + multiset{event}));
      }
    }

    /** The `off…` helpers: `off(event)` without a callback removes every listener for the event. */
    method StopListening(event: string)
      modifies this
      ensures old(socket).None? ==> socket.None?
      ensures old(socket).Some? ==> socket == Some(old(socket).value.(listeners := old(socket).value.listeners[event := 0]))
      ensures socket.Some? ==> socket.value.listeners[event] == 0
      ensures reconnectAttempts == old(reconnectAttempts) && scheduled == old(scheduled) && sent == old(sent)
    {
      if socket.Some? {
        socket := Some(socket.value.(listeners := socket.value.listeners[event := 0]));
      }
    }

    /** `isConnected`: a socket exists and its `connect` event has fired. */
    function IsConnected(): (b: bool)
      reads this
      ensures b <==> socket.Some? && socket.value.connected
    {
      socket.Some? && socket.value.connected
    }
  }

  /** Six failed connections in a row, from a fresh service: five timers of 1 to 16 seconds, then none. */
  method FailFiveTimes() returns (s: Service)
    ensures s.scheduled == [1000, 2000, 4000, 8000, 16000] && s.reconnectAttempts == 5
  {
    s := new Service();
    var k := 0;
    while k < 6
      invariant 0 <= k <= 6 && s.Valid()
      invariant s.reconnectAttempts == if k < 5 then k else 5
      invariant s.scheduled == Backoff(0, k)
      modifies s
    {
      BackoffPrefix(k);
      s.HandleReconnect();
      k := k + 1;
    }
    FreshBackoff(6);
  }

  /**
   * A socket that connected and then dropped, for any reason, no longer
   * reports itself connected; only a server-initiated drop schedules the
   * one-second reconnect.
   */
  method DropAfterConnect(handle: nat, reason: string) returns (s: Service, connected: bool)
    ensures !connected
    ensures s.scheduled == if reason == "io server disconnect" then [1000] else []
    ensures s.reconnectAttempts == if reason == "io server disconnect" then 1 else 0
  {
    s := new Service();
    s.Connect(handle);
    s.OnConnected();
    assert s.IsConnected();
    s.OnDisconnect(reason);
    connected := s.IsConnected();
  }

  /** One more failure extends the schedule of `k` by the next step of the backoff. */
  lemma BackoffPrefix(k: nat)
    ensures Backoff(0, k + 1) == Backoff(0, k) + Backoff(if k < 5 then k else 5, 1)
  {
    BackoffSplit(0, k);
  }

  lemma {:induction false} BackoffSplit(attempts: nat, k: nat)
    ensures Backoff(attempts, k + 1) ==
            Backoff(attempts, k) + Backoff(if attempts + k < 5 then attempts + k else (if attempts > 5 then attempts else 5), 1)
    decreases k
  {
    if k > 0 && attempts < MaxReconnectAttempts {
      BackoffSplit(attempts + 1, k - 1);
    }
  }
}
