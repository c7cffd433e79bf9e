/**
 * The browser's connection to the server: one lazily created socket shared
 * by the whole page, a fire-and-forget audio send that drops frames while the
 * socket is not connected, and event subscriptions that hand back their own
 * unsubscribe.  The network itself is left out: a connection coming up or
 * going down is an input (`TransportUp`, `TransportDown`).
 */
module ClientSocket {
  import opened Optional

  newtype byte = b: int | 0 <= b < 256

  /** One encoded slice of recorded audio; its `size` is its length. */
  type Blob = seq<byte>

  /** The connection options the socket is created with. */
  datatype Options = Options(
    autoConnect: bool,
    reconnection: bool,
    reconnectionDelayMs: nat,
    reconnectionDelayMaxMs: nat,
    reconnectionAttempts: nat)

  const SocketOptions: Options := Options(false, true, 1000, 5000, 5)

  /** The server address used when no NEXT_PUBLIC_SOCKET_URL is configured. */
  const DefaultSocketUrl: string := "http://localhost:4000"

  /**
   * The address the socket is created for: the configured NEXT_PUBLIC_SOCKET_URL
   * unless it is unset or empty (both count as false for JavaScript's `||`),
   * in which case the default.
   */
  function SocketUrl(configured: Option<string>): (url: string)
    ensures url != ""
    ensures url == DefaultSocketUrl || configured == Some(url)
    ensures configured.Some? && configured.value != "" ==> url == configured.value
  {
    if configured.Some? && configured.value != "" then configured.value else DefaultSocketUrl
  }

  /** Events a listener may be registered for. */
  datatype EventName =
    | ConnectEvent | DisconnectEvent | ConnectErrorEvent | DeepgramReadyEvent
    | TranscriptEvent | ProcessingEvent | CompletedEvent

  /** A registered callback; `Logger` stands for the socket's own logging handlers. */
  datatype Listener = Logger | Handler(id: nat)

  /** Removes the first occurrence of `x`, as the event emitter's `off` does. */
  function RemoveFirst(s: seq<Listener>, x: Listener): (r: seq<Listener>)
  {
    if s == [] then []
    else if s[0] == x then s[1..]
    else [s[0]] + RemoveFirst(s[1..], x)
  }

  /** `off` removes one registration of the callback and leaves every other one in place. */
  lemma {:induction false} RemoveFirstMultiset(s: seq<Listener>, x: Listener)
    requires x in s
    ensures multiset(RemoveFirst(s, x)) == multiset(s) - multiset{x}
  {
    assert s == [s[0]] + s[1..];
    if s[0] != x {
      RemoveFirstMultiset(s[1..], x);
      var rest := RemoveFirst(s[1..], x);
      assert multiset([s[0]] + rest) == multiset{s[0]} + multiset(rest);
      assert multiset(s) == multiset{s[0]} + multiset(s[1..]);
    }
  }

  /** Unsubscribing a callback that is not registered changes nothing. */
  lemma {:induction false} RemoveFirstAbsent(s: seq<Listener>, x: Listener)
    requires x !in s
    ensures RemoveFirst(s, x) == s
  {
    if s != [] {
      assert s == [s[0]] + s[1..];
      RemoveFirstAbsent(s[1..], x);
    }
  }

  /** `off` removes the first occurrence at `i` and keeps the order of the callbacks it does not remove. */
  lemma {:induction false} RemoveFirstAt(s: seq<Listener>, x: Listener, i: nat)
    requires i < |s| && s[i] == x && x !in s[..i]
    ensures RemoveFirst(s, x) == s[..i] + s[i + 1..]
    decreases i
  {
    if i > 0 {
      assert s[0] in s[..i];
      var t := s[1..];
      assert t[..i - 1] == s[1..i] && t[i..] == s[i + 1..];
      assert x !in t[..i - 1];
      RemoveFirstAt(t, x, i - 1);
      assert s[..i] == [s[0]] + t[..i - 1];
    }
  }

  /** Subscribing a new callback and then calling its unsubscribe restores the listener list exactly. */
  lemma {:induction false} SubscribeThenUnsubscribe(s: seq<Listener>, x: Listener)
    requires x !in s
    ensures RemoveFirst(s + [x], x) == s
  {
    if s != [] {
      assert (s + [x])[1..] == s[1..] + [x];
      SubscribeThenUnsubscribe(s[1..], x);
    }
  }

  class Socket {
    const url: string
    const options: Options
    /** Whether the transport is currently connected. */
    var connected: bool
    /** Whether `connect()` was asked for since the last `disconnect()`. */
    var active: bool
    /** Every `audio-chunk` frame handed to the transport, in order. */
    var sent: seq<Blob>
    var listeners: map<EventName, seq<Listener>>

    function Listeners(e: EventName): seq<Listener>
      reads this
    {
      Lookup(listeners, e)
    }

    /** `io(url, options)` followed by the three logging handlers. */
    constructor (url: string)
      ensures this.url == url && options == SocketOptions
      ensures !connected && !active && sent == []
      ensures listeners == InitialListeners()
    {
      this.url := url;
      options := SocketOptions;
      connected := false;
      active := false;
      sent := [];
      listeners := InitialListeners();
    }

    method On(e: EventName, l: Listener)
      modifies this
      ensures listeners == Registered(old(listeners), e, l)
      ensures connected == old(connected) && active == old(active) && sent == old(sent)
    {
      listeners := listeners[e := Listeners(e) + [l]];
    }

    method Off(e: EventName, l: Listener)
      modifies this
      ensures listeners == Unregistered(old(listeners), e, l)
      ensures connected == old(connected) && active == old(active) && sent == old(sent)
    {
      var remaining := RemoveFirst(Listeners(e), l);
      if remaining == [] {
        listeners := listeners - {e};
      } else {
        listeners := listeners[e := remaining];
      }
    }

    /** `socket.connect()`: the connection comes up later, through `TransportUp`. */
    method Connect()
      modifies this
      ensures active && connected == old(connected)
      ensures sent == old(sent) && listeners == old(listeners)
    {
      active := true;
    }

    method Disconnect()
      modifies this
      ensures !active && !connected
      ensures sent == old(sent) && listeners == old(listeners)
    {
      active := false;
      connected := false;
    }

    /**
     * The network delivers a connection (first connect or a reconnection).
     * With `autoConnect` off, that happens only once `connect()` was asked for.
     */
    method TransportUp()
      requires active
      modifies this
      ensures connected && active == old(active)
      ensures sent == old(sent) && listeners == old(listeners)
    {
      connected := true;
    }

    /** The network drops the connection. */
    method TransportDown()
      modifies this
      ensures !connected && active == old(active)
      ensures sent == old(sent) && listeners == old(listeners)
    {
      connected := false;
    }

    method Emit(blob: Blob)
      modifies this
      ensures sent == old(sent) + [blob]
      ensures connected == old(connected) && active == old(active) && listeners == old(listeners)
    {
      sent := sent + [blob];
    }
  }

  /** What a subscription hands back: calling `Unsubscribe` with it removes that callback. */
  datatype Subscription = Subscription(socket: Socket, event: EventName, listener: Listener)

  /** The module-level singleton `socket` variable and the functions around it. */
  class SocketModule {
    /** The build's NEXT_PUBLIC_SOCKET_URL setting, if any. */
    const configuredUrl: Option<string>
    var socket: Socket?

    constructor (configuredUrl: Option<string>)
      ensures this.configuredUrl == configuredUrl && socket == null
    {
      this.configuredUrl := configuredUrl;
      socket := null;
    }

    /** The listener table the next subscription will extend (a fresh socket's when none exists yet). */
    function Table(): map<EventName, seq<Listener>>
      reads this, socket
    {
      if socket == null then InitialListeners() else socket.listeners
    }

    method InitializeSocket() returns (s: Socket)
      modifies this
      ensures old(socket) != null ==> s == old(socket)
      ensures old(socket) == null ==> fresh(s) && !s.connected && !s.active && s.sent == []
                                      && s.listeners == InitialListeners()
                                      && s.url == SocketUrl(configuredUrl) && s.options == SocketOptions
      ensures socket == s
    {
      if socket != null {
        return socket;
      }
      s := new Socket(SocketUrl(configuredUrl));
      socket := s;
    }

    /** Returns the one shared socket, creating it on first use. */
    method GetSocket() returns (s: Socket)
      modifies this
      ensures old(socket) != null ==> s == old(socket)
      ensures old(socket) == null ==> fresh(s) && !s.connected && !s.active && s.sent == []
                                      && s.listeners == InitialListeners()
                                      && s.url == SocketUrl(configuredUrl) && s.options == SocketOptions
      ensures socket == s
    {
      if socket == null {
        s := InitializeSocket();
        return;
      }
      s := socket;
    }

    /** Disconnects and forgets the shared socket; with none, does nothing. */
    method DisconnectSocket()
      modifies this, socket
      ensures socket == null
      ensures old(socket) != null ==> !old(socket).connected && !old(socket).active
                                      && old(socket).sent == old(socket.sent)
                                      && old(socket).listeners == old(socket.listeners)
    {
      if socket != null {
        socket.Disconnect();
        socket := null;
      }
    }

    /** Sends one `audio-chunk` when connected; otherwise the frame is lost, not queued. */
    method EmitAudioChunk(blob: Blob)
      modifies this, socket
      ensures old(socket) != null ==> socket == old(socket)
      ensures old(socket) != null ==> socket.sent == if old(socket.connected) then old(socket.sent) + [blob] else old(socket.sent)
      ensures old(socket) != null ==> socket.connected == old(socket.connected) && socket.active == old(socket.active)
                                      && socket.listeners == old(socket.listeners)
      ensures old(socket) == null ==> fresh(socket) && socket.sent == [] && !socket.connected && !socket.active
                                      && socket.listeners == InitialListeners()
    {
      var s := GetSocket();
      if s.connected {
        s.Emit(blob);
      }
    }

    method Subscribe(e: EventName, l: Listener) returns (sub: Subscription)
      modifies this, socket
      ensures socket != null && sub == Subscription(socket, e, l)
      ensures old(socket) != null ==> socket == old(socket)
      ensures old(socket) == null ==> fresh(socket)
      ensures socket.listeners == Registered(old(Table()), e, l)
      ensures socket.connected == old(socket != null && socket.connected)
      ensures socket.active == old(socket != null && socket.active)
      ensures socket.sent == old(if socket == null then [] else socket.sent)
    {
      var s := GetSocket();
      s.On(e, l);
      sub := Subscription(s, e, l);
    }

    method OnTranscript(l: Listener) returns (sub: Subscription)
      modifies this, socket
      ensures socket != null && sub == Subscription(socket, TranscriptEvent, l)
      ensures old(socket) != null ==> socket == old(socket)
      ensures old(socket) == null ==> fresh(socket)
      ensures socket.listeners == Registered(old(Table()), TranscriptEvent, l)
      ensures socket.connected == old(socket != null && socket.connected)
      ensures socket.active == old(socket != null && socket.active)
      ensures socket.sent == old(if socket == null then [] else socket.sent)
    {
      sub := Subscribe(TranscriptEvent, l);
    }

    method OnProcessing(l: Listener) returns (sub: Subscription)
      modifies this, socket
      ensures socket != null && sub == Subscription(socket, ProcessingEvent, l)
      ensures old(socket) != null ==> socket == old(socket)
      ensures old(socket) == null ==> fresh(socket)
      ensures socket.listeners == Registered(old(Table()), ProcessingEvent, l)
      ensures socket.connected == old(socket != null && socket.connected)
      ensures socket.active == old(socket != null && socket.active)
      ensures socket.sent == old(if socket == null then [] else socket.sent)
    {
      sub := Subscribe(ProcessingEvent, l);
    }

    method OnCompleted(l: Listener) returns (sub: Subscription)
      modifies this, socket
      ensures socket != null && sub == Subscription(socket, CompletedEvent, l)
      ensures old(socket) != null ==> socket == old(socket)
      ensures old(socket) == null ==> fresh(socket)
      ensures socket.listeners == Registered(old(Table()), CompletedEvent, l)
      ensures socket.connected == old(socket != null && socket.connected)
      ensures socket.active == old(socket != null && socket.active)
      ensures socket.sent == old(if socket == null then [] else socket.sent)
    {
      sub := Subscribe(CompletedEvent, l);
    }
  }

  /** The callbacks registered for `e` in a listener table. */
  function Lookup(table: map<EventName, seq<Listener>>, e: EventName): seq<Listener> {
    if e in table then table[e] else []
  }

  /** The table after `on(e, l)`: `l` is called after every earlier callback for `e`. */
  function Registered(table: map<EventName, seq<Listener>>, e: EventName, l: Listener): map<EventName, seq<Listener>> {
    table[e := Lookup(table, e) + [l]]
  }

  /** The table after `off(e, l)`: one registration of `l` goes; an event left without callbacks is dropped. */
  function Unregistered(table: map<EventName, seq<Listener>>, e: EventName, l: Listener): map<EventName, seq<Listener>> {
    var remaining := RemoveFirst(Lookup(table, e), l);
    if remaining == [] then table - {e} else table[e := remaining]
  }

  /** No event is kept with an empty callback list. */
  predicate NoEmptyEntries(table: map<EventName, seq<Listener>>) {
    forall e :: e in table ==> table[e] != []
  }

  /**
   * The unsubscribe handed back by a subscription undoes it: for a callback
   * not yet registered for that event, the listener table is exactly what it
   * was before subscribing, whatever else is registered.
   */
  lemma SubscribeThenUnsubscribeTable(table: map<EventName, seq<Listener>>, e: EventName, l: Listener)
    requires NoEmptyEntries(table)
    requires l !in Lookup(table, e)
    ensures Unregistered(Registered(table, e, l), e, l) == table
    ensures NoEmptyEntries(Registered(table, e, l))
  {
    SubscribeThenUnsubscribe(Lookup(table, e), l);
  }

  /** Unsubscribing keeps the table free of empty entries. */
  lemma UnregisteredKeepsNoEmptyEntries(table: map<EventName, seq<Listener>>, e: EventName, l: Listener)
    requires NoEmptyEntries(table)
    ensures NoEmptyEntries(Unregistered(table, e, l))
  {
  }

  /** The listener table of a freshly created socket. */
  function InitialListeners(): map<EventName, seq<Listener>> {
    map[ConnectEvent := [Logger], DisconnectEvent := [Logger], ConnectErrorEvent := [Logger]]
  }

  /** The unsubscribe returned by a subscription: removes that one callback from that socket. */
  method Unsubscribe(sub: Subscription)
    modifies sub.socket
    ensures sub.socket.listeners == Unregistered(old(sub.socket.listeners), sub.event, sub.listener)
    ensures sub.socket.connected == old(sub.socket.connected) && sub.socket.active == old(sub.socket.active)
    ensures sub.socket.sent == old(sub.socket.sent)
  {
    sub.socket.Off(sub.event, sub.listener);
  }

  /** `getSocket` hands out one instance until `disconnectSocket`; the next call then creates a new one. */
  method OneSocketUntilDisconnect() returns (first: Socket, second: Socket, third: Socket)
    ensures first == second && third != first
    ensures !first.connected && !first.active
    ensures !third.connected && third.listeners == InitialListeners()
  {
    var m := new SocketModule(None);
    first := m.GetSocket();
    second := m.GetSocket();
    m.DisconnectSocket();
    third := m.GetSocket();
  }

  /** A transcript callback subscribed on a new socket and then unsubscribed leaves only the logging handlers. */
  method TranscriptSubscriptionUndone() returns (before: map<EventName, seq<Listener>>, during: seq<Listener>, after: map<EventName, seq<Listener>>)
    ensures during == [Handler(7)]
    ensures before == after == InitialListeners()
  {
    var m := new SocketModule(None);
    before := m.Table();
    var sub := m.OnTranscript(Handler(7));
    during := sub.socket.Listeners(TranscriptEvent);
    assert TranscriptEvent !in InitialListeners();
    Unsubscribe(sub);
    SubscribeThenUnsubscribeTable(InitialListeners(), TranscriptEvent, Handler(7));
    after := sub.socket.listeners;
  }
}
