/** The client object: session flags and reconnect timer, the replica and its
    observers, and the request ledger, updated in place by the public calls,
    the socket events and the message handler. Callbacks and notifications
    are not run; each run is appended to a ghost record instead. */
module Client {
  import opened Values
  import opened Decimal
  import opened Settings
  import opened Protocol
  import opened Replica
  import opened Observers
  import opened Ledger

  /** The handle `observe` returns; its `stop()` is `RemoveObserver`. */
  datatype Observer = Observer(name: string, id: nat)

  /** At most one reconnect timer is live: the one whose handle is in the
      slot. */
  ghost predicate TimerInv(live: set<nat>, slot: Option<nat>) {
    forall t | t in live :: slot == Some(t)
  }

  /** Each collection's observer ids are kept in ascending order. */
  ghost predicate ObserversInv(observers: map<string, seq<nat>>) {
    forall name | name in observers :: Ascending(observers[name])
  }

  class DdpClient {
    const config: Config

    // session state
    var autoReconnect: bool
    var ddpVersion: string
    var session: Option<string>
    var isConnecting: bool
    var isReconnecting: bool
    var connectionFailed: bool
    var isClosing: bool
    /** Whether `connect` was given a callback whose "connected" and "failed"
        listeners are installed. */
    var hasConnectListener: bool
    /** The current socket, by generation number. */
    var socket: Option<nat>
    var socketCount: nat
    /** The handle of the last scheduled reconnect timer (`reconnectTimeout`). */
    var reconnectTimeout: Option<nat>
    var timerCount: nat

    // replica
    var collections: Option<Store>
    var observers: map<string, seq<nat>>

    // request ledger
    var nextId: nat
    var callbacks: map<string, Handler>
    var updatedCallbacks: map<string, Handler>
    var pendingMethods: set<string>

    /** Every id `GetNextId` has handed out. */
    ghost var issued: set<string>
    /** The reconnect timers scheduled and neither fired nor cancelled. */
    ghost var liveTimers: set<nat>
    ghost var outbox: seq<Sent>
    /** The runs of result-table entries, in order. */
    ghost var resultLog: seq<Firing>
    /** The ids whose updated-table entry ran, in order. */
    ghost var updatedLog: seq<string>
    ghost var notices: seq<Notification>
    ghost var reports: seq<ConnectReport>
    ghost var dials: seq<Dial>

    ghost predicate Valid()
      reads this`collections, this`issued, this`nextId, this`callbacks, this`updatedCallbacks
      reads this`pendingMethods, this`resultLog, this`updatedLog, this`liveTimers, this`reconnectTimeout
      reads this`observers
    {
      ReplicaValid() && LedgerValid() && TimerValid() && ObserversValid()
    }

    /** A replica exists exactly when collections are maintained. */
    ghost predicate ReplicaValid()
      reads this`collections
    {
      config.maintainCollections <==> collections.Some?
    }

    ghost predicate LedgerValid()
      reads this`issued, this`nextId, this`callbacks, this`updatedCallbacks, this`pendingMethods
      reads this`resultLog, this`updatedLog
    {
      && IdsInv(issued, nextId)
      && TablesInv(issued, callbacks, updatedCallbacks, pendingMethods)
      && ResultLogInv(issued, callbacks, resultLog)
      && UpdatedLogInv(issued, updatedCallbacks, updatedLog)
    }

    ghost predicate TimerValid()
      reads this`liveTimers, this`reconnectTimeout
    {
      TimerInv(liveTimers, reconnectTimeout)
    }

    ghost predicate ObserversValid()
      reads this`observers
    {
      ObserversInv(observers)
    }

    function ObserversOf(name: string): seq<nat>
      reads this
    {
      if name in observers then observers[name] else []
    }

    constructor (opts: Options)
      ensures Valid()
      ensures config == Configure(opts)
      ensures autoReconnect == config.autoReconnect && ddpVersion == config.ddpVersion
      ensures collections == (if config.maintainCollections then Some(map[]) else None)
      ensures !isConnecting && !isReconnecting && !connectionFailed && !isClosing && !hasConnectListener
      ensures session == None && socket == None && socketCount == 0
      ensures reconnectTimeout == None && timerCount == 0 && liveTimers == {}
      ensures nextId == 0 && callbacks == map[] && updatedCallbacks == map[] && pendingMethods == {}
      ensures observers == map[] && issued == {}
      ensures outbox == [] && resultLog == [] && updatedLog == [] && notices == [] && reports == [] && dials == []
    {
      config := Configure(opts);
      autoReconnect := Configure(opts).autoReconnect;
      ddpVersion := Configure(opts).ddpVersion;
      session := None;
      collections := if Configure(opts).maintainCollections then Some(map[]) else None;
      isConnecting, isReconnecting, connectionFailed, isClosing := false, false, false, false;
      hasConnectListener := false;
      socket, socketCount := None, 0;
      reconnectTimeout, timerCount := None, 0;
      observers := map[];
      nextId := 0;
      callbacks, updatedCallbacks, pendingMethods := map[], map[], {};
      issued, liveTimers := {}, {};
      outbox, resultLog, updatedLog, notices, reports, dials := [], [], [], [], [], [];
    }

    // ------------------------------------------------------------------
    // Effects shared by several handlers

    /** What `connect` does to the session and the transport. */
    twostate predicate Redialed()
      reads this
    {
      && isConnecting && !connectionFailed && !isClosing
      && (config.useSockJs ==>
            socket == old(socket) && socketCount == old(socketCount) && dials == old(dials) + [InfoProbe])
      && (!config.useSockJs ==>
            && socketCount == old(socketCount) + 1 && socket == Some(socketCount)
            && dials == old(dials) + [Opened(socketCount, BuildWsUrl(config, None))])
    }

    /** What the "failed" listener does, when `connect` installed one. */
    twostate predicate FailureReported(error: string)
      reads this
    {
      if hasConnectListener then
        && !isConnecting && connectionFailed
        && reports == old(reports) + [ConnectReport(Some(error), old(isReconnecting))]
      else
        isConnecting == old(isConnecting) && connectionFailed == old(connectionFailed) && reports == old(reports)
    }

    /** What the "connected" listener does, when `connect` installed one. */
    twostate predicate SuccessReported()
      reads this
    {
      if hasConnectListener then
        && reconnectTimeout == None && liveTimers == {}
        && reports == old(reports) + [ConnectReport(None, old(isReconnecting))]
        && !isConnecting && !isReconnecting
      else
        && reconnectTimeout == old(reconnectTimeout) && liveTimers == old(liveTimers)
        && reports == old(reports) && isConnecting == old(isConnecting) && isReconnecting == old(isReconnecting)
    }

    /** The reconnect policy: schedule one attempt, replacing any earlier one,
        unless reconnection is off, the connection failed or the client is
        closing. */
    twostate predicate ReconnectPolicy()
      reads this
    {
      if autoReconnect && !connectionFailed && !isClosing then
        && timerCount == old(timerCount) + 1 && reconnectTimeout == Some(timerCount)
        && liveTimers == {timerCount} && isReconnecting
      else
        && timerCount == old(timerCount) && reconnectTimeout == old(reconnectTimeout)
        && liveTimers == old(liveTimers) && isReconnecting == old(isReconnecting)
    }

    /** Every pending method call ended with the disconnection error, in
        ascending id order. */
    twostate predicate PendingCallsEnded(order: seq<string>)
      reads this
    {
      && pendingMethods == {}
      && callbacks == old(callbacks) - old(pendingMethods)
      && updatedCallbacks == old(updatedCallbacks) - old(pendingMethods)
      && SetOf(order) == old(pendingMethods) && IncreasingBy(order, DecimalValue)
      && resultLog == old(resultLog) + ResultFirings(order, Disconnected)
      && updatedLog == old(updatedLog) + order
    }

    // ------------------------------------------------------------------
    // Ids, sending, observers

    method GetNextId() returns (id: string)
      requires LedgerValid()
      modifies this`nextId, this`issued
      ensures LedgerValid()
      ensures nextId == old(nextId) + 1 && id == DecimalString(nextId)
      ensures id !in old(issued) && issued == old(issued) + {id}
    {
      NextIdFresh(nextId);
      nextId := nextId + 1;
      id := DecimalString(nextId);
      issued := issued + {id};
    }

    /** `_send`: write to the current socket; with no socket the source
        throws. */
    method Send(e: Envelope) returns (outcome: Outcome)
      modifies this`outbox
      ensures outcome == if socket.Some? then Returned else Threw(NoSocketError)
      ensures outbox == old(outbox) + if socket.Some? then [Sent(socket.value, e)] else []
    {
      if socket.Some? {
        outbox := outbox + [Sent(socket.value, e)];
        outcome := Returned;
      } else {
        outcome := Threw(NoSocketError);
      }
    }

    method AddObserver(o: Observer)
      requires ObserversValid()
      modifies this`observers
      ensures ObserversValid()
      ensures observers == old(observers)[o.name := Insert(old(ObserversOf(o.name)), o.id)]
    {
      if o.name !in observers {
        observers := observers[o.name := []];
      }
      observers := observers[o.name := Insert(observers[o.name], o.id)];
    }

    method RemoveObserver(o: Observer)
      requires ObserversValid()
      modifies this`observers
      ensures ObserversValid()
      ensures observers == if o.name in old(observers)
                           then old(observers)[o.name := Remove(old(observers)[o.name], o.id)]
                           else old(observers)
    {
      if o.name !in observers {
        return;
      }
      observers := observers[o.name := Remove(observers[o.name], o.id)];
    }

    method Observe(name: string) returns (o: Observer)
      requires LedgerValid() && ObserversValid()
      modifies this`nextId, this`issued, this`observers
      ensures LedgerValid() && ObserversValid()
      ensures nextId == old(nextId) + 1 && o == Observer(name, nextId)
      ensures DecimalString(nextId) !in old(issued) && issued == old(issued) + {DecimalString(nextId)}
      ensures observers == old(observers)[name := Insert(old(ObserversOf(name)), nextId)]
    {
      var id := GetNextId();
      o := Observer(name, nextId);
      AddObserver(o);
    }

    /** Deliver a notice to every observer of a collection, in registry
        order. */
    method Notify(name: string, n: Notice)
      modifies this`notices
      ensures notices == old(notices) + Broadcast(ObserversOf(name), n)
    {
      if name !in observers {
        return;
      }
      var obs := observers[name];
      var i := 0;
      while i < |obs|
        invariant 0 <= i <= |obs|
        invariant notices == old(notices) + Broadcast(obs[..i], n)
      {
        assert obs[..i + 1][..i] == obs[..i];
        notices := notices + [Notification(obs[i], n)];
        i := i + 1;
      }
      assert obs[..|obs|] == obs;
    }

    // ------------------------------------------------------------------
    // Session: connect, close, reconnect timer, listeners

    method Connect(withCallback: bool)
      modifies this`isConnecting, this`connectionFailed, this`isClosing, this`hasConnectListener
      modifies this`socket, this`socketCount, this`dials
      ensures Redialed()
      ensures hasConnectListener == (old(hasConnectListener) || withCallback)
    {
      isConnecting := true;
      connectionFailed := false;
      isClosing := false;
      if withCallback {
        hasConnectListener := true;
      }
      if config.useSockJs {
        dials := dials + [InfoProbe];
      } else {
        var url := BuildWsUrl(config, None);
        socketCount := socketCount + 1;
        socket := Some(socketCount);
        dials := dials + [Opened(socketCount, url)];
      }
    }

    /** `close`: mark closing and ask the socket to close; with no socket the
        source throws before it removes the listeners. */
    method Close() returns (outcome: Outcome)
      modifies this`isClosing, this`hasConnectListener, this`dials
      ensures isClosing
      ensures outcome == if socket.Some? then Returned else Threw(NoSocketError)
      ensures socket.Some? ==> dials == old(dials) + [Shut(socket.value)] && !hasConnectListener
      ensures socket.None? ==> dials == old(dials) && hasConnectListener == old(hasConnectListener)
    {
      isClosing := true;
      if socket.None? {
        return Threw(NoSocketError);
      }
      dials := dials + [Shut(socket.value)];
      hasConnectListener := false;
      outcome := Returned;
    }

    method ClearReconnectTimeout()
      requires TimerValid()
      modifies this`reconnectTimeout, this`liveTimers
      ensures TimerValid()
      ensures reconnectTimeout == None && liveTimers == {}
    {
      if reconnectTimeout.Some? {
        liveTimers := liveTimers - {reconnectTimeout.value};
        reconnectTimeout := None;
      }
    }

    method RecoverNetworkError()
      requires TimerValid()
      modifies this`reconnectTimeout, this`liveTimers, this`timerCount, this`isReconnecting
      ensures TimerValid()
      ensures ReconnectPolicy()
    {
      if autoReconnect && !connectionFailed && !isClosing {
        ClearReconnectTimeout();
        timerCount := timerCount + 1;
        reconnectTimeout := Some(timerCount);
        liveTimers := liveTimers + {timerCount};
        isReconnecting := true;
      }
    }

    /** A live reconnect timer fires and runs `connect()`; its handle stays in
        `reconnectTimeout`. */
    method OnReconnectTimer(t: nat)
      requires TimerValid() && t in liveTimers
      modifies this`liveTimers, this`isConnecting, this`connectionFailed, this`isClosing
      modifies this`hasConnectListener, this`socket, this`socketCount, this`dials
      ensures TimerValid()
      ensures liveTimers == {} && Redialed() && hasConnectListener == old(hasConnectListener)
    {
      liveTimers := liveTimers - {t};
      Connect(false);
    }

    method EmitConnected()
      requires TimerValid()
      modifies this`reconnectTimeout, this`liveTimers, this`reports, this`isConnecting, this`isReconnecting
      ensures TimerValid()
      ensures SuccessReported()
    {
      if hasConnectListener {
        ClearReconnectTimeout();
        reports := reports + [ConnectReport(None, isReconnecting)];
        isConnecting := false;
        isReconnecting := false;
      }
    }

    method EmitFailed(error: string)
      modifies this`isConnecting, this`connectionFailed, this`reports
      ensures FailureReported(error)
    {
      if hasConnectListener {
        isConnecting := false;
        connectionFailed := true;
        reports := reports + [ConnectReport(Some(error), isReconnecting)];
      }
    }

    // ------------------------------------------------------------------
    // Socket events

    /** The socket opened: propose the preferred version and the supported
        ones. Only an existing socket opens. */
    method OnOpen()
      requires socket.Some?
      modifies this`outbox
      ensures outbox == old(outbox) + [Sent(socket.value, ConnectEnvelope(ddpVersion, config.supportedDdpVersions))]
    {
      var _ := Send(ConnectEnvelope(ddpVersion, config.supportedDdpVersions));
    }

    /** A socket error is a connection failure only before the handshake
        completed. */
    method OnError(message: string)
      modifies this`isConnecting, this`connectionFailed, this`reports
      ensures old(isConnecting) ==> FailureReported(message)
      ensures !old(isConnecting) ==>
        isConnecting == old(isConnecting) && connectionFailed == old(connectionFailed) && reports == old(reports)
    {
      if isConnecting {
        EmitFailed(message);
      }
    }

    method OnClose() returns (ghost order: seq<string>)
      requires LedgerValid() && TimerValid()
      modifies this`pendingMethods, this`callbacks, this`updatedCallbacks, this`resultLog, this`updatedLog
      modifies this`reconnectTimeout, this`liveTimers, this`timerCount, this`isReconnecting
      ensures LedgerValid() && TimerValid()
      ensures PendingCallsEnded(order)
      ensures ReconnectPolicy()
    {
      order := EndPendingMethodCalls();
      RecoverNetworkError();
    }

    // ------------------------------------------------------------------
    // Request ledger

    /** Run and delete the result-table entry for id; a pending call's
        wrapper first takes its id out of `pendingMethods`. */
    method FireResult(id: string, c: Completion)
      requires id in callbacks
      modifies this`callbacks, this`pendingMethods, this`resultLog
      ensures callbacks == old(callbacks) - {id}
      ensures pendingMethods == if old(callbacks)[id] == PendingWrapper then old(pendingMethods) - {id} else old(pendingMethods)
      ensures resultLog == old(resultLog) + [Firing(id, c)]
    {
      if callbacks[id] == PendingWrapper {
        pendingMethods := pendingMethods - {id};
      }
      resultLog := resultLog + [Firing(id, c)];
      callbacks := callbacks - {id};
    }

    /** Run and delete the updated-table entry for id. */
    method FireUpdated(id: string)
      requires id in updatedCallbacks
      modifies this`updatedCallbacks, this`pendingMethods, this`updatedLog
      ensures updatedCallbacks == old(updatedCallbacks) - {id}
      ensures pendingMethods == if old(updatedCallbacks)[id] == PendingWrapper then old(pendingMethods) - {id} else old(pendingMethods)
      ensures updatedLog == old(updatedLog) + [id]
    {
      if updatedCallbacks[id] == PendingWrapper {
        pendingMethods := pendingMethods - {id};
      }
      updatedLog := updatedLog + [id];
      updatedCallbacks := updatedCallbacks - {id};
    }

    method Call(name: string, params: seq<Value>) returns (ghost id: string, outcome: Outcome)
      requires LedgerValid()
      modifies this`nextId, this`issued, this`callbacks, this`updatedCallbacks, this`pendingMethods, this`outbox
      ensures LedgerValid()
      ensures nextId == old(nextId) + 1 && id == DecimalString(nextId)
      ensures id !in old(issued) && issued == old(issued) + {id}
      ensures callbacks == old(callbacks)[id := PendingWrapper]
      ensures updatedCallbacks == old(updatedCallbacks)[id := PendingWrapper]
      ensures pendingMethods == old(pendingMethods) + {id}
      ensures outcome == if socket.Some? then Returned else Threw(NoSocketError)
      ensures outbox == old(outbox) + if socket.Some? then [Sent(socket.value, MethodEnvelope(id, name, params, None))] else []
    {
      var k := GetNextId();
      id := k;
      RegisterPendingKeeps(old(issued), callbacks, updatedCallbacks, pendingMethods, resultLog, updatedLog, k);
      callbacks := callbacks[k := PendingWrapper];
      updatedCallbacks := updatedCallbacks[k := PendingWrapper];
      pendingMethods := pendingMethods + {k};
      outcome := Send(MethodEnvelope(k, name, params, None));
    }

    method CallWithRandomSeed(name: string, params: seq<Value>, seed: Value, hasCallback: bool, hasUpdatedCallback: bool)
      returns (ghost id: string, outcome: Outcome)
      requires LedgerValid()
      modifies this`nextId, this`issued, this`callbacks, this`updatedCallbacks, this`outbox
      ensures LedgerValid()
      ensures nextId == old(nextId) + 1 && id == DecimalString(nextId)
      ensures id !in old(issued) && issued == old(issued) + {id}
      ensures callbacks == if hasCallback then old(callbacks)[id := Plain] else old(callbacks)
      ensures updatedCallbacks == if hasUpdatedCallback then old(updatedCallbacks)[id := Plain] else old(updatedCallbacks)
      ensures outcome == if socket.Some? then Returned else Threw(NoSocketError)
      ensures outbox == old(outbox) + if socket.Some? then [Sent(socket.value, MethodEnvelope(id, name, params, Some(seed)))] else []
    {
      var k := GetNextId();
      id := k;
      RegisterPlainKeeps(old(issued), callbacks, updatedCallbacks, pendingMethods, resultLog, updatedLog, k,
                         hasCallback, hasUpdatedCallback);
      if hasCallback {
        callbacks := callbacks[k := Plain];
      }
      if hasUpdatedCallback {
        updatedCallbacks := updatedCallbacks[k := Plain];
      }
      outcome := Send(MethodEnvelope(k, name, params, Some(seed)));
    }

    method Subscribe(name: string, params: seq<Value>, hasCallback: bool) returns (id: string, outcome: Outcome)
      requires LedgerValid()
      modifies this`nextId, this`issued, this`callbacks, this`outbox
      ensures LedgerValid()
      ensures nextId == old(nextId) + 1 && id == DecimalString(nextId)
      ensures id !in old(issued) && issued == old(issued) + {id}
      ensures callbacks == if hasCallback then old(callbacks)[id := Plain] else old(callbacks)
      ensures outcome == if socket.Some? then Returned else Threw(NoSocketError)
      ensures outbox == old(outbox) + if socket.Some? then [Sent(socket.value, SubEnvelope(id, name, params))] else []
    {
      id := GetNextId();
      RegisterPlainKeeps(old(issued), callbacks, updatedCallbacks, pendingMethods, resultLog, updatedLog, id,
                         hasCallback, false);
      if hasCallback {
        callbacks := callbacks[id := Plain];
      }
      outcome := Send(SubEnvelope(id, name, params));
    }

    /** `unsubscribe` only sends; the ledger entry stays until the server
        answers. */
    method Unsubscribe(id: string) returns (outcome: Outcome)
      modifies this`outbox
      ensures outcome == if socket.Some? then Returned else Threw(NoSocketError)
      ensures outbox == old(outbox) + if socket.Some? then [Sent(socket.value, UnsubEnvelope(id))] else []
    {
      outcome := Send(UnsubEnvelope(id));
    }

    /** `_endPendingMethodCalls`: every pending call ends with the
        disconnection error, in the order `_.keys` lists the pending ids. */
    method EndPendingMethodCalls() returns (ghost order: seq<string>)
      requires LedgerValid()
      modifies this`pendingMethods, this`callbacks, this`updatedCallbacks, this`resultLog, this`updatedLog
      ensures LedgerValid()
      ensures PendingCallsEnded(order)
    {
      assert forall k | k in pendingMethods :: k == DecimalString(DecimalValue(k)) by {
        forall k | k in pendingMethods
          ensures k == DecimalString(DecimalValue(k))
        {
          IssuedCanonical(k, nextId);
        }
      }
      var ids := AscendingKeys(pendingMethods);
      IncreasingDistinct(ids, DecimalValue);
      pendingMethods := {};
      RunDisconnectCallbacks(ids);
      order := ids;
      DisconnectKeeps(old(issued), old(callbacks), old(updatedCallbacks), old(pendingMethods),
                      old(resultLog), old(updatedLog), order);
    }

    /** The loop of `_endPendingMethodCalls`: each listed id has its result
        entry run with the disconnection error and its updated entry run,
        and both are deleted. */
    method RunDisconnectCallbacks(ids: seq<string>)
      requires Distinct(ids) && SetOf(ids) <= callbacks.Keys && SetOf(ids) <= updatedCallbacks.Keys
      requires pendingMethods == {}
      modifies this`callbacks, this`updatedCallbacks, this`pendingMethods, this`resultLog, this`updatedLog
      ensures pendingMethods == {}
      ensures callbacks == old(callbacks) - SetOf(ids)
      ensures updatedCallbacks == old(updatedCallbacks) - SetOf(ids)
      ensures resultLog == old(resultLog) + ResultFirings(ids, Disconnected)
      ensures updatedLog == old(updatedLog) + ids
    {
      var i := 0;
      while i < |ids|
        invariant 0 <= i <= |ids| && pendingMethods == {}
        invariant callbacks == old(callbacks) - SetOf(ids[..i])
        invariant updatedCallbacks == old(updatedCallbacks) - SetOf(ids[..i])
        invariant resultLog == old(resultLog) + ResultFirings(ids[..i], Disconnected)
        invariant updatedLog == old(updatedLog) + ids[..i]
      {
        var id := ids[i];
        assert && id in callbacks && id in updatedCallbacks
               && callbacks - {id} == old(callbacks) - SetOf(ids[..i + 1])
               && updatedCallbacks - {id} == old(updatedCallbacks) - SetOf(ids[..i + 1])
               && ResultFirings(ids[..i + 1], Disconnected) == ResultFirings(ids[..i], Disconnected) + [Firing(id, Disconnected)]
               && ids[..i + 1] == ids[..i] + [id]
        by {
          assert ids[..i + 1] == ids[..i] + [id];
          assert id in SetOf(ids) && id !in ids[..i];
          MapWithoutStep(old(callbacks), ids[..i], id);
          MapWithoutStep(old(updatedCallbacks), ids[..i], id);
          ResultFiringsStep(ids[..i], id, Disconnected);
        }
        if id in callbacks {
          FireResult(id, Disconnected);
        }
        if id in updatedCallbacks {
          FireUpdated(id);
        }
        i := i + 1;
      }
      assert ids[..|ids|] == ids;
    }

    // ------------------------------------------------------------------
    // Message handlers

    method OnFailed(version: Option<string>)
      modifies this`ddpVersion, this`autoReconnect, this`reports
      modifies this`isConnecting, this`connectionFailed, this`isClosing, this`hasConnectListener
      modifies this`socket, this`socketCount, this`dials
      ensures hasConnectListener == old(hasConnectListener)
      ensures version.Some? && IndexOf(config.supportedDdpVersions, version.value) != -1 ==>
        && ddpVersion == version.value && autoReconnect == old(autoReconnect)
        && Redialed() && reports == old(reports)
      ensures !(version.Some? && IndexOf(config.supportedDdpVersions, version.value) != -1) ==>
        && ddpVersion == old(ddpVersion) && !autoReconnect
        && FailureReported(VersionError) && isClosing == old(isClosing)
        && socket == old(socket) && socketCount == old(socketCount) && dials == old(dials)
    {
      if version.Some? && IndexOf(config.supportedDdpVersions, version.value) != -1 {
        ddpVersion := version.value;
        Connect(false);
      } else {
        autoReconnect := false;
        EmitFailed(VersionError);
      }
    }

    method OnConnected(s: Option<string>)
      requires TimerValid()
      modifies this`session, this`reconnectTimeout, this`liveTimers, this`reports, this`isConnecting, this`isReconnecting
      ensures TimerValid()
      ensures session == s && SuccessReported()
    {
      session := s;
      EmitConnected();
    }

    method OnResult(id: string, error: Option<Value>, result: Option<Value>)
      requires LedgerValid()
      modifies this`callbacks, this`pendingMethods, this`resultLog
      ensures LedgerValid()
      ensures callbacks == old(callbacks) - {id} && pendingMethods == old(pendingMethods) - {id}
      ensures resultLog == old(resultLog) + if id in old(callbacks) then [Firing(id, MethodResult(error, result))] else []
    {
      if id in callbacks {
        FireResultKeeps(issued, callbacks, updatedCallbacks, pendingMethods, resultLog, id, MethodResult(error, result));
        FireResult(id, MethodResult(error, result));
      } else {
        assert callbacks - {id} == callbacks && pendingMethods - {id} == pendingMethods;
      }
    }

    method OnNoSub(id: string, error: Option<Value>)
      requires LedgerValid()
      modifies this`callbacks, this`pendingMethods, this`resultLog
      ensures LedgerValid()
      ensures callbacks == old(callbacks) - {id} && pendingMethods == old(pendingMethods) - {id}
      ensures resultLog == old(resultLog) + if id in old(callbacks) then [Firing(id, SubscriptionStopped(error))] else []
    {
      if id in callbacks {
        FireResultKeeps(issued, callbacks, updatedCallbacks, pendingMethods, resultLog, id, SubscriptionStopped(error));
        FireResult(id, SubscriptionStopped(error));
      } else {
        assert callbacks - {id} == callbacks && pendingMethods - {id} == pendingMethods;
      }
    }

    method OnUpdated(methods: seq<string>)
      requires LedgerValid()
      modifies this`updatedCallbacks, this`pendingMethods, this`updatedLog
      ensures LedgerValid()
      ensures updatedCallbacks == old(updatedCallbacks) - SetOf(methods)
      ensures pendingMethods == old(pendingMethods) - SetOf(methods)
      ensures updatedLog == old(updatedLog) + Fired(old(updatedCallbacks), methods)
    {
      RunUpdatedCallbacks(methods);
      UpdatedPassKeeps(issued, callbacks, old(updatedCallbacks), old(pendingMethods), old(updatedLog), methods);
    }

    /** The loop of the "updated" handler: each listed id whose
        updated-table entry is still there has it run and deleted. */
    method RunUpdatedCallbacks(methods: seq<string>)
      requires forall k | k in pendingMethods :: k in updatedCallbacks && updatedCallbacks[k] == PendingWrapper
      modifies this`updatedCallbacks, this`pendingMethods, this`updatedLog
      ensures updatedCallbacks == old(updatedCallbacks) - SetOf(methods)
      ensures pendingMethods == old(pendingMethods) - SetOf(methods)
      ensures updatedLog == old(updatedLog) + Fired(old(updatedCallbacks), methods)
    {
      var i := 0;
      while i < |methods|
        invariant 0 <= i <= |methods|
        invariant updatedCallbacks == old(updatedCallbacks) - SetOf(methods[..i])
        invariant pendingMethods == old(pendingMethods) - SetOf(methods[..i])
        invariant forall k | k in pendingMethods :: k in updatedCallbacks && updatedCallbacks[k] == PendingWrapper
        invariant updatedLog == old(updatedLog) + Fired(old(updatedCallbacks), methods[..i])
      {
        var id := methods[i];
        assert && updatedCallbacks - {id} == old(updatedCallbacks) - SetOf(methods[..i + 1])
               && pendingMethods - {id} == old(pendingMethods) - SetOf(methods[..i + 1])
               && Fired(old(updatedCallbacks), methods[..i + 1])
                  == Fired(old(updatedCallbacks), methods[..i]) + if id in updatedCallbacks then [id] else []
        by {
          PassStep(old(updatedCallbacks), old(pendingMethods), methods, i);
        }
        if id in updatedCallbacks {
          FireUpdated(id);
        } else {
          assert updatedCallbacks - {id} == updatedCallbacks && pendingMethods - {id} == pendingMethods;
        }
        i := i + 1;
      }
      assert methods[..|methods|] == methods;
    }

    method OnReady(subs: seq<string>)
      requires LedgerValid()
      modifies this`callbacks, this`pendingMethods, this`resultLog
      ensures LedgerValid()
      ensures callbacks == old(callbacks) - SetOf(subs)
      ensures pendingMethods == old(pendingMethods) - SetOf(subs)
      ensures resultLog == old(resultLog) + ResultFirings(Fired(old(callbacks), subs), NoArguments)
    {
      RunReadyCallbacks(subs);
      ResultPassKeeps(issued, old(callbacks), updatedCallbacks, old(pendingMethods), old(resultLog), subs);
    }

    /** The loop of the "ready" handler: each listed id whose result-table
        entry is still there has it run without arguments and deleted. */
    method RunReadyCallbacks(subs: seq<string>)
      requires forall k | k in pendingMethods :: k in callbacks && callbacks[k] == PendingWrapper
      modifies this`callbacks, this`pendingMethods, this`resultLog
      ensures callbacks == old(callbacks) - SetOf(subs)
      ensures pendingMethods == old(pendingMethods) - SetOf(subs)
      ensures resultLog == old(resultLog) + ResultFirings(Fired(old(callbacks), subs), NoArguments)
    {
      ghost var run := [];
      var i := 0;
      while i < |subs|
        invariant 0 <= i <= |subs|
        invariant callbacks == old(callbacks) - SetOf(subs[..i])
        invariant pendingMethods == old(pendingMethods) - SetOf(subs[..i])
        invariant forall k | k in pendingMethods :: k in callbacks && callbacks[k] == PendingWrapper
        invariant run == Fired(old(callbacks), subs[..i])
        invariant resultLog == old(resultLog) + ResultFirings(run, NoArguments)
      {
        var id := subs[i];
        assert && callbacks - {id} == old(callbacks) - SetOf(subs[..i + 1])
               && pendingMethods - {id} == old(pendingMethods) - SetOf(subs[..i + 1])
               && Fired(old(callbacks), subs[..i + 1]) == run + if id in callbacks then [id] else []
        by {
          PassStep(old(callbacks), old(pendingMethods), subs, i);
        }
        if id in callbacks {
          ResultFiringsStep(run, id, NoArguments);
          FireResult(id, NoArguments);
          run := run + [id];
        } else {
          assert callbacks - {id} == callbacks && pendingMethods - {id} == pendingMethods;
        }
        i := i + 1;
      }
      assert subs[..|subs|] == subs;
    }

    /** `_.each(fields, ...)` writing each supplied field into a document. */
    static method WriteFields(doc: Doc, fields: map<string, Value>) returns (r: Doc)
      ensures r == doc + fields
    {
      r := doc;
      var todo := fields.Keys;
      while todo != {}
        invariant todo <= fields.Keys
        invariant r == doc + (map k | k in fields.Keys - todo :: fields[k])
        decreases todo
      {
        var k :| k in todo;
        r := r[k := fields[k]];
        todo := todo - {k};
      }
      assert (map k | k in fields.Keys - {} :: fields[k]) == fields;
    }

    method OnAdded(name: string, id: string, fields: map<string, Value>)
      requires ReplicaValid()
      modifies this`collections, this`notices
      ensures ReplicaValid()
      ensures config.maintainCollections && name != "" ==>
        && collections == Some(AddStore(old(collections).value, name, id, fields))
        && notices == old(notices) + Broadcast(ObserversOf(name), DocAdded(id))
      ensures !(config.maintainCollections && name != "") ==>
        collections == old(collections) && notices == old(notices)
    {
      if !(config.maintainCollections && name != "") {
        return;
      }
      ghost var docs := DocsOf(collections.value, name);
      var store := collections.value;
      if name !in store {
        store := store[name := map[]];
      }
      if id !in store[name] {
        store := store[name := store[name][id := map[]]];
      }
      assert store[name][id] == if id in docs then docs[id] else map[];
      var doc := WriteFields(store[name][id][IdKey := Str(id)], fields);
      assert store[name][id := doc] == docs[id := AddDoc(docs, id, fields)];
      assert store[name := store[name][id := doc]] == AddStore(collections.value, name, id, fields);
      collections := Some(store[name := store[name][id := doc]]);
      Notify(name, DocAdded(id));
    }

    /** The field loop of `changed`: each supplied field is written, and its
        prior value and new value are recorded. */
    static method WriteTrackedFields(doc: Doc, fields: map<string, Value>)
      returns (r: Doc, oldFields: map<string, Option<Value>>, newFields: map<string, Value>)
      ensures r == doc + fields
      ensures oldFields == OldFields(doc, fields) && newFields == fields
    {
      r, oldFields, newFields := doc, map[], map[];
      var todo := fields.Keys;
      while todo != {}
        invariant todo <= fields.Keys
        invariant newFields == (map k | k in fields.Keys - todo :: fields[k])
        invariant r == doc + newFields && oldFields == OldFields(doc, newFields)
        decreases todo
      {
        var k :| k in todo;
        oldFields := oldFields[k := if k in r then Some(r[k]) else None];
        newFields := newFields[k := fields[k]];
        r := r[k := fields[k]];
        todo := todo - {k};
      }
      assert newFields == fields;
    }

    /** The `cleared` loop of `changed`: each listed name is deleted. */
    static method ClearFields(doc: Doc, cleared: seq<string>) returns (r: Doc)
      ensures r == doc - SetOf(cleared)
    {
      r := doc;
      var i := 0;
      while i < |cleared|
        invariant 0 <= i <= |cleared|
        invariant r == doc - SetOf(cleared[..i])
      {
        assert SetOf(cleared[..i + 1]) == SetOf(cleared[..i]) + {cleared[i]};
        r := r - {cleared[i]};
        i := i + 1;
      }
      assert cleared[..|cleared|] == cleared;
    }

    method OnChanged(name: string, id: string, fields: map<string, Value>, cleared: seq<string>)
      requires ReplicaValid()
      modifies this`collections, this`notices
      ensures ReplicaValid()
      ensures config.maintainCollections && name != "" && HasDoc(old(collections).value, name, id) ==>
        && collections == Some(ChangeStore(old(collections).value, name, id, fields, cleared))
        && notices == old(notices) + Broadcast(ObserversOf(name),
             DocChanged(id, OldFields(old(collections).value[name][id], fields), cleared, fields))
      ensures !(config.maintainCollections && name != "" && HasDoc(old(collections).value, name, id)) ==>
        collections == old(collections) && notices == old(notices)
    {
      if !(config.maintainCollections && name != "") {
        return;
      }
      var store := collections.value;
      if name !in store {
        return;
      }
      if id !in store[name] {
        return;
      }
      var doc, oldFields, newFields := WriteTrackedFields(store[name][id], fields);
      doc := ClearFields(doc, cleared);
      assert store[name := store[name][id := doc]] == ChangeStore(store, name, id, fields, cleared);
      collections := Some(store[name := store[name][id := doc]]);
      Notify(name, DocChanged(id, oldFields, cleared, newFields));
    }

    method OnRemoved(name: string, id: string) returns (outcome: Outcome)
      requires ReplicaValid()
      modifies this`collections, this`notices
      ensures ReplicaValid()
      ensures outcome == if config.maintainCollections && name != "" && name !in old(collections).value
                         then Threw(UnknownCollectionError) else Returned
      ensures config.maintainCollections && name != "" && HasDoc(old(collections).value, name, id) ==>
        && collections == Some(RemoveStore(old(collections).value, name, id))
        && notices == old(notices) + Broadcast(ObserversOf(name), DocRemoved(id, old(collections).value[name][id]))
      ensures !(config.maintainCollections && name != "" && HasDoc(old(collections).value, name, id)) ==>
        collections == old(collections) && notices == old(notices)
    {
      outcome := Returned;
      if !(config.maintainCollections && name != "") {
        return;
      }
      var store := collections.value;
      if name !in store {
        return Threw(UnknownCollectionError);
      }
      if id !in store[name] {
        return;
      }
      var oldValue := store[name][id];
      collections := Some(store[name := store[name] - {id}]);
      Notify(name, DocRemoved(id, oldValue));
    }

    method OnPing(pingId: Option<Value>) returns (outcome: Outcome)
      modifies this`outbox
      ensures outcome == if socket.Some? then Returned else Threw(NoSocketError)
      ensures outbox == old(outbox) + if socket.Some? then [Sent(socket.value, PongEnvelope(pingId))] else []
    {
      outcome := Send(PongEnvelope(pingId));
    }

    /** `_message`: route a decoded envelope by its `msg`. */
    method HandleMessage(m: Message) returns (outcome: Outcome)
      requires Valid()
      modifies this
      ensures Valid()
      ensures outcome ==
        if m.Removed? && config.maintainCollections && m.collection != "" && m.collection !in old(collections).value
        then Threw(UnknownCollectionError)
        else if m.Ping? && socket.None? then Threw(NoSocketError)
        else Returned
      ensures m.Undiscriminated? || m.Unrecognised? ==> unchanged(this)
    {
      outcome := Returned;
      if m.Failed? || m.Connected? || m.Ping? {
        outcome := HandleSessionMessage(m);
      } else if m.Result? || m.Updated? || m.NoSub? || m.Ready? {
        HandleLedgerMessage(m);
      } else if m.Added? || m.Changed? || m.Removed? {
        outcome := HandleReplicaMessage(m);
      }
    }

    /** The session branches of `_message`: `failed`, `connected`, `ping`. */
    method HandleSessionMessage(m: Message) returns (outcome: Outcome)
      requires m.Failed? || m.Connected? || m.Ping?
      requires TimerValid()
      modifies this`ddpVersion, this`autoReconnect, this`reports, this`isConnecting, this`connectionFailed
      modifies this`isClosing, this`hasConnectListener, this`socket, this`socketCount, this`dials
      modifies this`session, this`reconnectTimeout, this`liveTimers, this`isReconnecting, this`outbox
      ensures TimerValid()
      ensures outcome == if m.Ping? && socket.None? then Threw(NoSocketError) else Returned
    {
      outcome := Returned;
      match m
      case Failed(v) => OnFailed(v);
      case Connected(s) => OnConnected(s);
      case Ping(pingId) => outcome := OnPing(pingId);
    }

    /** The ledger branches of `_message`: `result`, `updated`, `nosub`,
        `ready`. */
    method HandleLedgerMessage(m: Message)
      requires m.Result? || m.Updated? || m.NoSub? || m.Ready?
      requires LedgerValid()
      modifies this`callbacks, this`updatedCallbacks, this`pendingMethods, this`resultLog, this`updatedLog
      ensures LedgerValid()
    {
      match m
      case Result(id, error, result) => OnResult(id, error, result);
      case Updated(methods) => OnUpdated(methods);
      case NoSub(id, error) => OnNoSub(id, error);
      case Ready(subs) => OnReady(subs);
    }

    /** The replica branches of `_message`: `added`, `changed`, `removed`. */
    method HandleReplicaMessage(m: Message) returns (outcome: Outcome)
      requires m.Added? || m.Changed? || m.Removed?
      requires ReplicaValid()
      modifies this`collections, this`notices
      ensures ReplicaValid()
      ensures outcome ==
        if m.Removed? && config.maintainCollections && m.collection != "" && m.collection !in old(collections).value
        then Threw(UnknownCollectionError) else Returned
    {
      outcome := Returned;
      match m
      case Added(name, id, fields) => OnAdded(name, id, fields);
      case Removed(name, id) => outcome := OnRemoved(name, id);
      case Changed(name, id, fields, cleared) => OnChanged(name, id, fields, cleared);
    }
  }
}
