/** Runs of the client through the situations the repository's test suite
    exercises, and through the corner cases where the code's behaviour is
    easy to get wrong. Each run starts from any client state that satisfies
    its preconditions; socket events are method calls, and the server's
    envelopes go to the matching branch of the message handler. */
module Scenarios {
  import opened Values
  import opened Decimal
  import opened Settings
  import opened Protocol
  import opened Replica
  import opened Observers
  import opened Ledger
  import opened Client

  /** Three closes in a row leave one live reconnect timer; when it fires,
      one new socket opens and no timer is left. */
  method RapidClosesReconnectOnce(c: DdpClient)
    requires c.LedgerValid() && c.TimerValid() && c.autoReconnect && !c.connectionFailed && !c.isClosing
    modifies c
    ensures c.TimerValid() && c.liveTimers == {} && c.timerCount == old(c.timerCount) + 3
    ensures !c.config.useSockJs ==> c.socketCount == old(c.socketCount) + 1
  {
    ghost var first := c.OnClose();
    ghost var second := c.OnClose();
    ghost var third := c.OnClose();
    assert c.liveTimers == {c.timerCount};
    c.OnReconnectTimer(c.timerCount);
  }

  /** `close` does not cancel a reconnect timer already scheduled: when it
      fires, `connect` clears the closing flag and a new socket opens. */
  method TimerOutlivesClose(c: DdpClient) returns (outcome: Outcome)
    requires c.LedgerValid() && c.TimerValid() && c.autoReconnect && !c.connectionFailed && !c.isClosing
    modifies c
    ensures !c.isClosing && c.isConnecting && c.liveTimers == {}
    ensures !c.config.useSockJs ==> c.socketCount == old(c.socketCount) + 1
  {
    ghost var order := c.OnClose();
    outcome := c.Close();
    assert c.isClosing && c.liveTimers == {c.timerCount};
    c.OnReconnectTimer(c.timerCount);
  }

  /** A `failed` naming a version the client supports adopts it and dials
      again. */
  method SupportedVersionRedials(c: DdpClient)
    requires c.config.supportedDdpVersions == SupportedVersions
    modifies c
    ensures c.ddpVersion == "pre1" && c.isConnecting && !c.isClosing
    ensures !c.config.useSockJs ==> c.socketCount == old(c.socketCount) + 1
  {
    assert IndexOf(c.config.supportedDdpVersions, "pre1") == 2;
    c.OnFailed(Some("pre1"));
  }

  /** A `failed` naming a version the client does not support turns
      reconnection off and keeps the current version. */
  method RejectVersion(c: DdpClient, version: string)
    requires version !in c.config.supportedDdpVersions
    modifies c`ddpVersion, c`autoReconnect, c`reports, c`isConnecting, c`connectionFailed, c`isClosing
    modifies c`hasConnectListener, c`socket, c`socketCount, c`dials
    ensures !c.autoReconnect && c.ddpVersion == old(c.ddpVersion)
  {
    c.OnFailed(Some(version));
  }

  /** After such a `failed`, a close schedules nothing. */
  method UnsupportedVersionStopsReconnecting(c: DdpClient)
    requires c.LedgerValid() && c.TimerValid() && c.config.supportedDdpVersions == SupportedVersions
    modifies c
    ensures !c.autoReconnect && c.ddpVersion == old(c.ddpVersion)
    ensures c.timerCount == old(c.timerCount) && c.liveTimers == old(c.liveTimers)
  {
    RejectVersion(c, "2");
    ghost var order := c.OnClose();
  }

  /** `added`, then a `changed` that rewrites "text", then a `changed` that
      clears "value": "text" holds the new value and "value" is gone. */
  method ChangedThenCleared(c: DdpClient, name: string, id: string)
    requires c.ReplicaValid() && c.config.maintainCollections && name != ""
    modifies c
    ensures c.collections.Some? && HasDoc(c.collections.value, name, id)
    ensures var doc := c.collections.value[name][id];
      && "text" in doc && doc["text"] == Str("A dog was here") && "value" !in doc
  {
    c.OnAdded(name, id, map["text" := Str("A cat was here"), "value" := Bool(true)]);
    assert HasDoc(c.collections.value, name, id);
    c.OnChanged(name, id, map["text" := Str("A dog was here")], []);
    ghost var written := c.collections.value[name][id];
    assert "text" in written && written["text"] == Str("A dog was here");
    c.OnChanged(name, id, map[], ["value"]);
    assert c.collections.value[name][id] == ChangeDoc(written, map[], ["value"]);
  }

  /** `added` then `removed`: the document is gone and its collection
      stays. */
  method AddedThenRemoved(c: DdpClient, name: string, id: string) returns (outcome: Outcome)
    requires c.ReplicaValid() && c.config.maintainCollections && name != ""
    modifies c
    ensures outcome == Returned
    ensures c.collections.Some? && name in c.collections.value && id !in c.collections.value[name]
  {
    c.OnAdded(name, id, map["text" := Str("A cat was here")]);
    outcome := c.OnRemoved(name, id);
  }

  /** With `maintainCollections: false` no replica ever appears. */
  method NoReplica(c: DdpClient, name: string, id: string)
    requires c.ReplicaValid() && !c.config.maintainCollections
    modifies c
    ensures c.collections == None && c.notices == old(c.notices)
  {
    c.OnAdded(name, id, map["text" := Str("A cat was here")]);
    c.OnChanged(name, id, map["text" := Str("A dog was here")], []);
    var outcome := c.OnRemoved(name, id);
  }

  /** `removed` naming a collection the replica has never seen throws. */
  method RemovedFromUnknownCollection(c: DdpClient, name: string, id: string) returns (outcome: Outcome)
    requires c.Valid() && c.config.maintainCollections && name != "" && name !in c.collections.value
    modifies c
    ensures outcome == Threw(UnknownCollectionError)
  {
    outcome := c.HandleMessage(Removed(name, id));
  }

  /** Two observers of a collection nobody watched yet hear an `added` in
      registration order. */
  method ObserversHearInOrder(c: DdpClient, name: string, id: string)
    requires c.LedgerValid() && c.ObserversValid() && c.ReplicaValid()
    requires c.config.maintainCollections && name != "" && name !in c.observers
    modifies c
    ensures c.ObserversOf(name) == [old(c.nextId) + 1, old(c.nextId) + 2]
    ensures c.notices == old(c.notices) + [Notification(old(c.nextId) + 1, DocAdded(id)),
                                           Notification(old(c.nextId) + 2, DocAdded(id))]
  {
    var first := c.Observe(name);
    assert c.ObserversOf(name) == [first.id];
    InsertLargest([first.id], c.nextId + 1);
    var second := c.Observe(name);
    assert c.ObserversOf(name) == [first.id, second.id];
    c.OnAdded(name, id, map[]);
  }

  /** A stopped observer leaves the registry; the other stays. */
  method StoppedObserverLeaves(c: DdpClient, name: string)
    requires c.LedgerValid() && c.ObserversValid() && name !in c.observers
    modifies c
    ensures c.ObserversOf(name) == [old(c.nextId) + 2]
  {
    var first := c.Observe(name);
    assert c.ObserversOf(name) == [first.id];
    InsertLargest([first.id], c.nextId + 1);
    var second := c.Observe(name);
    c.RemoveObserver(first);
  }

  /** `call`, then its `result`, then its `updated`: each callback runs once,
      and the ledger is back where it was. */
  method ResultThenUpdated(c: DdpClient)
    requires c.LedgerValid()
    modifies c
    ensures c.callbacks == old(c.callbacks) && c.updatedCallbacks == old(c.updatedCallbacks)
    ensures c.pendingMethods == old(c.pendingMethods)
    ensures c.resultLog == old(c.resultLog) + [Firing(DecimalString(c.nextId), MethodResult(None, Some(Num(42))))]
    ensures c.updatedLog == old(c.updatedLog) + [DecimalString(c.nextId)]
  {
    ghost var call;
    var outcome;
    call, outcome := c.Call("add", [Num(40), Num(2)]);
    var id := DecimalString(c.nextId);
    c.OnResult(id, None, Some(Num(42)));
    c.OnUpdated([id]);
    assert [id][..0] == [] && Fired(old(c.updatedCallbacks)[id := PendingWrapper], [id]) == [id];
    assert old(c.callbacks)[id := PendingWrapper] - {id} == old(c.callbacks);
    assert old(c.updatedCallbacks)[id := PendingWrapper] - SetOf([id]) == old(c.updatedCallbacks);
    assert old(c.pendingMethods) + {id} - {id} - SetOf([id]) == old(c.pendingMethods);
  }

  /** `ready` runs a subscription's callback without arguments; a `nosub`
      for it afterwards finds nothing to run. */
  method ReadyThenNoSub(c: DdpClient)
    requires c.LedgerValid()
    modifies c
    ensures c.callbacks == old(c.callbacks)
    ensures c.resultLog == old(c.resultLog) + [Firing(DecimalString(c.nextId), NoArguments)]
  {
    var sub, outcome := c.Subscribe("posts", [], true);
    c.OnReady([sub]);
    assert [sub][..0] == [] && Fired(old(c.callbacks)[sub := Plain], [sub]) == [sub];
    c.OnNoSub(sub, None);
    assert old(c.callbacks)[sub := Plain] - SetOf([sub]) - {sub} == old(c.callbacks);
  }

  /** One `call` and then one `subscribe` with a callback, from a ledger
      with no pending call. */
  method CallThenSubscribe(c: DdpClient) returns (ghost call: string, sub: string)
    requires c.LedgerValid() && c.pendingMethods == {}
    modifies c`nextId, c`issued, c`callbacks, c`updatedCallbacks, c`pendingMethods, c`outbox
    ensures c.LedgerValid()
    ensures call == DecimalString(old(c.nextId) + 1) && sub == DecimalString(old(c.nextId) + 2)
    ensures call != sub && call !in old(c.callbacks) && call !in old(c.updatedCallbacks)
    ensures c.callbacks == old(c.callbacks)[call := PendingWrapper][sub := Plain]
    ensures c.updatedCallbacks == old(c.updatedCallbacks)[call := PendingWrapper]
    ensures c.pendingMethods == {call}
  {
    var outcome;
    call, outcome := c.Call("add", []);
    sub, outcome := c.Subscribe("posts", [], true);
    DecimalStringInjective(old(c.nextId) + 1, old(c.nextId) + 2);
  }

  /** A close with one call and one subscription outstanding ends the call
      with the disconnection error; the subscription's entry stays. */
  method DisconnectEndsCallsOnly(c: DdpClient)
    requires c.LedgerValid() && c.TimerValid() && c.pendingMethods == {}
    modifies c
    ensures c.pendingMethods == {}
    ensures c.callbacks == old(c.callbacks)[DecimalString(old(c.nextId) + 2) := Plain]
    ensures c.updatedCallbacks == old(c.updatedCallbacks)
    ensures c.resultLog == old(c.resultLog) + [Firing(DecimalString(old(c.nextId) + 1), Disconnected)]
  {
    ghost var results, updates := c.callbacks, c.updatedCallbacks;
    ghost var call;
    var sub;
    call, sub := CallThenSubscribe(c);
    ghost var order := c.OnClose();
    IncreasingDistinct(order, DecimalValue);
    SingletonOrder(order, call);
    assert results[call := PendingWrapper][sub := Plain] - {call} == results[sub := Plain];
    assert updates[call := PendingWrapper] - {call} == updates;
  }
}
