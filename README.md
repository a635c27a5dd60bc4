# node-ddp-client protocol engine, in Dafny

A model of the protocol engine of `DDPClient` (`lib/ddp-client.js`): the
client object that speaks Meteor's Distributed Data Protocol (DDP) over a
WebSocket. The model covers the following.

- **Session flags and the reconnect timer.** `connect`, `close`,
  `_clearReconnectTimeout` and `_recoverNetworkError` are modelled, as are the
  socket's `open`, `error` and `close` events and the `connected` and
  `failed` listeners that `connect(callback)` installs.
- **The message handler `_message`.** Decoded server envelopes are routed to
  the version negotiation on `failed`, the ledger branches, the replica
  branches and the `pong` reply to `ping`.
- **The replica.** `collections` (collection name to document id to field
  map) is kept in place by `added`, `changed` and `removed`. Every change is
  broadcast to the observers that `observe`, `_addObserver` and
  `_removeObserver` manage.
- **The request ledger.** This covers `_callbacks`, `_updatedCallbacks`,
  `_pendingMethods` and the id counter `_nextId`. `call`,
  `callWithRandomSeed` and `subscribe` fill the tables; `result`, `nosub`,
  `updated`, `ready` and `_endPendingMethodCalls` empty them. `observe` draws
  its id from the same counter but touches only `_observers`.
- **URL building.** The constructor's defaults and `_buildWsUrl` are
  modelled as pure functions.

Layout:

- `values.dfy` holds the JSON-like values and small sequence and set
  facts.
- `decimal.dfy` holds the decimal rendering of ids (`toString()`).
- `settings.dfy` holds the constructor options, the version list and
  `_buildWsUrl`.
- `protocol.dfy` holds decoded envelopes, sent envelopes and the ghost
  records of callback runs, notifications and dials.
- `replica.dfy` holds the replica deltas as functions.
- `observers.dfy` holds the observer registry.
- `ledger.dfy` holds the ledger invariants and the order in which the
  handlers run callbacks.
- `client.dfy` holds the class `DdpClient`. It has the fields the source
  updates in place, and one method per source function or socket event.
- `scenarios.dfy` holds runs of the client through the situations the
  repository's test suite exercises, and through some corner cases.

The client keeps four invariants.

- **Replica.** A replica exists exactly when collections are maintained.
- **Ledger.**
  - Every id in a table was handed out by `_getNextId`, so each one is the
    decimal rendering of a number between 1 and `_nextId`.
  - Each pending id has the pending-call wrapper in both tables.
  - No callback runs twice.
  - A run callback's entry is gone.
- **Timer.** At most one reconnect timer is live, and it is the one in
  `reconnectTimeout`.
- **Observers.** Each collection's observers are in ascending id order,
  which is the order `_.each` visits integer-like keys.

Callbacks and observer functions are not run. Each run is appended to a ghost
record instead:

- `resultLog` for `_callbacks` entries;
- `updatedLog` for `_updatedCallbacks` entries;
- `notices` for observers;
- `reports` for the `connect` callback;
- `outbox` for sent envelopes;
- `dials` for sockets opened and closed.

A call that would throw in the source returns `Threw(...)` and leaves the
state as the source leaves it at the point of the throw.

### Where the code and the documented behaviour differ

The model follows the code in each case below.

- **Closing the socket ends only method calls.** `_endPendingMethodCalls`
  ends only the ids in `_pendingMethods`, and only `call` puts ids there. A
  subscription's callback and a `callWithRandomSeed` entry stay in the tables
  after a disconnect. The documented behaviour says that a pending
  subscription's callback also fires with the disconnection error.
- **`removed` for an unknown collection throws.** `removed` reads
  `collections[name][id]` without checking that `collections[name]` exists
  (lib/ddp-client.js:208). For a collection name that is not also a
  property every JavaScript object inherits, this throws a `TypeError`
  where the documented behaviour describes a no-op. The model returns
  `Threw(UnknownCollectionError)` and changes nothing.
- **`close` does not cancel a scheduled reconnect.** When that timer fires,
  `connect()` clears `_isClosing` and opens a new socket, so closing is not
  terminal while a timer is live (`Scenarios.TimerOutlivesClose`).
- **`callWithRandomSeed` registers only the callbacks it is given.** It
  stores them unwrapped, whereas `call` always puts a wrapper in both tables.
  The documented behaviour describes the two as identical apart from the
  seed and the pending set.

## Model

| member | source | states |
|---|---|---|
| Decimal.DecimalString | lib/ddp-client.js:276 | an id is a non-empty string of decimal digits with no leading zero |
| Decimal.DecimalRoundTrip | lib/ddp-client.js:276 | reading an id back as a number gives the counter value it was made from |
| Decimal.DecimalStringInjective | lib/ddp-client.js:275-277 | two counter values give the same id string exactly when they are equal |
| Settings.Configure | lib/ddp-client.js:17-36 | a truthy host is kept, else "localhost"; a non-zero port is kept, else 3000; ssl is on exactly when `ssl` (or the legacy `use_ssl`, which overrides it) is true or the port is 443; each legacy name (`use_ssl`, `auto_reconnect`, `auto_reconnect_timer`, `maintain_collections`, `ddp_version`) overrides the current one; autoReconnect, the timer delay, maintainCollections and ddpVersion default to true, 500, true and "1"; path, url and useSockJs are passed through; the supported versions are "1", "pre2", "pre1" |
| Settings.ConfiguredUrl | test/ddp-client.js:26-48 | for every options object without url or path: ws:// (wss:// when ssl is asked for or the port is 443), then the supplied host else "localhost", ":", the supplied port else 3000, then "/websocket" |
| Settings.DefaultConfiguration | lib/ddp-client.js:24-36 | with no options: localhost, port 3000, no ssl, no path, no url, no SockJS, reconnect on, delay 500, collections kept, version "1" |
| Settings.IndexOf | lib/ddp-client.js:139 | `indexOf` is -1 exactly when the value is absent, and otherwise the index of its first occurrence |
| Settings.NegotiableVersions | lib/ddp-client.js:138-145 | a `failed` version is negotiable exactly when it is "1", "pre2" or "pre1" |
| Settings.ChosenPath | lib/ddp-client.js:397 | the path (argument, else configured path, else "websocket") is never empty |
| Settings.BuildWsUrl | lib/ddp-client.js:394-406 | with an explicit url and SockJS off, the url is returned verbatim; the result is never empty |
| Settings.BuildWsUrlShape | lib/ddp-client.js:398-403 | otherwise the url is scheme, host, ":", port, then the path with exactly one leading "/" |
| Settings.DefaultPathUrl | lib/ddp-client.js:397-403 | with no path configured, the url ends in "/websocket" |
| Settings.DefaultUrl | test/ddp-client.js:26-33 | a client with no options connects to ws://localhost:3000/websocket |
| Settings.HostUrl | test/ddp-client.js:35-38 | host "myserver.com" gives ws://myserver.com:3000/websocket |
| Settings.HostAndPortUrl | test/ddp-client.js:40-43 | host and port 42 give ws://myserver.com:42/websocket |
| Settings.Port443Url | test/ddp-client.js:45-48 | port 443 switches to wss://myserver.com:443/websocket |
| Settings.LocalhostUrl | lib/ddp-client.js:394-406 | the url of a localhost, port 3000, plain configuration |
| Settings.MyServerUrl | lib/ddp-client.js:394-406 | the url of a myserver.com, port 3000, plain configuration |
| Settings.MyServerPort42Url | lib/ddp-client.js:394-406 | the url of a myserver.com, port 42, plain configuration |
| Settings.MyServerTlsUrl | lib/ddp-client.js:394-406 | the url of a myserver.com, port 443, ssl configuration |
| Replica.AddDoc | lib/ddp-client.js:186-194 | after `added`, every supplied field holds its value, `_id` is the id unless a field overrides it, and every other field keeps its prior value (none for a new document) |
| Replica.AddStore | lib/ddp-client.js:182-194 | `added` creates the collection and document if absent, and leaves every other document and collection as it was |
| Replica.ChangeDoc | lib/ddp-client.js:235-247 | after `changed`, a field is present exactly when it was present or written and is not cleared; present fields hold the written value, else the prior one |
| Replica.ChangeStore | lib/ddp-client.js:224-247 | `changed` on an unknown collection or document changes nothing; otherwise only that document changes, and no collection or document appears or disappears |
| Replica.RemoveStore | lib/ddp-client.js:212-214 | `removed` deletes only that document, keeps its collection, and leaves the rest as it was |
| Replica.ChangesKeepDocument | lib/ddp-client.js:224-247 | any run of `changed` keeps the document, the set of collections and documents, and every other document |
| Replica.AddChangeRemove | lib/ddp-client.js:181-221 | after `added`, every later `changed` finds the document; a final `removed` leaves it absent and every other document as it was |
| Observers.Insert | lib/ddp-client.js:280-285 | registering keeps the ids ascending and adds exactly the new id |
| Observers.Remove | lib/ddp-client.js:288-292 | removal keeps the ids ascending and drops exactly that id |
| Observers.InsertLargest | lib/ddp-client.js:512-536 | a fresh id, larger than every registered one, is appended, so observers hear in registration order |
| Observers.RemoveUndoesInsert | lib/ddp-client.js:529-531 | `stop()` undoes the registration exactly |
| Observers.Broadcast | lib/ddp-client.js:196-200 | one notification per observer, in registry order, each carrying the same notice |
| Ledger.IssuedCanonical | lib/ddp-client.js:275-277 | every id handed out is the canonical decimal rendering of a number from 1 to the counter |
| Ledger.NextIdFresh | lib/ddp-client.js:275-277 | the next id differs from every id already handed out |
| Ledger.FiredFacts | lib/ddp-client.js:161-169 | a pass over listed ids runs each id's entry at most once, and runs exactly the listed ids that have an entry |
| Ledger.RegisterPendingKeeps | lib/ddp-client.js:426-446 | registering a fresh call in both tables and the pending set keeps the ledger invariant |
| Ledger.RegisterPlainKeeps | lib/ddp-client.js:457-485 | registering a fresh `callWithRandomSeed` or `subscribe` entry keeps the ledger invariant |
| Ledger.FireResultKeeps | lib/ddp-client.js:152-158 | running and deleting a result entry takes the id out of the pending set and keeps the ledger invariant |
| Ledger.UpdatedPassKeeps | lib/ddp-client.js:161-169 | an `updated` pass keeps the ledger invariant |
| Ledger.ResultPassKeeps | lib/ddp-client.js:257-264 | a `ready` pass keeps the ledger invariant |
| Ledger.DisconnectKeeps | lib/ddp-client.js:332-348 | ending every pending call keeps the ledger invariant and leaves the pending set empty |
| Ledger.FiredNone | lib/ddp-client.js:163-168 | a pass over ids with no entry runs nothing |
| Ledger.SecondPassFiresNothing | lib/ddp-client.js:257-264 | repeating an `updated` or `ready` for the same ids runs nothing |
| Ledger.SortedBy | lib/ddp-client.js:334 | lists a set with no key collisions in strictly increasing key order, each member once |
| Ledger.AscendingKeys | lib/ddp-client.js:334 | `_.keys` lists integer-like ids once each, in ascending numeric order |
| Client.DdpClient.constructor | lib/ddp-client.js:24-53 | the configuration as `Configure` computes it, a replica exactly when collections are kept, empty tables, counter 0, no socket, no timer, all flags false |
| Client.DdpClient.GetNextId | lib/ddp-client.js:275-277 | the counter goes up by one and the id is its decimal rendering, different from every earlier id |
| Client.DdpClient.Send | lib/ddp-client.js:120-124 | the envelope goes to the current socket; with no socket the call throws and nothing is sent |
| Client.DdpClient.AddObserver | lib/ddp-client.js:280-285 | the observer joins its collection's registry, creating the registry if needed, and the order stays ascending |
| Client.DdpClient.RemoveObserver | lib/ddp-client.js:288-292 | the observer leaves its collection's registry; an unknown collection is left alone |
| Client.DdpClient.Observe | lib/ddp-client.js:512-536 | the observer takes a fresh id from the shared counter and is registered under its collection |
| Client.DdpClient.Notify | lib/ddp-client.js:196-200 | every observer of the collection gets the notice, in registry order; with none, nothing is recorded |
| Client.DdpClient.Connect | lib/ddp-client.js:303-330 | connecting is set and failed and closing are cleared; a callback installs the listeners; one new socket is dialled at the built url, or the SockJS probe starts |
| Client.DdpClient.Close | lib/ddp-client.js:414-420 | closing is set, the socket is asked to close and the listeners removed; with no socket it throws after setting closing |
| Client.DdpClient.ClearReconnectTimeout | lib/ddp-client.js:101-107 | afterwards no timer is scheduled or live |
| Client.DdpClient.RecoverNetworkError | lib/ddp-client.js:109-116 | schedules exactly one timer, replacing any earlier one, and sets reconnecting, unless reconnect is off, the connection failed or the client is closing, in which case nothing changes |
| Client.DdpClient.OnReconnectTimer | lib/ddp-client.js:113 | a live timer fires once, leaves no live timer, and runs `connect()` without a callback |
| Client.DdpClient.EmitConnected | lib/ddp-client.js:310-316 | with a listener: the timer is cleared, the callback hears success with the reconnect flag, and connecting and reconnecting are cleared; without one nothing changes |
| Client.DdpClient.EmitFailed | lib/ddp-client.js:317-321 | with a listener: connecting is cleared, failed is set, and the callback hears the error; without one nothing changes |
| Client.DdpClient.OnOpen | lib/ddp-client.js:71-78 | the socket sends one `connect` envelope with the preferred version and the supported list |
| Client.DdpClient.OnError | lib/ddp-client.js:80-87 | an error reports a failure only while connecting |
| Client.DdpClient.OnClose | lib/ddp-client.js:89-93 | every pending call ends, then the reconnect policy applies |
| Client.DdpClient.FireResult | lib/ddp-client.js:430-436 | a result entry runs once and is deleted; a call's wrapper also takes its id out of the pending set |
| Client.DdpClient.FireUpdated | lib/ddp-client.js:438-444 | an updated entry runs once and is deleted; a call's wrapper also takes its id out of the pending set |
| Client.DdpClient.Call | lib/ddp-client.js:426-454 | a fresh id is registered with the wrapper in both tables and marked pending, then the `method` envelope is sent |
| Client.DdpClient.CallWithRandomSeed | lib/ddp-client.js:457-476 | a fresh id is registered only for the callbacks given and is not marked pending; the envelope carries the seed |
| Client.DdpClient.Subscribe | lib/ddp-client.js:479-495 | a fresh id is returned, registered in the result table only when a callback is given, and the `sub` envelope is sent |
| Client.DdpClient.Unsubscribe | lib/ddp-client.js:497-504 | only the `unsub` envelope is sent; the ledger is untouched |
| Client.DdpClient.EndPendingMethodCalls | lib/ddp-client.js:332-348 | the pending set is emptied; each formerly pending id, in ascending order, has its result entry run with the disconnection error and its updated entry run, both deleted; no other entry is touched |
| Client.DdpClient.RunDisconnectCallbacks | lib/ddp-client.js:337-347 | each listed id's two entries run once, in list order, and are deleted |
| Client.DdpClient.OnFailed | lib/ddp-client.js:138-145 | a supported version is adopted and redialled; any other turns reconnect off and reports "Cannot negotiate DDP version" |
| Client.DdpClient.OnConnected | lib/ddp-client.js:147-149 | the session id is stored and the success listener runs |
| Client.DdpClient.OnResult | lib/ddp-client.js:152-158 | the id's result entry runs once with the error and result and is deleted; an unknown or repeated id does nothing; the updated table is untouched |
| Client.DdpClient.OnNoSub | lib/ddp-client.js:172-178 | the id's result entry runs once with the error and is deleted; an unknown id does nothing |
| Client.DdpClient.OnUpdated | lib/ddp-client.js:161-169 | each listed id with an updated entry has it run once and deleted; the result table is untouched |
| Client.DdpClient.RunUpdatedCallbacks | lib/ddp-client.js:163-169 | the loop runs exactly the listed ids with an entry, once each, in list order |
| Client.DdpClient.OnReady | lib/ddp-client.js:257-264 | each listed id with a result entry has it run once without arguments and deleted |
| Client.DdpClient.RunReadyCallbacks | lib/ddp-client.js:258-264 | the loop runs exactly the listed ids with an entry, once each, in list order |
| Client.DdpClient.WriteFields | lib/ddp-client.js:190-194 | the field loop writes every supplied field over the document |
| Client.DdpClient.OnAdded | lib/ddp-client.js:181-201 | with collections kept and a collection named, the replica becomes `AddStore` and every observer hears `added(id)`; otherwise nothing changes |
| Client.DdpClient.WriteTrackedFields | lib/ddp-client.js:235-241 | the field loop writes every field and records each field's prior value (none where absent) and its new value |
| Client.DdpClient.ClearFields | lib/ddp-client.js:243-247 | every cleared name is deleted from the document |
| Client.DdpClient.OnChanged | lib/ddp-client.js:224-254 | on a known document the replica becomes `ChangeStore` and observers hear the prior values, the cleared names and the new values; otherwise nothing changes |
| Client.DdpClient.OnRemoved | lib/ddp-client.js:204-221 | an existing document is deleted and observers hear it as it was; an absent document does nothing; an unknown collection throws |
| Client.DdpClient.OnPing | lib/ddp-client.js:267-270 | a `pong` echoing the id, if any, is sent |
| Client.DdpClient.HandleMessage | lib/ddp-client.js:127-272 | keeps the client's invariants; throws exactly for `removed` on an unknown collection and for `ping` with no socket; an envelope with no or an unknown `msg` changes nothing |
| Client.DdpClient.HandleSessionMessage | lib/ddp-client.js:138-149 | `failed`, `connected` and `ping` keep the timer invariant, and only `ping` with no socket throws |
| Client.DdpClient.HandleLedgerMessage | lib/ddp-client.js:152-178 | `result`, `updated`, `nosub` and `ready` keep the ledger invariant |
| Client.DdpClient.HandleReplicaMessage | lib/ddp-client.js:181-254 | `added`, `changed` and `removed` keep the replica invariant, and only `removed` on an unknown collection throws |
| Scenarios.RapidClosesReconnectOnce | test/ddp-client.js:76-92 | three closes in a row leave one live timer; when it fires exactly one new socket opens |
| Scenarios.TimerOutlivesClose | lib/ddp-client.js:414-420 | a timer scheduled before `close` still fires, clears closing and dials again |
| Scenarios.SupportedVersionRedials | lib/ddp-client.js:138-141 | `failed` with "pre1" adopts it and dials again |
| Scenarios.RejectVersion | lib/ddp-client.js:142-145 | `failed` with an unsupported version turns reconnect off and keeps the version |
| Scenarios.UnsupportedVersionStopsReconnecting | lib/ddp-client.js:109-116 | after an unsupported version, a close schedules no timer |
| Scenarios.ChangedThenCleared | test/ddp-client.js:179-186 | added, changed "text", cleared "value": "text" holds the new value and "value" is absent |
| Scenarios.AddedThenRemoved | test/ddp-client.js:188-193 | added then removed: the document is absent and the collection stays |
| Scenarios.NoReplica | test/ddp-client.js:157-162 | with collections off, no replica appears and no observer hears anything |
| Scenarios.RemovedFromUnknownCollection | lib/ddp-client.js:204-210 | `removed` for a collection never seen throws |
| Scenarios.ObserversHearInOrder | lib/ddp-client.js:512-536 | two observers of one collection hear an `added` in registration order |
| Scenarios.StoppedObserverLeaves | lib/ddp-client.js:529-531 | a stopped observer leaves the registry and the other stays |
| Scenarios.ResultThenUpdated | lib/ddp-client.js:426-454 | call, result, updated: each callback runs once and the tables are back where they were |
| Scenarios.ReadyThenNoSub | lib/ddp-client.js:257-264 | ready runs the subscription callback once; a later `nosub` runs nothing |
| Scenarios.CallThenSubscribe | lib/ddp-client.js:426-495 | a call and a subscription take consecutive, distinct ids |
| Scenarios.DisconnectEndsCallsOnly | lib/ddp-client.js:332-348 | a close ends the call with the disconnection error and keeps the subscription's entry |

## Left out

- Socket construction (`_makeWebSocketConnection`) and the event wiring in
  `_prepareHandlers` are I/O. The model has socket generation numbers, and
  socket events are the methods `OnOpen`, `OnError` and `OnClose`. The
  `socket-error`, `socket-close` and `message` events the handlers emit are
  diagnostic and not recorded.
- EJSON encoding and decoding is an external codec. Envelopes enter already
  decoded as `Message`. A missing `fields` decodes to an empty map, a
  missing `cleared` to an empty list, and a missing or falsy `collection`
  to "".
- The SockJS info probe (`_makeSockJSConnection`) depends on an HTTP
  request, a server response and `Math.random`. `Connect` records only that
  the probe started.
- Real timers and elapsed time are replaced by timer handles and a set of
  live timers. The delay `autoReconnectTimer` is configuration only.
- EventEmitter listener stacking is left out. Repeated `connect(callback)`
  calls add listeners in the source; the model keeps one flag for "a
  listener is installed".
- Callback and observer bodies, and re-entrancy through them, are left out.
  Each run is a ghost record entry.
- `tlsOpts` and the exposed `EJSON` object are left out, because they only
  pass through.
- Numbers are unbounded. The counter `_nextId` never loses precision,
  whereas a JavaScript number does past 2^53.
- Values are a small JSON-like datatype, nested objects included, and they
  are immutable. The source hands the same document object to the replica
  and to `removed` observers, so an observer that mutates it would change
  the replica. That aliasing is not modelled.
- Collection names, document ids and ledger ids are keys of Dafny maps.
  The source keeps them in plain JavaScript objects, which also answer for
  names inherited from `Object.prototype` (`constructor`, `__proto__`,
  `valueOf`, ...). That behaviour is not modelled:
  - `removed` on collection "constructor" returns without throwing.
  - `result`, `nosub` or `ready` naming such an id calls a non-function and
    throws.
  - `added` to collection "__proto__" writes into the shared prototype.
  The model treats every such name as an ordinary key.
- Observer handles are numbers, where the source keys `_observers` by the id
  string.
- Client.DdpClient.HandleMessage: states the outcome, the invariants and that
  ignored envelopes change nothing. What each branch does to the state is
  stated by that branch's handler (`OnFailed` … `OnPing`), not repeated here.
- Client.DdpClient.HandleSessionMessage: states only the timer invariant and
  the outcome. The effects are those of `OnFailed`, `OnConnected` and
  `OnPing`.
- Client.DdpClient.HandleLedgerMessage: states only the ledger invariant. The
  effects are those of `OnResult`, `OnUpdated`, `OnNoSub` and `OnReady`.
- Client.DdpClient.HandleReplicaMessage: states only the replica invariant and
  the outcome. The effects are those of `OnAdded`, `OnChanged` and
  `OnRemoved`.
- Client.DdpClient.OnOpen: requires a socket, because only an existing
  socket opens.
