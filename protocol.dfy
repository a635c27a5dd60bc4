/** The envelopes exchanged with the server, already decoded, and the records
    the model keeps of what the client did with them: envelopes sent,
    callbacks run, observer notifications delivered. */
module Protocol {
  import opened Values

  /** A document: field name to value, normally holding its id under "_id". */
  type Doc = map<string, Value>

  /** A decoded server-to-client envelope, one case per `msg` value the
      client reacts to. An absent field list is the empty map, an absent
      `cleared` list the empty sequence, an absent `collection` the empty
      string. */
  datatype Message =
    | Undiscriminated                    // no `msg`, or an empty one
    | Unrecognised(msg: string)          // any other `msg`: ignored
    | Failed(version: Option<string>)
    | Connected(session: Option<string>)
    | Result(id: string, error: Option<Value>, result: Option<Value>)
    | Updated(methods: seq<string>)
    | NoSub(id: string, error: Option<Value>)
    | Added(collection: string, id: string, fields: map<string, Value>)
    | Removed(collection: string, id: string)
    | Changed(collection: string, id: string, fields: map<string, Value>, cleared: seq<string>)
    | Ready(subs: seq<string>)
    | Ping(pingId: Option<Value>)

  /** A client-to-server envelope. */
  datatype Envelope =
    | ConnectEnvelope(version: string, support: seq<string>)
    | MethodEnvelope(id: string, methodName: string, params: seq<Value>, randomSeed: Option<Value>)
    | SubEnvelope(id: string, name: string, params: seq<Value>)
    | UnsubEnvelope(id: string)
    | PongEnvelope(pongId: Option<Value>)

  /** An envelope written to the socket with the given generation number. */
  datatype Sent = Sent(socket: nat, envelope: Envelope)

  /** The arguments an entry of the result table is run with. */
  datatype Completion =
    | MethodResult(error: Option<Value>, result: Option<Value>)   // `result`: cb(error, result)
    | SubscriptionStopped(error: Option<Value>)                    // `nosub`: cb(error)
    | NoArguments                                                  // `ready`: cb()
    | Disconnected                                                 // socket closed: cb(ERRORS.DISCONNECTED)

  /** One run of the result-table entry for `id`. (A run of an
      updated-table entry takes no arguments and is recorded by its id.) */
  datatype Firing = Firing(id: string, completion: Completion)

  /** What an observer is told. `oldFields` maps each written field to its
      prior value, `None` where the field did not exist. */
  datatype Notice =
    | DocAdded(id: string)
    | DocChanged(id: string, oldFields: map<string, Option<Value>>, cleared: seq<string>, newFields: map<string, Value>)
    | DocRemoved(id: string, oldValue: Doc)

  datatype Notification = Notification(observer: nat, notice: Notice)

  /** One run of the callback given to `connect`. */
  datatype ConnectReport = ConnectReport(error: Option<string>, wasReconnect: bool)

  /** Transport actions: a socket opened on a URL, the SockJS info probe
      started, a socket asked to close. */
  datatype Dial =
    | Opened(socket: nat, url: string)
    | InfoProbe
    | Shut(socket: nat)

  /** How a handler ended: normally, or by throwing (a TypeError in the
      source). */
  datatype Outcome = Returned | Threw(error: string)

  const NoSocketError := "TypeError: socket is undefined"
  const UnknownCollectionError := "TypeError: collection is undefined"
  const VersionError := "Cannot negotiate DDP version"
}
