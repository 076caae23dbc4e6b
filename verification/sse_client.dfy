/** The client side of the MCP transport over Server-Sent Events: the class
    `McpClient` of src/main/kotlin/io/modelcontextprotocol/example/client/Main.kt.

    The transport opens one event stream, learns the POST endpoint of its
    session from an `endpoint` event, hands every other event to the JSON
    codec, and POSTs outgoing JSON-RPC messages to the endpoint.  The state
    it keeps is an abstract `ClientState`; the transition functions below
    (`Dispatch`, `Step`, `Settle`, `Drain`, `StartSpec`, `SendSpec`,
    `CloseSpec`) say what each operation does to it, and the class `McpClient`
    at the end is proved to implement them field by field.

    The network stream is the finite sequence of events it delivers, the
    POST is the reply it gets, and the JSON codec is an arbitrary `Codec`. */
module SseClient {
  import opened Wrappers

  datatype RequestId = NumberId(n: int) | StringId(s: string)

  /** A JSON-RPC 2.0 envelope. Parameters, results and errors are carried as
      opaque JSON text: the transport never looks inside them. */
  datatype JsonRpcMessage =
    | Request(id: RequestId, methodName: string, params: Option<string>)
    | Notification(methodName: string, params: Option<string>)
    | Response(id: RequestId, result: Option<string>, error: Option<string>)

  /** `Json.decodeFromString<JSONRPCMessage>` (which may fail) and
      `Json.encodeToString`. Nothing is assumed about either. */
  datatype Codec = Codec(decode: string -> Option<JsonRpcMessage>, encode: JsonRpcMessage -> string)

  /** One server-sent event: its `event` name and its `data`, both nullable. */
  datatype SseEvent = SseEvent(name: Option<string>, data: Option<string>)

  /** What `client.sseSession(...)` did: it opened a stream that delivers
      `events`, or it threw. */
  datatype StreamOpening = Opened(events: seq<SseEvent>) | OpenFailed(reason: string)

  /** What `client.post(endpointUrl)` did: it got an HTTP status and body, or it threw. */
  datatype PostReply = Answered(status: int, body: string) | PostThrew(reason: string)

  datatype TransportError =
    | AlreadyStarted                          // "SSEClientTransport already started! ..."
    | NotInitialized                          // "SSEClientTransport is not initialized!"
    | SessionUnset                            // `session` read before `start` assigned it
    | NotConnected                            // "Not connected"
    | StreamFailed(reason: string)            // `sseSession` threw
    | SseError(data: Option<string>)          // "SSE error: <data>"
    | DecodeFailed(payload: string)           // the codec rejected an event's data
    | PostRejected(status: int, body: string) // "Error POSTing to endpoint (HTTP <status>): <body>"
    | PostFailed(reason: string)              // `client.post` threw

  /** One invocation of a callback slot, in the order they happen. */
  datatype Callback =
    | MessageDelivered(message: JsonRpcMessage)
    | ErrorReported(error: TransportError)
    | CloseReported

  /** Which of the nullable `onMessage`, `onError`, `onClose` slots hold a handler. */
  datatype Slots = Slots(onMessage: bool, onError: bool, onClose: bool)

  /** One POST the transport sent: the URL and the encoded message. */
  datatype Post = Post(url: string, body: string)

  /** How `start()` ends: it returns once the endpoint is known, it throws,
      or it stays suspended in `endpoint.await()` for good. */
  datatype StartOutcome = Connected(endpoint: string) | StartFailed(error: TransportError) | Suspended

  datatype ClientState = ClientState(
    slots: Slots,
    initialized: bool,           // the `initialized` AtomicBoolean
    hasSession: bool,            // `session` has been assigned
    streamsOpened: nat,          // how many event streams this transport opened
    sessionCancelled: bool,      // `session.cancel()` was called
    endpoint: Option<string>,    // the `endpoint` deferred: completed or not
    listening: bool,             // the collecting job is alive
    incoming: seq<SseEvent>,     // events the stream has yet to hand to the job
    callbacks: seq<Callback>,    // every callback invocation so far
    posts: seq<Post>)            // every POST so far

  function Initial(): ClientState {
    ClientState(Slots(false, false, false), false, false, 0, false, None, false, [], [], [])
  }

  /** `slot?.invoke(...)`: the invocation happens only when a handler is registered. */
  function Invoke(log: seq<Callback>, registered: bool, cb: Callback): seq<Callback> {
    if registered then log + [cb] else log
  }

  /** The body of the collecting loop: what one event does. */
  function Dispatch(s: ClientState, ev: SseEvent, codec: Codec): ClientState {
    if ev.name == Some("error") then
      s.(callbacks := Invoke(s.callbacks, s.slots.onError, ErrorReported(SseError(ev.data))),
         listening := false)
    else if ev.name == Some("open") then
      s
    else if ev.name == Some("endpoint") then
      // `endpoint.complete(data)` has no effect on an already completed deferred
      if s.endpoint.None? then s.(endpoint := Some(ev.data.GetOr(""))) else s
    else
      match codec.decode(ev.data.GetOr(""))
      case Some(m) => s.(callbacks := Invoke(s.callbacks, s.slots.onMessage, MessageDelivered(m)))
      case None => s.(callbacks := Invoke(s.callbacks, s.slots.onError, ErrorReported(DecodeFailed(ev.data.GetOr("")))))
  }

  /** The listener has an event to handle. */
  predicate Active(s: ClientState) {
    s.listening && |s.incoming| > 0
  }

  /** The listener takes the next event off the stream and handles it. */
  function Step(s: ClientState, codec: Codec): ClientState {
    if Active(s) then Dispatch(s.(incoming := s.incoming[1..]), s.incoming[0], codec) else s
  }

  /** The listener runs until the endpoint is known or it has nothing left to do:
      the point at which `endpoint.await()` in `start()` returns, if it ever does. */
  function Settle(s: ClientState, codec: Codec): ClientState
    decreases |s.incoming|
  {
    if Active(s) && s.endpoint.None? then Settle(Step(s, codec), codec) else s
  }

  /** The listener runs until the stream has nothing more or the listener stopped. */
  function Drain(s: ClientState, codec: Codec): ClientState
    decreases |s.incoming|
  {
    if Active(s) then Drain(Step(s, codec), codec) else s
  }

  /** `start()`. */
  function StartSpec(s: ClientState, opening: StreamOpening, codec: Codec): (ClientState, StartOutcome) {
    if s.initialized then (s, StartFailed(AlreadyStarted))
    else
      match opening
      case OpenFailed(reason) =>
        // compareAndSet already flipped `initialized`; the exception leaves it set
        (s.(initialized := true), StartFailed(StreamFailed(reason)))
      case Opened(events) =>
        var t := Settle(s.(initialized := true, hasSession := true, streamsOpened := s.streamsOpened + 1,
                           incoming := events, listening := true), codec);
        (t, if t.endpoint.Some? then Connected(t.endpoint.value) else Suspended)
  }

  /** `isSuccess()` of a Ktor `HttpStatusCode`. */
  predicate IsSuccess(status: int) {
    200 <= status < 300
  }

  /** `send(message)`. */
  function SendSpec(s: ClientState, msg: JsonRpcMessage, reply: PostReply, codec: Codec): (ClientState, Outcome<TransportError>) {
    if s.endpoint.None? then (s, Fail(NotConnected))
    else
      var t := s.(posts := s.posts + [Post(s.endpoint.value, codec.encode(msg))]);
      match reply
      case Answered(status, body) =>
        if IsSuccess(status) then (t, Pass)
        else (t.(callbacks := Invoke(t.callbacks, s.slots.onError, ErrorReported(PostRejected(status, body)))),
              Fail(PostRejected(status, body)))
      case PostThrew(reason) =>
        (t.(callbacks := Invoke(t.callbacks, s.slots.onError, ErrorReported(PostFailed(reason)))),
         Fail(PostFailed(reason)))
  }

  /** `close()`. */
  function CloseSpec(s: ClientState): (ClientState, Outcome<TransportError>) {
    if !s.initialized then (s, Fail(NotInitialized))
    else if !s.hasSession then (s, Fail(SessionUnset))
    else (s.(sessionCancelled := true,
             callbacks := Invoke(s.callbacks, s.slots.onClose, CloseReported),
             listening := false),
          Pass)
  }

  /** What holds of every state the transport can reach. */
  ghost predicate Inv(s: ClientState) {
    && (s.hasSession ==> s.initialized)
    && s.streamsOpened == (if s.hasSession then 1 else 0)
    && (s.endpoint.Some? ==> s.hasSession)
    && (s.listening ==> s.hasSession && !s.sessionCancelled)
    && (s.sessionCancelled ==> s.hasSession)
    && (!s.hasSession ==> s.callbacks == [] && s.posts == [] && s.incoming == [])
    && (forall i | 0 <= i < |s.posts| :: s.endpoint == Some(s.posts[i].url))
  }

  // ------------------------------------------------------------------
  // The invariant is kept by every operation
  // ------------------------------------------------------------------

  lemma InvInitial()
    ensures Inv(Initial())
  {
  }

  lemma StepKeepsInv(s: ClientState, codec: Codec)
    requires Inv(s)
    ensures Inv(Step(s, codec))
    ensures Step(s, codec).posts == s.posts
    ensures Step(s, codec).initialized == s.initialized && Step(s, codec).slots == s.slots
  {
  }

  lemma {:induction false} DrainKeepsInv(s: ClientState, codec: Codec)
    requires Inv(s)
    ensures Inv(Drain(s, codec))
    ensures Drain(s, codec).initialized == s.initialized && Drain(s, codec).slots == s.slots
    ensures Drain(s, codec).posts == s.posts
    decreases |s.incoming|
  {
    if Active(s) {
      StepKeepsInv(s, codec);
      DrainKeepsInv(Step(s, codec), codec);
    }
  }

  lemma {:induction false} SettleKeepsInv(s: ClientState, codec: Codec)
    requires Inv(s)
    ensures Inv(Settle(s, codec))
    ensures Settle(s, codec).initialized == s.initialized && Settle(s, codec).slots == s.slots
    ensures Settle(s, codec).posts == s.posts
    decreases |s.incoming|
  {
    if Active(s) && s.endpoint.None? {
      StepKeepsInv(s, codec);
      SettleKeepsInv(Step(s, codec), codec);
    }
  }

  lemma StartKeepsInv(s: ClientState, opening: StreamOpening, codec: Codec)
    requires Inv(s)
    ensures Inv(StartSpec(s, opening, codec).0)
    ensures StartSpec(s, opening, codec).0.initialized
    ensures StartSpec(s, opening, codec).0.posts == s.posts
  {
    if !s.initialized && opening.Opened? {
      SettleKeepsInv(s.(initialized := true, hasSession := true, streamsOpened := s.streamsOpened + 1,
                        incoming := opening.events, listening := true), codec);
    }
  }

  lemma SendKeepsInv(s: ClientState, msg: JsonRpcMessage, reply: PostReply, codec: Codec)
    requires Inv(s)
    ensures Inv(SendSpec(s, msg, reply, codec).0)
  {
  }

  lemma CloseKeepsInv(s: ClientState)
    requires Inv(s)
    ensures Inv(CloseSpec(s).0)
  {
  }

  // ------------------------------------------------------------------
  // Lifecycle properties
  // ------------------------------------------------------------------

  /** A second `start()` fails with AlreadyStarted and changes nothing; in
      particular it opens no second stream. */
  lemma SecondStartRejected(s: ClientState, first: StreamOpening, second: StreamOpening, codec: Codec)
    requires Inv(s)
    ensures var t := StartSpec(s, first, codec).0;
            StartSpec(t, second, codec) == (t, StartFailed(AlreadyStarted)) && t.streamsOpened <= 1
  {
    StartKeepsInv(s, first, codec);
  }

  /** `send` before the endpoint is known fails with NotConnected, posts
      nothing and calls no handler: the check comes before the `try`. */
  lemma SendBeforeEndpointFails(s: ClientState, msg: JsonRpcMessage, reply: PostReply, codec: Codec)
    requires s.endpoint.None?
    ensures SendSpec(s, msg, reply, codec) == (s, Fail(NotConnected))
  {
  }

  /** A send that got past the check posts the encoded message to exactly the
      stored endpoint; any failure reaches `onError` (if set) and the caller. */
  lemma SendPostsToEndpoint(s: ClientState, msg: JsonRpcMessage, reply: PostReply, codec: Codec)
    requires s.endpoint.Some?
    ensures var (t, r) := SendSpec(s, msg, reply, codec);
            && t.posts == s.posts + [Post(s.endpoint.value, codec.encode(msg))]
            && t.endpoint == s.endpoint
            && (r.Pass? <==> reply.Answered? && IsSuccess(reply.status))
            && (r.Fail? ==> t.callbacks == Invoke(s.callbacks, s.slots.onError, ErrorReported(r.error)))
            && (r.Pass? ==> t.callbacks == s.callbacks)
  {
  }

  /** `close` before `start` fails; after it, the stream is cancelled,
      `onClose` fires and the listener is stopped, so that running the
      listener afterwards invokes no further callback. */
  lemma CloseStopsCallbacks(s: ClientState, codec: Codec)
    ensures !s.initialized ==> CloseSpec(s) == (s, Fail(NotInitialized))
    ensures CloseSpec(s).1.Pass? ==>
              && CloseSpec(s).0.sessionCancelled
              && CloseSpec(s).0.callbacks == Invoke(s.callbacks, s.slots.onClose, CloseReported)
              && Drain(CloseSpec(s).0, codec) == CloseSpec(s).0
  {
  }

  // ------------------------------------------------------------------
  // The endpoint
  // ------------------------------------------------------------------

  /** The data of the first `endpoint` event of a stream, verbatim (null as
      ""), unless an `error` event comes first. */
  function FirstEndpoint(events: seq<SseEvent>): Option<string> {
    if |events| == 0 then None
    else if events[0].name == Some("error") then None
    else if events[0].name == Some("endpoint") then Some(events[0].data.GetOr(""))
    else FirstEndpoint(events[1..])
  }

  /** Once the endpoint is known, nothing the listener does changes it. */
  lemma {:induction false} EndpointNeverChanges(s: ClientState, codec: Codec)
    requires s.endpoint.Some?
    ensures Drain(s, codec).endpoint == s.endpoint
    ensures Settle(s, codec) == s
    decreases |s.incoming|
  {
    if Active(s) {
      EndpointNeverChanges(Step(s, codec), codec);
    }
  }

  /** The endpoint the listener records is the data of the first `endpoint`
      event, exactly as sent: the stream's own URL plays no part in it. */
  lemma {:induction false} EndpointIsFirstAnnounced(s: ClientState, codec: Codec)
    requires s.endpoint.None? && s.listening
    ensures Drain(s, codec).endpoint == FirstEndpoint(s.incoming)
    ensures Settle(s, codec).endpoint == FirstEndpoint(s.incoming)
    decreases |s.incoming|
  {
    if |s.incoming| > 0 {
      var t := Step(s, codec);
      var ev := s.incoming[0];
      assert t.incoming == s.incoming[1..];
      if ev.name == Some("error") {
        assert !t.listening;
      } else if ev.name == Some("endpoint") {
        EndpointNeverChanges(t, codec);
      } else {
        EndpointIsFirstAnnounced(t, codec);
      }
    }
  }

  /** `start()` returns exactly when the stream announces an endpoint before
      any `error` event, and the endpoint it connects to is that
      announcement's data. Otherwise it stays suspended (an `error` event
      ends the listener but does not complete the deferred). */
  lemma StartAdoptsAnnouncedEndpoint(s: ClientState, events: seq<SseEvent>, codec: Codec)
    requires !s.initialized && s.endpoint.None?
    ensures var (t, outcome) := StartSpec(s, Opened(events), codec);
            && t.endpoint == FirstEndpoint(events)
            && outcome == (if FirstEndpoint(events).Some? then Connected(FirstEndpoint(events).value) else Suspended)
  {
    EndpointIsFirstAnnounced(s.(initialized := true, hasSession := true, streamsOpened := s.streamsOpened + 1,
                                incoming := events, listening := true), codec);
  }

  // ------------------------------------------------------------------
  // Messages and decode errors
  // ------------------------------------------------------------------

  /** The messages handed to `onMessage`, in order. */
  function Messages(log: seq<Callback>): seq<JsonRpcMessage> {
    if |log| == 0 then []
    else Messages(log[..|log| - 1]) + (if log[|log| - 1].MessageDelivered? then [log[|log| - 1].message] else [])
  }

  /** What one event contributes to `onMessage`: its decoded data, when it
      is not an `error`, `open` or `endpoint` event and it decodes. */
  function Decoded(ev: SseEvent, codec: Codec): seq<JsonRpcMessage> {
    if ev.name in {Some("error"), Some("open"), Some("endpoint")} then []
    else
      match codec.decode(ev.data.GetOr(""))
      case Some(m) => [m]
      case None => []
  }

  /** The messages a stream carries, up to its first `error` event. Events
      that fail to decode contribute nothing and do not stop the rest. */
  function Delivered(events: seq<SseEvent>, codec: Codec): seq<JsonRpcMessage> {
    if |events| == 0 || events[0].name == Some("error") then []
    else Decoded(events[0], codec) + Delivered(events[1..], codec)
  }

  lemma MessagesOfAppended(log: seq<Callback>, registered: bool, cb: Callback)
    ensures Messages(Invoke(log, registered, cb)) ==
            Messages(log) + (if registered && cb.MessageDelivered? then [cb.message] else [])
  {
    if registered {
      assert (log + [cb])[..|log|] == log;
    }
  }

  lemma StepMessages(s: ClientState, codec: Codec)
    requires Active(s) && s.slots.onMessage
    ensures Messages(Step(s, codec).callbacks) == Messages(s.callbacks) + Decoded(s.incoming[0], codec)
  {
    var ev := s.incoming[0];
    if ev.name == Some("error") {
      MessagesOfAppended(s.callbacks, s.slots.onError, ErrorReported(SseError(ev.data)));
    } else if ev.name == Some("open") || ev.name == Some("endpoint") {
    } else {
      match codec.decode(ev.data.GetOr(""))
      case Some(m) =>
        MessagesOfAppended(s.callbacks, true, MessageDelivered(m));
      case None =>
        MessagesOfAppended(s.callbacks, s.slots.onError, ErrorReported(DecodeFailed(ev.data.GetOr(""))));
    }
  }

  /** Every decodable message event up to the first `error` event reaches
      `onMessage`, in stream order: a payload that fails to decode is
      reported and skipped, and the events after it are still handled. */
  lemma {:induction false} ListenerDeliversInOrder(s: ClientState, codec: Codec)
    requires s.listening && s.slots.onMessage
    ensures Messages(Drain(s, codec).callbacks) == Messages(s.callbacks) + Delivered(s.incoming, codec)
    decreases |s.incoming|
  {
    if |s.incoming| > 0 {
      var t := Step(s, codec);
      StepMessages(s, codec);
      if s.incoming[0].name != Some("error") {
        assert t.incoming == s.incoming[1..] && t.listening;
        ListenerDeliversInOrder(t, codec);
      }
    }
  }

  /** A payload that does not decode is reported to `onError` and the listener
      goes on with the next event. */
  lemma DecodeFailureIsRecoverable(s: ClientState, codec: Codec)
    requires Active(s)
    requires s.incoming[0].name !in {Some("error"), Some("open"), Some("endpoint")}
    requires codec.decode(s.incoming[0].data.GetOr("")).None?
    ensures Step(s, codec).listening
    ensures Step(s, codec).incoming == s.incoming[1..]
    ensures Step(s, codec).callbacks ==
            Invoke(s.callbacks, s.slots.onError, ErrorReported(DecodeFailed(s.incoming[0].data.GetOr(""))))
  {
  }

  /** An `error` event is reported to `onError` and ends the listener: no
      later event is handled. An `open` event changes nothing. */
  lemma ErrorEventEndsListener(s: ClientState, codec: Codec)
    requires Active(s)
    ensures s.incoming[0].name == Some("error") ==>
              && Drain(s, codec) == Step(s, codec)
              && !Drain(s, codec).listening
              && Drain(s, codec).callbacks == Invoke(s.callbacks, s.slots.onError, ErrorReported(SseError(s.incoming[0].data)))
    ensures s.incoming[0].name == Some("open") ==> Step(s, codec) == s.(incoming := s.incoming[1..])
  {
  }

  // ------------------------------------------------------------------
  // The transport object
  // ------------------------------------------------------------------

  class McpClient {
    const codec: Codec
    var slots: Slots
    var initialized: bool
    var hasSession: bool
    var streamsOpened: nat
    var sessionCancelled: bool
    var endpoint: Option<string>
    var listening: bool
    var incoming: seq<SseEvent>
    var callbacks: seq<Callback>
    var posts: seq<Post>

    /** The abstract state the fields represent. */
    function State(): ClientState
      reads this
    {
      ClientState(slots, initialized, hasSession, streamsOpened, sessionCancelled,
                  endpoint, listening, incoming, callbacks, posts)
    }

    ghost predicate Valid()
      reads this
    {
      Inv(State())
    }

    constructor (codec: Codec)
      ensures Valid() && State() == Initial() && this.codec == codec
    {
      this.codec := codec;
      slots := Slots(false, false, false);
      initialized, hasSession, streamsOpened, sessionCancelled := false, false, 0, false;
      endpoint, listening, incoming := None, false, [];
      callbacks, posts := [], [];
    }

    /** Registers handlers in the `onMessage`, `onError` and `onClose` slots,
        as `Client.connect` does before it calls `start`. */
    method SetHandlers(handlers: Slots)
      requires Valid()
      modifies this
      ensures Valid() && State() == old(State()).(slots := handlers)
    {
      slots := handlers;
    }

    /** One pass of the collecting loop: the next event, if the listener is alive and one is waiting. */
    method Receive()
      requires Valid()
      modifies this
      ensures Valid() && State() == Step(old(State()), codec)
    {
      StepKeepsInv(State(), codec);
      if !listening || |incoming| == 0 {
        return;
      }
      var ev := incoming[0];
      incoming := incoming[1..];
      if ev.name == Some("error") {
        if slots.onError {
          callbacks := callbacks + [ErrorReported(SseError(ev.data))];
        }
        listening := false;
      } else if ev.name == Some("open") {
      } else if ev.name == Some("endpoint") {
        if endpoint.None? {
          endpoint := Some(ev.data.GetOr(""));
        }
      } else {
        var data := ev.data.GetOr("");
        match codec.decode(data)
        case Some(m) =>
          if slots.onMessage {
            callbacks := callbacks + [MessageDelivered(m)];
          }
        case None =>
          if slots.onError {
            callbacks := callbacks + [ErrorReported(DecodeFailed(data))];
          }
      }
    }

    /** The collecting loop run to its end. */
    method Listen()
      requires Valid()
      modifies this
      ensures Valid() && State() == Drain(old(State()), codec)
    {
      while listening && |incoming| > 0
        invariant Valid()
        invariant Drain(State(), codec) == Drain(old(State()), codec)
        decreases |incoming|
      {
        Receive();
      }
    }

    method Start(opening: StreamOpening) returns (outcome: StartOutcome)
      requires Valid()
      modifies this
      ensures Valid() && (State(), outcome) == StartSpec(old(State()), opening, codec)
    {
      if initialized {
        return StartFailed(AlreadyStarted);
      }
      initialized := true;
      match opening
      case OpenFailed(reason) =>
        return StartFailed(StreamFailed(reason));
      case Opened(events) =>
        hasSession := true;
        streamsOpened := streamsOpened + 1;
        incoming := events;
        listening := true;
        AwaitEndpoint();
        outcome := if endpoint.Some? then Connected(endpoint.value) else Suspended;
    }

    /** The wait of `start` for the endpoint: events are handled one by one
        until the endpoint is known, the stream stops or it runs dry. */
    method AwaitEndpoint()
      requires Valid()
      modifies this
      ensures Valid() && State() == Settle(old(State()), codec)
    {
      while listening && |incoming| > 0 && endpoint.None?
        invariant Valid()
        invariant Settle(State(), codec) == Settle(old(State()), codec)
        decreases |incoming|
      {
        Receive();
      }
    }

    method Send(msg: JsonRpcMessage, reply: PostReply) returns (result: Outcome<TransportError>)
      requires Valid()
      modifies this
      ensures Valid()
      ensures (State(), result) == SendSpec(old(State()), msg, reply, codec)
    {
      if endpoint.None? {
        return Fail(NotConnected);
      }
      var url := endpoint.value;
      posts := posts + [Post(url, codec.encode(msg))];
      match reply {
        case Answered(status, body) =>
          if IsSuccess(status) {
            result := Pass;
          } else {
            result := Fail(PostRejected(status, body));
          }
        case PostThrew(reason) =>
          result := Fail(PostFailed(reason));
      }
      if result.Fail? && slots.onError {
        callbacks := callbacks + [ErrorReported(result.error)];
      }
    }

    method Close() returns (result: Outcome<TransportError>)
      requires Valid()
      modifies this
      ensures Valid() && (State(), result) == CloseSpec(old(State()))
    {
      if !initialized {
        return Fail(NotInitialized);
      }
      if !hasSession {
        return Fail(SessionUnset);
      }
      sessionCancelled := true;
      if slots.onClose {
        callbacks := callbacks + [CloseReported];
      }
      listening := false;
      result := Pass;
    }
  }

  /** The scenario of a fresh transport whose stream announces
      `http://host/message?sessionId=abc123`: `start` returns and the stored
      endpoint is that string, and a later send posts to it. */
  method EndpointScenario(codec: Codec, msg: JsonRpcMessage)
  {
    var url := "http://host/message?sessionId=abc123";
    var client := new McpClient(codec);
    var events := [SseEvent(Some("open"), None), SseEvent(Some("endpoint"), Some(url))];
    assert FirstEndpoint(events) == Some(url) by {
      assert events[1..] == [SseEvent(Some("endpoint"), Some(url))];
    }
    StartAdoptsAnnouncedEndpoint(Initial(), events, codec);
    StartKeepsInv(Initial(), Opened(events), codec);
    var started := client.Start(Opened(events));
    assert started == Connected(url);
    var sent := client.Send(msg, Answered(202, "Accepted"));
    assert sent == Pass && client.posts == [Post(url, codec.encode(msg))];
    var again := client.Start(Opened([]));
    assert again == StartFailed(AlreadyStarted) && client.streamsOpened == 1;
  }
}
