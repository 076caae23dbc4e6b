/** `ServerConnection` of
    src/main/kotlin/io/modelcontextprotocol/example/connection/ServerConnection.kt:
    a connect-once, close-resets guard around one nullable SDK client. Each
    operation runs as one step under the connection's mutex, so each method
    here is atomic. */
module Connection {
  import opened Wrappers

  /** An SDK `Client` that `createClient()` connected; only its identity matters here. */
  datatype ClientHandle = ClientHandle(id: nat)

  /** What `createClient()` does this time: a connected client, or the exception it throws. */
  datatype Creation = Created(client: ClientHandle) | CreationFailed(reason: string)

  /** One item of a tool result's `content` list: `TextContent` with its
      nullable `text`, or any other content class, known by its simple name. */
  datatype Content = TextContent(text: Option<string>) | OtherContent(className: string)

  datatype CallToolResult = CallToolResult(content: seq<Content>)

  /** What the SDK client answered to `callTool`: a `CallToolResult`, some
      other result type (which `as? CallToolResult` turns into null), null,
      or an exception with its nullable message. */
  datatype ToolReply =
    | ReturnedResult(result: CallToolResult)
    | ReturnedOther
    | ReturnedNull
    | Threw(message: Option<string>)

  /** The `IllegalStateException("Already connected")` of `connect`. */
  datatype ConnectError = AlreadyConnected

  function ConnectErrorMessage(e: ConnectError): string {
    "Already connected"
  }

  class ServerConnection {
    var client: Option<ClientHandle>
    /** The SDK clients `close` has closed, in order. */
    var closedClients: seq<ClientHandle>

    constructor ()
      ensures client == None && closedClients == []
    {
      client := None;
      closedClients := [];
    }

    /** `connect()`: refused while a client is set, leaving it in place;
        otherwise the created client is stored and `true` returned, or the
        creation failed, nothing is stored and `false` returned. */
    method Connect(creation: Creation) returns (r: Result<bool, ConnectError>)
      modifies this
      ensures old(client).Some? ==> r == Failure(AlreadyConnected) && client == old(client)
      ensures old(client).None? ==>
                && r == Success(creation.Created?)
                && client == (if creation.Created? then Some(creation.client) else None)
      ensures closedClients == old(closedClients)
    {
      if client.Some? {
        return Failure(AlreadyConnected);
      }
      match creation {
        case Created(c) =>
          client := Some(c);
          r := Success(true);
        case CreationFailed(_) =>
          r := Success(false);
      }
    }

    /** `callTool(toolName, arguments)`: null without a client (the SDK is
        not asked); otherwise the client's answer if it is a
        `CallToolResult`, null if it is anything else, and an exception
        from the client passes through. */
    method CallTool(reply: ToolReply) returns (r: Result<Option<CallToolResult>, Option<string>>)
      ensures client.None? ==> r == Success(None)
      ensures client.Some? ==>
                && (r.Failure? <==> reply.Threw?)
                && (r.Failure? ==> r.error == reply.message)
                && (r == Success(None) <==> reply.ReturnedOther? || reply.ReturnedNull?)
                && (reply.ReturnedResult? ==> r == Success(Some(reply.result)))
    {
      if client.None? {
        return Success(None);
      }
      match reply {
        case ReturnedResult(result) => r := Success(Some(result));
        case ReturnedOther => r := Success(None);
        case ReturnedNull => r := Success(None);
        case Threw(message) => r := Failure(message);
      }
    }

    /** `close()`: the client, if any, is closed and the field cleared. */
    method Close()
      modifies this
      ensures client == None
      ensures closedClients == old(closedClients) + (if old(client).Some? then [old(client).value] else [])
    {
      if client.Some? {
        closedClients := closedClients + [client.value];
      }
      client := None;
    }
  }

  /** Closing resets the guard: a connection that was connected, closed and
      connected again holds the new client, and the old one was closed. */
  method ReconnectAfterClose(first: ClientHandle, second: ClientHandle)
  {
    var connection := new ServerConnection();
    var r1 := connection.Connect(Created(first));
    assert r1 == Success(true);
    var refused := connection.Connect(Created(second));
    assert refused == Failure(AlreadyConnected) && connection.client == Some(first);
    connection.Close();
    assert connection.closedClients == [first];
    var r2 := connection.Connect(Created(second));
    assert r2 == Success(true) && connection.client == Some(second);
  }
}
