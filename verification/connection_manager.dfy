/** `ConnectionManager` of
    bin/main/io/modelcontextprotocol/example/connection/ConnectionManager.kt:
    a table of server connections (only ever the key "default"), the
    rendering of a tool call's outcome as text, and the lazily created
    process-wide instance. */
module ConnectionPool {
  import opened Wrappers
  import opened Text
  import opened Connection

  const DefaultKey: string := "default"
  const NotConnectedText: string := "Error: Server not connected"
  const CallFailedText: string := "Error: Tool call failed"

  /** One content item as a line of text: a text item's text (`""` when
      null), otherwise a note naming the content's class. */
  function RenderContent(c: Content): (text: string)
    ensures c.TextContent? ==> text == c.text.GetOr("")
    ensures c.OtherContent? ==> StartsWith(text, "Unexpected content type: ") && text[25..] == c.className
  {
    match c
    case TextContent(t) => t.GetOr("")
    case OtherContent(className) => "Unexpected content type: " + className
  }

  function RenderContents(cs: seq<Content>): (lines: seq<string>)
    ensures |lines| == |cs|
    ensures forall i | 0 <= i < |cs| :: lines[i] == RenderContent(cs[i])
  {
    if |cs| == 0 then [] else [RenderContent(cs[0])] + RenderContents(cs[1..])
  }

  /** The `try`/`when` of `callTool` once a connection is found: a
      `CallToolResult` becomes its contents' lines joined by newlines, no
      result becomes "Error: Tool call failed", and an exception becomes
      "Error: " and its message (`null` printed as "null"). */
  function RenderOutcome(outcome: Result<Option<CallToolResult>, Option<string>>): (text: string)
    ensures outcome.Failure? ==> StartsWith(text, "Error: ") && text[7..] == outcome.error.GetOr("null")
    ensures outcome == Success(None) ==> text == CallFailedText
    ensures outcome == Success(Some(CallToolResult([]))) ==> text == ""
    ensures outcome.Success? && outcome.value.Some? && |outcome.value.value.content| == 1 ==>
              text == RenderContent(outcome.value.value.content[0])
  {
    match outcome
    case Failure(message) =>
      var text := "Error: " + message.GetOr("null");
      assert text[..7] == "Error: " && text[7..] == message.GetOr("null");
      text
    case Success(None) => CallFailedText
    case Success(Some(result)) => Join(RenderContents(result.content), "\n")
  }

  /** A result made of text items without newlines can be read back item
      by item from the rendered text. */
  lemma RenderedTextsReadBack(result: CallToolResult, texts: seq<string>)
    requires |texts| >= 1 && |result.content| == |texts|
    requires forall i | 0 <= i < |texts| :: result.content[i] == TextContent(Some(texts[i])) && '\n' !in texts[i]
    ensures Split(RenderOutcome(Success(Some(result))), '\n') == texts
  {
    assert RenderContents(result.content) == texts;
    SplitJoin(texts, '\n');
  }

  /** Any result whose rendered lines hold no newline reads back line by
      line, whatever mix of text, null text and other content it holds. */
  lemma RenderedLinesReadBack(result: CallToolResult)
    requires |result.content| >= 1
    requires forall i | 0 <= i < |result.content| :: '\n' !in RenderContents(result.content)[i]
    ensures Split(RenderOutcome(Success(Some(result))), '\n') == RenderContents(result.content)
  {
    SplitJoin(RenderContents(result.content), '\n');
  }

  /** A thrown message is reported after "Error: ", and a missing result is
      told apart from any thrown message. */
  lemma FailuresAreReported(message: string)
    ensures var text := RenderOutcome(Failure(Some(message)));
            StartsWith(text, "Error: ") && text[7..] == message
    ensures RenderOutcome(Failure(Some(message))) != CallFailedText <==> message != "Tool call failed"
  {
    var text := RenderOutcome(Failure(Some(message)));
    assert text[7..] == message;
    if message != "Tool call failed" {
      assert text[7..] != CallFailedText[7..];
    }
  }

  class ConnectionManager {
    var connections: map<string, ServerConnection>

    constructor ()
      ensures connections == map[]
    {
      connections := map[];
    }

    /** `connect()`: a new connection is stored under "default" when it
        connects, replacing any earlier one; otherwise the table is left as
        it was. A new connection has no client, so its own guard never
        refuses here. */
    method Connect(creation: Creation) returns (connected: bool)
      modifies this
      ensures connected <==> creation.Created?
      ensures connected ==>
                && DefaultKey in connections
                && connections == old(connections)[DefaultKey := connections[DefaultKey]]
                && fresh(connections[DefaultKey])
                && connections[DefaultKey].client == Some(creation.client)
      ensures !connected ==> connections == old(connections)
    {
      var connection := new ServerConnection();
      var r := connection.Connect(creation);
      if r == Success(true) {
        connections := connections[DefaultKey := connection];
        connected := true;
      } else {
        connected := false;
      }
    }

    /** `callTool(toolName, arguments)`: "Error: Server not connected"
        without a "default" connection, otherwise the rendering of what the
        connection's `callTool` gave; nothing thrown escapes. */
    method CallTool(reply: ToolReply) returns (text: string)
      ensures DefaultKey !in connections ==> text == NotConnectedText
      ensures DefaultKey in connections && connections[DefaultKey].client.None? ==> text == CallFailedText
      ensures DefaultKey in connections && connections[DefaultKey].client.Some? ==>
                text == match reply
                        case ReturnedResult(result) => RenderOutcome(Success(Some(result)))
                        case Threw(message) => RenderOutcome(Failure(message))
                        case _ => CallFailedText
    {
      if DefaultKey !in connections {
        return NotConnectedText;
      }
      var outcome := connections[DefaultKey].CallTool(reply);
      text := RenderOutcome(outcome);
    }

    /** `close()`: every stored connection is closed, then the table is cleared. */
    method Close()
      modifies this, connections.Values
      ensures connections == map[]
      ensures forall c | c in old(connections).Values ::
                && c.client == None
                && c.closedClients == old(c.closedClients) + (if old(c.client).Some? then [old(c.client).value] else [])
    {
      var remaining := connections.Values;
      while remaining != {}
        invariant connections == old(connections)
        invariant remaining <= connections.Values
        invariant forall c | c in connections.Values && c !in remaining ::
                    && c.client == None
                    && c.closedClients == old(c.closedClients) + (if old(c.client).Some? then [old(c.client).value] else [])
        invariant forall c | c in remaining :: c.client == old(c.client) && c.closedClients == old(c.closedClients)
        decreases remaining
      {
        var c :| c in remaining;
        c.Close();
        remaining := remaining - {c};
      }
      connections := map[];
    }
  }

  /** The companion object's lazily assigned `instance`. */
  class ManagerSingleton {
    var instance: Option<ConnectionManager>

    constructor ()
      ensures instance == None
    {
      instance := None;
    }

    /** `getInstance()`: the stored manager, or a new empty one that is
        stored for every later call. */
    method GetInstance() returns (m: ConnectionManager)
      modifies this
      ensures old(instance).Some? ==> m == old(instance).value
      ensures old(instance).None? ==> fresh(m) && m.connections == map[]
      ensures instance == Some(m)
    {
      if instance.Some? {
        return instance.value;
      }
      m := new ConnectionManager();
      instance := Some(m);
    }
  }

  /** Every call to `getInstance` gives the same manager. */
  method SameInstanceEveryCall(singleton: ManagerSingleton)
    modifies singleton
  {
    var first := singleton.GetInstance();
    var second := singleton.GetInstance();
    var third := singleton.GetInstance();
    assert first == second == third;
  }

  /** A connect, a tool call answered with text, and a close: the answer is
      the text, and afterwards the manager reports it is not connected. */
  method ConnectCallClose(client: ClientHandle, text: string)
  {
    var manager := new ConnectionManager();
    var before := manager.CallTool(ReturnedNull);
    assert before == NotConnectedText;
    var connected := manager.Connect(Created(client));
    var answer := manager.CallTool(ReturnedResult(CallToolResult([TextContent(Some(text))])));
    assert RenderContents([TextContent(Some(text))]) == [text];
    assert answer == text;
    manager.Close();
    var after := manager.CallTool(ReturnedNull);
    assert after == NotConnectedText;
  }
}
