/** The chat HTTP server of src/server/index.ts: the `sessions` table, its
    expiry sweep, the session-validation gate, the start, message, switch
    and model-list routes, and the error handler that turns failures into
    HTTP statuses. */
module ChatServer {
  import opened Wrappers
  import opened Text
  import opened Ai
  import opened Chat

  /** Thirty minutes, in milliseconds. */
  const MaxAge: int := 30 * 60 * 1000

  /** The JSON bodies the routes send. */
  datatype Body =
    | ErrorBody(error: string, errorType: Option<string>, details: Option<string>)
    | StartedBody(sessionId: string, model: string)
    | MessageBody(response: string)
    | SwitchedBody(model: string)
    | ModelListBody(models: seq<string>)

  datatype Reply = Reply(status: int, body: Body)

  /** `errorHandler`: an `McpError` by name, then any error whose message
      mentions MCP, answer 503; a `SyntaxError` answers 400; anything else 500. */
  function ErrorHandler(e: Thrown): (r: Reply)
    ensures r.status == 503 || r.status == 400 || r.status == 500
    ensures r.status == 503 <==> e.ErrorThrown? && (e.name == "McpError" || Contains(e.message, "MCP"))
    ensures r.status == 400 <==>
              e.ErrorThrown? && e.name != "McpError" && !Contains(e.message, "MCP") && e.cls == SyntaxErrorClass
    ensures e.ErrorThrown? && e.name == "McpError" ==> r.body.ErrorBody? && r.body.error == e.message
  {
    match e
    case NonErrorThrown => Reply(500, ErrorBody("Internal server error", Some("server_error"), None))
    case ErrorThrown(cls, name, message) =>
      if name == "McpError" then
        Reply(503, ErrorBody(message, Some("mcp_error"), Some("MCP server connection or tool execution error")))
      else if Contains(message, "MCP") then
        Reply(503, ErrorBody("MCP server error", Some("mcp_init_error"), Some(message)))
      else if cls == SyntaxErrorClass then
        Reply(400, ErrorBody("Invalid request format", Some("syntax_error"), None))
      else
        Reply(500, ErrorBody("Internal server error", Some("server_error"), None))
  }

  /** The reply of the message route once the session is admitted. */
  function MessageReply(outcome: Result<string, Thrown>): Reply {
    match outcome
    case Success(text) => Reply(200, MessageBody(text))
    case Failure(e) => ErrorHandler(e)
  }

  /** A message either gets the chat's answer with 200, or fails with 503
      and the rewritten message: `sendMessage` only ever throws `McpError`s. */
  lemma MessageFailuresAnswer503(chat: Result<ChatOptions, Thrown>, reply: Result<string, Thrown>)
    ensures var outcome := SendOutcome(chat, reply);
            && (outcome.Success? ==> MessageReply(outcome) == Reply(200, MessageBody(reply.value)))
            && (outcome.Failure? ==>
                  MessageReply(outcome) ==
                  Reply(503, ErrorBody(outcome.error.message, Some("mcp_error"), Some("MCP server connection or tool execution error"))))
  {
    var outcome := SendOutcome(chat, reply);
    if outcome.Failure? {
      var e := outcome.error;
      assert e.ErrorThrown? && e.name == "McpError";
    }
  }

  /** `req.body.model || 'gemini'`. */
  function RequestedModel(bodyModel: Option<string>): (key: string)
    ensures Truthy(bodyModel) ==> key == bodyModel.value
    ensures !Truthy(bodyModel) ==> key == "gemini"
  {
    if Truthy(bodyModel) then bodyModel.value else "gemini"
  }

  /** The `validateSession` middleware's verdict on `id`: 404 for an
      unknown session, 503 for one whose health check fails, else none. */
  function Rejection(sessions: map<string, ChatSession>, id: string): (r: Option<Reply>)
    ensures r.None? <==> id in sessions && SessionHealthy(sessions[id].catalog)
    ensures r.Some? ==> (r.value.status == 404 <==> id !in sessions)
    ensures r.Some? ==> r.value.status == 404 || r.value.status == 503
  {
    if id !in sessions then Some(Reply(404, ErrorBody("Session not found", None, None)))
    else if !SessionHealthy(sessions[id].catalog) then Some(Reply(503, ErrorBody("Session is no longer valid", None, None)))
    else None
  }

  /** The table after the gate: only a session that failed its health check is removed. */
  function AfterGate(sessions: map<string, ChatSession>, id: string): map<string, ChatSession> {
    if Rejection(sessions, id).Some? && id in sessions then sessions - {id} else sessions
  }

  /** `GET /api/models`: 503 without any model, otherwise the model keys. */
  function ModelsReply(models: seq<(string, ModelRef)>): (r: Reply)
    ensures r.status == 503 <==> !ValidateModels(models)
    ensures r.status != 503 ==> r == Reply(200, ModelListBody(ObjectKeys(models)))
  {
    if !ValidateModels(models) then Reply(503, ErrorBody("No models available. Please check API keys.", None, None))
    else Reply(200, ModelListBody(ObjectKeys(models)))
  }

  /** Over the `MODELS` the API keys give, the model list answers 503 when
      neither key is set, and otherwise lists `gemini` and then `claude`,
      each exactly when its key is set. */
  lemma ModelsRouteFollowsKeys(googleKey: Option<string>, anthropicKey: Option<string>)
    ensures var r := ModelsReply(Models(googleKey, anthropicKey));
            && (r.status == 503 <==> !Truthy(googleKey) && !Truthy(anthropicKey))
            && (r.status != 503 ==>
                  r == Reply(200, ModelListBody((if Truthy(googleKey) then ["gemini"] else [])
                                                + (if Truthy(anthropicKey) then ["claude"] else []))))
  {
    ModelsConfigured(googleKey, anthropicKey);
    var models := Models(googleKey, anthropicKey);
    var names := (if Truthy(googleKey) then ["gemini"] else []) + (if Truthy(anthropicKey) then ["claude"] else []);
    assert |ObjectKeys(models)| == |names|;
    assert forall i | 0 <= i < |names| :: ObjectKeys(models)[i] == models[i].0 == names[i];
    assert ObjectKeys(models) == names;
  }

  class ChatApp {
    /** `MODELS`, the tool catalog and the zod schemas every session uses. */
    const models: seq<(string, ModelRef)>
    const catalog: seq<Category>
    const zod: seq<ZodCategory>
    var sessions: map<string, ChatSession>

    constructor (models: seq<(string, ModelRef)>, catalog: seq<Category>, zod: seq<ZodCategory>)
      ensures this.models == models && this.catalog == catalog && this.zod == zod
      ensures sessions == map[]
    {
      this.models := models;
      this.catalog := catalog;
      this.zod := zod;
      sessions := map[];
    }

    /** `cleanupInactiveSessions()` at time `now`: exactly the sessions idle
        for more than thirty minutes are removed; the others stay as they were. */
    method CleanupInactiveSessions(now: int)
      modifies this
      ensures sessions.Keys <= old(sessions).Keys
      ensures forall id | id in sessions :: sessions[id] == old(sessions)[id]
      ensures forall id | id in old(sessions) :: id in sessions <==> now - old(sessions)[id].lastAccess <= MaxAge
    {
      var remaining := sessions.Keys;
      ghost var before := sessions;
      while remaining != {}
        invariant remaining <= sessions.Keys <= before.Keys
        invariant forall id | id in sessions :: sessions[id] == before[id]
        invariant forall id | id in before :: id in sessions <==> id in remaining || now - before[id].lastAccess <= MaxAge
        decreases remaining
      {
        var id :| id in remaining;
        if now - sessions[id].lastAccess > MaxAge {
          sessions := sessions - {id};
        }
        remaining := remaining - {id};
      }
    }

    /** The `validateSession` middleware: the verdict, and the removal of a
        session that failed its health check. */
    method ValidateSession(id: string) returns (rejection: Option<Reply>)
      modifies this
      ensures rejection == Rejection(old(sessions), id)
      ensures sessions == AfterGate(old(sessions), id)
    {
      if id !in sessions {
        return Some(Reply(404, ErrorBody("Session not found", None, None)));
      }
      var healthy := SessionHealthy(sessions[id].catalog);
      if !healthy {
        sessions := sessions - {id};
        return Some(Reply(503, ErrorBody("Session is no longer valid", None, None)));
      }
      rejection := None;
    }

    /** `POST /api/chat/start`: a session on the requested model (by default
        `gemini`) is stored under `sessionId`, the caller's random id; when
        the model is not available the answer is 503 and nothing is stored. */
    method StartChat(sessionId: string, bodyModel: Option<string>, now: int) returns (r: Reply)
      modifies this
      ensures var key := RequestedModel(bodyModel);
              && (r.status == 200 <==> IsAvailable(models, key))
              && (r.status == 200 ==>
                    && sessionId in sessions
                    && sessions == old(sessions)[sessionId := sessions[sessionId]]
                    && fresh(sessions[sessionId])
                    && sessions[sessionId].models == models
                    && sessions[sessionId].catalog == catalog
                    && sessions[sessionId].zod == zod
                    && sessions[sessionId].currentModel == key
                    && sessions[sessionId].lastAccess == now
                    && sessions[sessionId].chat == CreateChat(key, models, catalog, zod)
                    && r.body == StartedBody(sessionId, ModelLabel(key)))
              && (r.status != 200 ==>
                    && sessions == old(sessions)
                    && r == Reply(503, ErrorBody("Model " + key + " is not available. Please check your API keys.", None, None)))
    {
      var modelKey := if Truthy(bodyModel) then bodyModel.value else "gemini";
      var made := NewChatSession(models, catalog, zod, modelKey, now);
      match made {
        case Failure(e) =>
          if e.ErrorThrown? {
            r := Reply(503, ErrorBody(e.message, None, None));
          } else {
            r := Reply(500, ErrorBody("Failed to start chat session", None, None));
          }
        case Success(session) =>
          sessions := sessions[sessionId := session];
          r := Reply(200, StartedBody(sessionId, session.CurrentModelName()));
      }
    }

    /** `POST /api/chat/:sessionId/message`: past the gate, the session's
        answer to the message, whose failures go through the error handler. */
    method PostMessage(id: string, reply: Result<string, Thrown>, now: int) returns (r: Reply)
      modifies this, if id in sessions then {sessions[id]} else {}
      ensures sessions == AfterGate(old(sessions), id)
      ensures Rejection(old(sessions), id).Some? ==> r == Rejection(old(sessions), id).value
      ensures Rejection(old(sessions), id).None? ==>
                && r == MessageReply(SendOutcome(old(sessions[id].chat), reply))
                && sessions[id].lastAccess == (if r.status == 200 then now else old(sessions[id].lastAccess))
                && sessions[id].currentModel == old(sessions[id].currentModel)
                && sessions[id].chat == old(sessions[id].chat)
    {
      var rejection := ValidateSession(id);
      if rejection.Some? {
        return rejection.value;
      }
      var session := sessions[id];
      var outcome := session.SendMessage(reply, now);
      r := MessageReply(outcome);
    }

    /** `POST /api/chat/:sessionId/switch`: past the gate, 400 "Invalid
        model" unless the session can switch to the requested model, in
        which case it gets a new chat on that model. */
    method Switch(id: string, model: string, now: int) returns (r: Reply)
      modifies this, if id in sessions then {sessions[id]} else {}
      ensures sessions == AfterGate(old(sessions), id)
      ensures Rejection(old(sessions), id).Some? ==> r == Rejection(old(sessions), id).value
      ensures Rejection(old(sessions), id).None? ==>
                if IsAvailable(sessions[id].models, model) then
                  && r == Reply(200, SwitchedBody(ModelLabel(model)))
                  && sessions[id].currentModel == model
                  && sessions[id].chat == CreateChat(model, sessions[id].models, sessions[id].catalog, sessions[id].zod)
                  && sessions[id].lastAccess == now
                else
                  && r == Reply(400, ErrorBody("Invalid model", None, None))
                  && sessions[id].currentModel == old(sessions[id].currentModel)
                  && sessions[id].chat == old(sessions[id].chat)
                  && sessions[id].lastAccess == old(sessions[id].lastAccess)
    {
      var rejection := ValidateSession(id);
      if rejection.Some? {
        return rejection.value;
      }
      var session := sessions[id];
      var switched := session.SwitchModel(model, now);
      if switched {
        r := Reply(200, SwitchedBody(session.CurrentModelName()));
      } else {
        r := Reply(400, ErrorBody("Invalid model", None, None));
      }
    }
  }

  /** A session started on a model whose chat could be configured, over a
      catalog with tools, takes messages until it has been idle for more
      than thirty minutes; after the sweep the same id gets 404. */
  method SessionExpires(models: seq<(string, ModelRef)>, catalog: seq<Category>, zod: seq<ZodCategory>,
                        id: string, answer: string, start: int)
    requires SessionHealthy(catalog) && CreateChat("gemini", models, catalog, zod).Success?
  {
    var app := new ChatApp(models, catalog, zod);
    var started := app.StartChat(id, None, start);
    assert started.status == 200;
    AnswerThenSweep(app, id, answer, start + 1);
  }

  /** A healthy session whose chat is configured answers a message with
      200 at `now`, and then expires after thirty idle minutes. */
  method AnswerThenSweep(app: ChatApp, id: string, answer: string, now: int)
    requires id in app.sessions && SessionHealthy(app.sessions[id].catalog) && app.sessions[id].chat.Success?
    modifies app, app.sessions.Values
  {
    assert Rejection(app.sessions, id).None?;
    var first := app.PostMessage(id, Success(answer), now);
    assert first == Reply(200, MessageBody(answer));
    SweepAfterIdle(app, id, answer, now);
  }

  /** A session last used at `last` survives a sweep thirty minutes later
      and is removed by one a millisecond after that, when its id gets 404. */
  method SweepAfterIdle(app: ChatApp, id: string, answer: string, last: int)
    requires id in app.sessions && app.sessions[id].lastAccess == last
    modifies app, app.sessions.Values
  {
    app.CleanupInactiveSessions(last + MaxAge);
    assert id in app.sessions;
    app.CleanupInactiveSessions(last + 1 + MaxAge);
    assert id !in app.sessions;
    var late := app.PostMessage(id, Success(answer), last + 2 + MaxAge);
    assert late.status == 404;
  }
}
