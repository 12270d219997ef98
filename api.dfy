/**
 * The HTTP API server: the registry of open SDK sessions shared by the
 * session endpoints, the option builder, and the one-off query endpoint.
 *
 * The SDK client is an opaque handle that records the calls made on it.
 * Whether a call succeeds, and what a response stream delivers, are
 * parameters of each endpoint; clocks and the environment are parameters too.
 */
module Api {
  import opened Wrappers
  import opened Seqs
  import opened SdkTypes
  import opened Observability
  import SdkExecutor

  /** An endpoint's answer: its body, or an HTTP error with its detail text. */
  datatype Reply<+T> = Ok(body: T) | HttpError(status: int, detail: string)

  /** The detail text of a failed session lookup. */
  function NotFound(id: string): string {
    "Session " + id + " not found"
  }

  /** `str(e)` of an exception raised by the SDK. */
  function Describe(e: Exception): string {
    e.message
  }

  datatype ClientCall = Connected | Queried(prompt: string) | Interrupted | Disconnected

  /** An SDK client: only the calls made on it are observable. */
  class Client {
    var calls: seq<ClientCall>

    constructor()
      ensures calls == []
    {
      calls := [];
    }

    method Connect()
      modifies this
      ensures calls == old(calls) + [Connected]
    {
      calls := calls + [Connected];
    }

    method Query(prompt: string)
      modifies this
      ensures calls == old(calls) + [Queried(prompt)]
    {
      calls := calls + [Queried(prompt)];
    }

    method Interrupt()
      modifies this
      ensures calls == old(calls) + [Interrupted]
    {
      calls := calls + [Interrupted];
    }

    method Disconnect()
      modifies this
      ensures calls == old(calls) + [Disconnected]
    {
      calls := calls + [Disconnected];
    }
  }

  // ---------------------------------------------------------------------
  // Requests and responses
  // ---------------------------------------------------------------------

  datatype QueryRequest = QueryRequest(prompt: string, model: Option<string>, allowedTools: Option<seq<string>>,
                                       permissionMode: Option<string>, maxTurns: Option<int>, stream: bool,
                                       includeThinking: bool, cwd: Option<string>)

  datatype SessionStartRequest = SessionStartRequest(initialPrompt: Option<string>, model: Option<string>,
                                                     allowedTools: Option<seq<string>>, permissionMode: Option<string>)

  datatype QueryResponse = QueryResponse(response: string, sessionId: Option<string>, durationMs: Option<int>,
                                         numTurns: Option<int>, totalCostUsd: Option<real>)

  datatype Started = Started(sessionId: string, status: string, initialResponse: Option<string>, createdAt: string)

  datatype SessionAnswer = SessionAnswer(sessionId: string, response: string)

  datatype SessionInfo = SessionInfo(sessionId: string, createdAt: string, active: bool)

  datatype Listing = Listing(activeSessions: seq<string>, count: nat)

  datatype Health = Health(status: string, authenticated: bool, activeSessions: nat, timestamp: string)

  /** A one-off query answers with a full response, or with an event stream whose payloads are not modelled. */
  datatype QueryAnswer = Buffered(response: QueryResponse) | EventStream(config: ExecutorConfig)

  /** Python truthiness of an optional integer. */
  predicate TruthyInt(o: Option<int>) {
    o.Some? && o.value != 0
  }

  /** The rule of `build_options`: each of the four options is present exactly when its argument is truthy, with that value. */
  predicate PassesTruthy(options: map<string, Value>, model: Option<string>, allowedTools: Option<seq<string>>,
                         permissionMode: Option<string>, maxTurns: Option<int>)
  {
    && ("model" in options <==> Truthy(model))
    && ("model" in options ==> options["model"] == Str(model.value))
    && ("allowed_tools" in options <==> TruthyList(allowedTools))
    && ("allowed_tools" in options ==> options["allowed_tools"] == StrList(allowedTools.value))
    && ("permission_mode" in options <==> Truthy(permissionMode))
    && ("permission_mode" in options ==> options["permission_mode"] == Str(permissionMode.value))
    && ("max_turns" in options <==> TruthyInt(maxTurns))
    && ("max_turns" in options ==> options["max_turns"] == Int(maxTurns.value))
    && options.Keys <= {"model", "allowed_tools", "permission_mode", "max_turns"}
  }

  /**
   * `build_options`: an option is passed only when its argument is truthy;
   * with none passed the SDK's default options are used, which is the empty map.
   */
  method BuildOptions(model: Option<string>, allowedTools: Option<seq<string>>,
                      permissionMode: Option<string>, maxTurns: Option<int>)
    returns (options: map<string, Value>)
    ensures PassesTruthy(options, model, allowedTools, permissionMode, maxTurns)
    ensures options == map[] <==> !Truthy(model) && !TruthyList(allowedTools) && !Truthy(permissionMode) && !TruthyInt(maxTurns)
  {
    options := map[];
    if Truthy(model) {
      options := options["model" := Str(model.value)];
    }
    if TruthyList(allowedTools) {
      options := options["allowed_tools" := StrList(allowedTools.value)];
    }
    if Truthy(permissionMode) {
      options := options["permission_mode" := Str(permissionMode.value)];
    }
    if TruthyInt(maxTurns) {
      options := options["max_turns" := Int(maxTurns.value)];
    }
  }

  /** An optional request field as it appears in the executor metadata. */
  function OptionalStr(o: Option<string>): Value {
    if o.Some? then Str(o.value) else NoneValue
  }

  function OptionalInt(o: Option<int>): Value {
    if o.Some? then Int(o.value) else NoneValue
  }

  /**
   * The executor configuration `create_query` builds from its request;
   * `defaultCwd` is the server's working directory.
   */
  function QueryConfig(request: QueryRequest, defaultCwd: string): (c: ExecutorConfig)
    ensures c.thinkingMode == Include <==> request.includeThinking
    ensures !request.includeThinking ==> c.thinkingMode == Exclude
    ensures c.responseMode == Stream <==> request.stream
    ensures !request.stream ==> c.responseMode == BufferAll
    ensures !c.includeToolIndicators
    ensures c.cwd == Some(if Truthy(request.cwd) then request.cwd.value else defaultCwd)
    ensures c.sessionId.None? && c.systemPrompt.None?
    ensures c.allowedTools == request.allowedTools
    ensures c.userId == Some("api_user") && c.platform == Some("api")
    ensures c.metadata.Keys == {"model", "permission_mode", "max_turns"}
    ensures c.metadata["model"] == NoneValue <==> request.model.None?
    ensures c.metadata["permission_mode"] == NoneValue <==> request.permissionMode.None?
    ensures c.metadata["max_turns"] == NoneValue <==> request.maxTurns.None?
  {
    ExecutorConfig(
      Some("api_user"), Some("api"),
      if Truthy(request.cwd) then Some(request.cwd.value) else Some(defaultCwd),
      None, None, request.allowedTools,
      if request.stream then Stream else BufferAll,
      if request.includeThinking then Include else Exclude,
      false,
      map["model" := OptionalStr(request.model), "permission_mode" := OptionalStr(request.permissionMode),
          "max_turns" := OptionalInt(request.maxTurns)])
  }

  /**
   * `create_query`. A streamed request answers with an event stream;
   * otherwise the executor runs on the configuration, and its text and
   * duration are returned, or its exception becomes a 500 error.
   */
  method CreateQuery(hub: Hub, request: QueryRequest, defaultCwd: string, received: seq<Message>,
                     failure: Option<Exception>, durationMs: int)
    returns (reply: Reply<QueryAnswer>)
    modifies hub, hub.backends
    ensures var config := QueryConfig(request, defaultCwd);
      && (request.stream ==> reply == Ok(EventStream(config)) && hub.log == old(hub.log))
      && (!request.stream && failure.Some? ==> reply == HttpError(500, Describe(failure.value)))
      && (!request.stream && failure.None? ==>
            reply == Ok(Buffered(QueryResponse(SdkExecutor.Response(config, received).text, None, Some(durationMs), None, None))))
      && (!request.stream ==>
            hub.log == old(hub.log) + [RequestStart(config, request.prompt)] + SdkExecutor.MessageEvents(config, received)
              + [if failure.None? then Completion(config, SdkExecutor.Completed(config, received, durationMs)) else Failed(config, failure.value)])
  {
    var config := QueryConfig(request, defaultCwd);
    if request.stream {
      return Ok(EventStream(config));
    }
    var result := SdkExecutor.Execute(hub, request.prompt, config, received, failure, durationMs);
    if result.Failure? {
      return HttpError(500, Describe(result.error));
    }
    var metrics := result.value.metrics;
    var duration := if "duration_ms" in metrics then Some(metrics["duration_ms"]) else None;
    return Ok(Buffered(QueryResponse(result.value.text, None, duration, None, None)));
  }

  /**
   * The `response_text +=` loop of the session endpoints: the texts of the
   * text blocks of the assistant messages, in arrival order.
   */
  method ReceiveText(received: seq<Message>) returns (text: string)
    ensures text == SdkExecutor.AssistantText(received)
  {
    text := "";
    var i := 0;
    while i < |received|
      invariant 0 <= i <= |received|
      invariant text == SdkExecutor.AssistantText(received[..i])
    {
      assert received[..i + 1][..i] == received[..i];
      var m := received[i];
      if m.AssistantMessage? {
        var j := 0;
        var before := text;
        while j < |m.content|
          invariant 0 <= j <= |m.content|
          invariant text == before + SdkExecutor.BlocksText(m.content[..j])
        {
          assert m.content[..j + 1][..j] == m.content[..j];
          if m.content[j].TextBlock? {
            text := text + m.content[j].text;
          }
          j := j + 1;
        }
        assert m.content[..j] == m.content;
      }
      i := i + 1;
    }
    assert received[..i] == received;
  }

  // ---------------------------------------------------------------------
  // The session registry
  // ---------------------------------------------------------------------

  /**
   * `active_sessions`: a dictionary from session id to client. `order` is
   * its key order, which is insertion order as in a Python dictionary.
   */
  class Registry {
    var sessions: map<string, Client>
    var order: seq<string>

    /** The key order lists each key once, and no client serves two ids. */
    ghost predicate Valid()
      reads this
    {
      && Distinct(order)
      && (forall id :: id in sessions <==> id in order)
      && (forall a, b | a in sessions && b in sessions && a != b :: sessions[a] != sessions[b])
    }

    constructor()
      ensures Valid() && sessions == map[] && order == []
    {
      sessions := map[];
      order := [];
    }

    /** `list_sessions`: the registry keys, in order, and their number. */
    function List(): (r: Listing)
      reads this
      requires Valid()
      ensures forall id :: id in r.activeSessions <==> id in sessions
      ensures Distinct(r.activeSessions)
      ensures r.count == |r.activeSessions| == |sessions|
    {
      assert sessions.Keys == set id | id in order;
      DistinctCardinality(order);
      Listing(order, |order|)
    }

    /** The health check; `authenticated` is whether a token is set in the environment. */
    function HealthCheck(authenticated: bool, now: string): (r: Health)
      reads this
      requires Valid()
      ensures r.status == "healthy" && r.authenticated == authenticated && r.timestamp == now
      ensures r.activeSessions == List().count == |sessions|
    {
      Health("healthy", authenticated, List().count, now)
    }

    /** `get_session_info`: a known id is reported active, an unknown one is a 404. */
    function Info(id: string, now: string): (r: Reply<SessionInfo>)
      reads this
      ensures r.Ok? <==> id in sessions
      ensures r.Ok? ==> r.body == SessionInfo(id, now, true)
      ensures r.HttpError? ==> r == HttpError(404, NotFound(id))
    {
      if id !in sessions then HttpError(404, NotFound(id)) else Ok(SessionInfo(id, now, true))
    }

    /**
     * `start_session` with generated id `newId`. A fresh client connects
     * (or raises `connectFailure`) and only then is registered. With a
     * truthy initial prompt the client is queried; when the response stream
     * raises `promptFailure`, the client is disconnected and the id removed,
     * unless that disconnect raises `disconnectFailure`, in which case the
     * id stays registered. Every failure becomes a 500 error.
     */
    method StartSession(newId: string, request: SessionStartRequest, connectFailure: Option<Exception>,
                        received: seq<Message>, promptFailure: Option<Exception>,
                        disconnectFailure: Option<Exception>, now: string)
      returns (reply: Reply<Started>, options: map<string, Value>)
      requires Valid()
      modifies this
      ensures Valid()
      ensures PassesTruthy(options, request.model, request.allowedTools, request.permissionMode, None)
      ensures connectFailure.Some? ==>
        reply == HttpError(500, Describe(connectFailure.value)) && sessions == old(sessions) && order == old(order)
      ensures connectFailure.None? && (!Truthy(request.initialPrompt) || promptFailure.None?) ==>
        && reply == Ok(Started(newId, "started", if Truthy(request.initialPrompt) then Some(SdkExecutor.AssistantText(received)) else None, now))
        && newId in sessions && fresh(sessions[newId])
        && sessions == old(sessions)[newId := sessions[newId]]
        && order == (if newId in old(sessions) then old(order) else old(order) + [newId])
        && sessions[newId].calls == [Connected] + (if Truthy(request.initialPrompt) then [Queried(request.initialPrompt.value)] else [])
      ensures connectFailure.None? && Truthy(request.initialPrompt) && promptFailure.Some? && disconnectFailure.None? ==>
        && reply == HttpError(500, Describe(promptFailure.value))
        && sessions == old(sessions) - {newId} && order == Remove(old(order), newId)
      ensures connectFailure.None? && Truthy(request.initialPrompt) && promptFailure.Some? && disconnectFailure.Some? ==>
        && reply == HttpError(500, Describe(disconnectFailure.value))
        && newId in sessions && fresh(sessions[newId])
        && sessions == old(sessions)[newId := sessions[newId]]
        && order == (if newId in old(sessions) then old(order) else old(order) + [newId])
        && sessions[newId].calls == [Connected, Queried(request.initialPrompt.value), Disconnected]
    {
      options := BuildOptions(request.model, request.allowedTools, request.permissionMode, None);
      var client := new Client();
      client.Connect();
      if connectFailure.Some? {
        return HttpError(500, Describe(connectFailure.value)), options;
      }
      Register(newId, client);
      assert sessions[newId] == client && client.calls == [Connected];
      if !Truthy(request.initialPrompt) {
        return Ok(Started(newId, "started", None, now)), options;
      }
      var failure, responseText := SendInitialPrompt(newId, client, request.initialPrompt.value, received,
                                                     promptFailure, disconnectFailure);
      if failure.Some? {
        assert disconnectFailure.Some? ==> client.calls == [Connected, Queried(request.initialPrompt.value), Disconnected];
        RegisterThenRemove(old(sessions), old(order), newId, client);
        return HttpError(500, Describe(failure.value)), options;
      }
      reply := Ok(Started(newId, "started", Some(responseText), now));
    }

    /**
     * The `try` block of `start_session` around the initial prompt of the
     * just registered `client`: the text of the response, or the failure to
     * report. When the stream raises, the client is disconnected and `id`
     * unregistered; a raise from that disconnect replaces the first failure
     * and leaves `id` registered.
     */
    method SendInitialPrompt(id: string, client: Client, prompt: string, received: seq<Message>,
                             promptFailure: Option<Exception>, disconnectFailure: Option<Exception>)
      returns (failure: Option<Exception>, text: string)
      requires Valid() && id in sessions && sessions[id] == client
      modifies this, client
      ensures Valid()
      ensures promptFailure.None? ==>
        && failure == None && text == SdkExecutor.AssistantText(received)
        && sessions == old(sessions) && order == old(order)
        && client.calls == old(client.calls) + [Queried(prompt)]
      ensures promptFailure.Some? && disconnectFailure.None? ==>
        && failure == promptFailure
        && sessions == old(sessions) - {id} && order == Remove(old(order), id)
        && client.calls == old(client.calls) + [Queried(prompt), Disconnected]
      ensures promptFailure.Some? && disconnectFailure.Some? ==>
        && failure == disconnectFailure
        && sessions == old(sessions) && order == old(order)
        && client.calls == old(client.calls) + [Queried(prompt), Disconnected]
    {
      client.Query(prompt);
      if promptFailure.Some? {
        client.Disconnect();
        if disconnectFailure.Some? {
          return disconnectFailure, "";
        }
        Unregister(id);
        return promptFailure, "";
      }
      failure := None;
      text := ReceiveText(received);
    }

    /** `active_sessions[id] = client` for a client no other id holds. */
    method Register(id: string, client: Client)
      requires Valid()
      requires forall other | other in sessions :: sessions[other] != client
      modifies this
      ensures Valid()
      ensures sessions == old(sessions)[id := client]
      ensures order == (if id in old(sessions) then old(order) else old(order) + [id])
    {
      if id !in sessions {
        order := order + [id];
      }
      sessions := sessions[id := client];
    }

    /** `del active_sessions[id]` for a registered id. */
    method Unregister(id: string)
      requires Valid() && id in sessions
      modifies this
      ensures Valid()
      ensures sessions == old(sessions) - {id}
      ensures order == Remove(old(order), id)
    {
      RemoveDistinct(order, id);
      sessions := sessions - {id};
      order := Remove(order, id);
    }

    /**
     * `session_query`: an unknown id is a 404; otherwise the client is
     * queried and the answer is the text of the response stream, or a 500
     * error when the stream raises `failure`. The registry is unchanged.
     */
    method Query(id: string, prompt: string, received: seq<Message>, failure: Option<Exception>)
      returns (reply: Reply<SessionAnswer>)
      requires Valid()
      modifies if id in sessions then {sessions[id]} else {}
      ensures id !in sessions ==> reply == HttpError(404, NotFound(id))
      ensures id in sessions && failure.Some? ==> reply == HttpError(500, Describe(failure.value))
      ensures id in sessions && failure.None? ==> reply == Ok(SessionAnswer(id, SdkExecutor.AssistantText(received)))
      ensures id in sessions ==> sessions[id].calls == old(sessions[id].calls) + [Queried(prompt)]
    {
      if id !in sessions {
        return HttpError(404, NotFound(id));
      }
      var client := sessions[id];
      client.Query(prompt);
      if failure.Some? {
        return HttpError(500, Describe(failure.value));
      }
      var text := ReceiveText(received);
      return Ok(SessionAnswer(id, text));
    }

    /** `interrupt_session`: 404 for an unknown id; otherwise the client is interrupted, and a raised `failure` is a 500. */
    method Interrupt(id: string, failure: Option<Exception>) returns (reply: Reply<string>)
      requires Valid()
      modifies if id in sessions then {sessions[id]} else {}
      ensures id !in sessions ==> reply == HttpError(404, NotFound(id))
      ensures id in sessions && failure.Some? ==> reply == HttpError(500, Describe(failure.value))
      ensures id in sessions && failure.None? ==> reply == Ok("interrupted")
      ensures id in sessions ==> sessions[id].calls == old(sessions[id].calls) + [Interrupted]
    {
      if id !in sessions {
        return HttpError(404, NotFound(id));
      }
      var client := sessions[id];
      client.Interrupt();
      if failure.Some? {
        return HttpError(500, Describe(failure.value));
      }
      return Ok("interrupted");
    }

    /**
     * `close_session`: 404 for an unknown id, leaving the registry as it
     * was; otherwise the client is disconnected, any error from that is
     * ignored, and the id is always removed.
     */
    method Close(id: string) returns (reply: Reply<string>)
      requires Valid()
      modifies this, if id in sessions then {sessions[id]} else {}
      ensures Valid()
      ensures id !in old(sessions) ==> reply == HttpError(404, NotFound(id)) && sessions == old(sessions) && order == old(order)
      ensures id in old(sessions) ==>
        && reply == Ok("closed")
        && sessions == old(sessions) - {id} && order == Remove(old(order), id)
        && old(sessions)[id].calls == old(sessions[id].calls) + [Disconnected]
    {
      if id !in sessions {
        return HttpError(404, NotFound(id));
      }
      var client := sessions[id];
      client.Disconnect();
      Unregister(id);
      return Ok("closed");
    }

    /**
     * The shutdown half of the server lifespan: every registered client is
     * asked to disconnect, in key order, errors are swallowed, and the
     * registry ends empty.
     */
    method Shutdown()
      requires Valid()
      modifies this, sessions.Values
      ensures Valid() && sessions == map[] && order == []
      ensures forall c | c in old(sessions).Values :: c.calls == old(c.calls) + [Disconnected]
    {
      var ids := order;
      var i := 0;
      while i < |ids|
        invariant 0 <= i <= |ids|
        invariant sessions == old(sessions) && order == ids
        invariant forall j | 0 <= j < i :: sessions[ids[j]].calls == old(sessions[ids[j]].calls) + [Disconnected]
        invariant forall j | i <= j < |ids| :: sessions[ids[j]].calls == old(sessions[ids[j]].calls)
      {
        var client := sessions[ids[i]];
        forall j | 0 <= j < |ids| && j != i
          ensures sessions[ids[j]] != client
        {
          DistinctIndices(ids, i, j);
        }
        client.Disconnect();
        i := i + 1;
      }
      forall c | c in old(sessions).Values
        ensures c.calls == old(c.calls) + [Disconnected]
      {
        var id :| id in sessions && sessions[id] == c;
        var j := IndexOf(ids, id);
      }
      sessions := map[];
      order := [];
    }
  }

  /** Registering an id and removing it again leaves the registry as removing it alone would. */
  lemma RegisterThenRemove(sessions: map<string, Client>, order: seq<string>, id: string, c: Client)
    ensures sessions[id := c] - {id} == sessions - {id}
    ensures Remove(if id in sessions then order else order + [id], id) == Remove(order, id)
  {
    assert (order + [id])[..|order|] == order;
  }

  /** Removing an element keeps a list without repeats free of repeats, and takes out exactly that element. */
  lemma RemoveDistinct<T>(xs: seq<T>, x: T)
    requires Distinct(xs)
    ensures Distinct(Remove(xs, x))
    ensures forall y :: y in Remove(xs, x) <==> y in xs && y != x
  {
  }

  lemma DistinctIndices<T>(xs: seq<T>, i: int, j: int)
    requires Distinct(xs) && 0 <= i < |xs| && 0 <= j < |xs| && i != j
    ensures xs[i] != xs[j]
  {
  }

  /** A position at which `x` occurs in `xs`. */
  function IndexOf<T(==)>(xs: seq<T>, x: T): (j: nat)
    requires x in xs
    ensures j < |xs| && xs[j] == x
  {
    if xs[0] == x then 0 else 1 + IndexOf(xs[1..], x)
  }
}
