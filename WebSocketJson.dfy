/** The JSON WebSocket transport's request call (`sendMessageJson`): how the
    request object is assembled from the message, the route parameters, the
    query and the configured list limit; what is sent; and how the reply's
    three-character status and JSON body become a `CloudStatus`. The request
    bookkeeping itself is `WebSocketConnection.Connection`. */
module WebSocketJson {
  import opened Wrappers
  import Json
  import Status
  import Config
  import Framing
  import WebSocket
  import WebSocketConnection
  import CloudValidator

  /** nlohmann's `type_error`, which escapes the call. */
  datatype Thrown = TypeError

  /** `json::empty()`: null, an empty object or an empty array; a scalar is never empty. */
  predicate IsEmpty(j: Json.Json)
  {
    j.JNull? || (j.JObj? && j.fields == map[]) || (j.JArr? && j.items == [])
  }

  /** The values `j[name] = v` accepts: null (which becomes an object) and objects. */
  predicate Writable(j: Json.Json)
  {
    j.JNull? || j.JObj?
  }

  /** `j[name] = v`, which throws on anything but null or an object. */
  function Assign(j: Json.Json, name: string, v: Json.Json): (r: Result<Json.Json, Thrown>)
    ensures r.Success? <==> Writable(j)
    ensures r.Success? ==> r.value.JObj? && Json.Contains(r.value, name) && Json.At(r.value, name) == v
    ensures r.Success? ==> forall k :: k != name ==> (Json.Contains(r.value, k) <==> Json.Contains(j, k))
    ensures r.Success? ==> forall k :: k != name && Json.Contains(j, k) ==> Json.At(r.value, k) == Json.At(j, k)
  {
    if Writable(j) then Success(Json.Set(j, name, v)) else Failure(TypeError)
  }

  /** The message with the query attached under "Query" when there is one. */
  function WithQuery(message: Json.Json, query: Json.Json): (r: Result<Json.Json, Thrown>)
    ensures r.Failure? <==> !IsEmpty(query) && !Writable(message)
    ensures r.Success? && IsEmpty(query) ==> r.value == message
    ensures r.Success? && !IsEmpty(query) ==>
      r.value.JObj? && Json.Contains(r.value, "Query") && Json.At(r.value, "Query") == query
  {
    if IsEmpty(query) then Success(message) else Assign(message, "Query", query)
  }

  /** The route parameters with the list limit added under "Limit" when it is set. */
  function RequestParams(params: Json.Json, listLimit: nat): (r: Result<Json.Json, Thrown>)
    ensures r.Failure? <==> listLimit > 0 && !Writable(params)
    ensures r.Success? && listLimit == 0 ==> r.value == params
    ensures r.Success? && listLimit > 0 ==>
      r.value.JObj? && Json.Contains(r.value, "Limit") && Json.At(r.value, "Limit") == Json.JInt(listLimit)
      && !IsEmpty(r.value)
  {
    if listLimit > 0 then Assign(params, "Limit", Json.JInt(listLimit)) else Success(params)
  }

  /** The request object: the message, then "Query" when the query is not empty,
      then "Params" when the parameters (after the limit is added) are not empty. */
  function BuildRequest(message: Json.Json, params: Json.Json, query: Json.Json, listLimit: nat): (r: Result<Json.Json, Thrown>)
    ensures r.Failure? <==>
      (!Writable(message) && (!IsEmpty(query) || listLimit > 0 || !IsEmpty(params)))
      || (listLimit > 0 && !Writable(params))
    ensures r.Success? && !IsEmpty(query) ==>
      Json.Contains(r.value, "Query") && Json.At(r.value, "Query") == query
    ensures r.Success? && IsEmpty(query) && Json.Contains(message, "Query") ==>
      Json.Contains(r.value, "Query") && Json.At(r.value, "Query") == Json.At(message, "Query")
    ensures r.Success? && (listLimit > 0 || !IsEmpty(params)) ==>
      Json.Contains(r.value, "Params")
    ensures r.Success? && listLimit > 0 ==>
      var p := Json.At(r.value, "Params");
      Json.Contains(p, "Limit") && Json.At(p, "Limit") == Json.JInt(listLimit)
    ensures r.Success? && listLimit == 0 && !IsEmpty(params) ==> Json.At(r.value, "Params") == params
    ensures r.Success? ==> forall k :: k != "Query" && k != "Params" ==>
      (Json.Contains(r.value, k) <==> Json.Contains(message, k))
    ensures r.Success? ==> forall k :: k != "Query" && k != "Params" && Json.Contains(message, k) ==>
      Json.At(r.value, k) == Json.At(message, k)
    ensures r.Success? ==>
      (IsEmpty(r.value) <==> IsEmpty(message) && IsEmpty(query) && IsEmpty(params) && listLimit == 0)
  {
    var request :- WithQuery(message, query);
    var requestParams :- RequestParams(params, listLimit);
    if IsEmpty(requestParams) then Success(request) else Assign(request, "Params", requestParams)
  }

  /** The request text: the serialised request, or "{}" for an empty one (so that
      "null" is never sent). `dump` is nlohmann's serialiser. */
  function RequestString(request: Json.Json, dump: Json.Json -> string): (r: string)
    ensures IsEmpty(request) ==> r == "{}"
    ensures !IsEmpty(request) ==> r == dump(request)
  {
    if IsEmpty(request) then "{}" else dump(request)
  }

  /** `response[name].get<std::string>()`: a value only for an object holding a string there. */
  function StringField(response: Option<Json.Json>, name: string): (r: Result<string, Thrown>)
    ensures r.Success? <==>
      response.Some? && Json.Contains(response.value, name) && Json.At(response.value, name).JStr?
    ensures r.Success? ==> r.value == Json.At(response.value, name).s
  {
    if response.Some? && Json.Contains(response.value, name) && Json.At(response.value, name).JStr? then
      Success(Json.At(response.value, name).s)
    else
      Failure(TypeError)
  }

  const RouteError: string := "Invalid Route Number"

  /** `message.substr(0, 20) == "Invalid Route Number"`: the message starts with it. */
  predicate IsRouteError(message: string)
  {
    |RouteError| <= |message| && message[..|RouteError|] == RouteError
  }

  /** A 400 body that names its error: an object whose "Code" and "Message" are strings. */
  predicate HasErrorBody(response: Option<Json.Json>)
  {
    response.Some? && Json.Contains(response.value, "Code") && Json.At(response.value, "Code").JStr?
    && Json.Contains(response.value, "Message") && Json.At(response.value, "Message").JStr?
  }

  /** The status of a reply from its status text and its body (`None` when the
      body is not JSON). A 400 reply whose body lacks a string "Code" or
      "Message" throws. */
  function JsonStatus(statusCode: string, response: Option<Json.Json>): (r: Result<Status.CloudStatus, Thrown>)
    ensures r.Failure? <==> statusCode == "400" && !HasErrorBody(response)
    ensures r.Success? ==> r.value.protocolCode == 0 && r.value.protocolMessage == ""
    ensures r.Success? ==> (r.value.IsOk() <==> statusCode == "200" && response.Some?)
    ensures r.Success? && statusCode == "400" ==>
      var code := Json.At(response.value, "Code").s;
      var message := Json.At(response.value, "Message").s;
      if code == "INCORRECT_REQUEST" && IsRouteError(message) then
        r.value.code == Status.UnsupportedFeature && r.value.message == message
      else
        r.value == Status.Of(Status.ParameterValidationError)
    ensures statusCode == "403" ==> r == Success(Status.Of(Status.UserNotAuthorized))
    ensures statusCode == "404" ==> r == Success(Status.Of(Status.RecordNotFound))
    ensures statusCode == "409" ==> r == Success(Status.Of(Status.RecordAlreadyExists))
    ensures statusCode == "200" && response.None? ==> r == Success(Status.Of(Status.InternalError))
    ensures statusCode !in {"200", "400", "403", "404", "409"} ==> r == Success(Status.Of(Status.InternalError))
  {
    if statusCode == "200" && response.Some? then
      Success(Status.Of(Status.Ok))
    else if statusCode == "400" then
      var errorCode :- StringField(response, "Code");
      var errorMessage :- StringField(response, "Message");
      if errorCode == "INCORRECT_REQUEST" && IsRouteError(errorMessage) then
        Success(Status.WithMessage(Status.UnsupportedFeature, errorMessage))
      else
        Success(Status.Of(Status.ParameterValidationError))
    else if statusCode == "403" then Success(Status.Of(Status.UserNotAuthorized))
    else if statusCode == "404" then Success(Status.Of(Status.RecordNotFound))
    else if statusCode == "409" then Success(Status.Of(Status.RecordAlreadyExists))
    else Success(Status.Of(Status.InternalError))
  }

  /** The server's "unknown route" reply is the one 400 that reports an unsupported
      feature; every other well-formed 400 is a parameter validation error. */
  lemma RouteErrorIsUnsupported(code: string, message: string)
    ensures var body := Some(Json.JObj(map["Code" := Json.JStr(code), "Message" := Json.JStr(message)]));
      JsonStatus("400", body) ==
        if code == "INCORRECT_REQUEST" && IsRouteError(message) then
          Success(Status.WithMessage(Status.UnsupportedFeature, message))
        else
          Success(Status.Of(Status.ParameterValidationError))
  {
    var body := Some(Json.JObj(map["Code" := Json.JStr(code), "Message" := Json.JStr(message)]));
    assert HasErrorBody(body);
  }

  /** `logout`: the JSON transport has no logout route, so the call returns the
      validator's verdict and touches nothing. */
  function Logout(config: Config.CloudConfig): (r: Status.CloudStatus)
    ensures r.IsOk() <==> config.authToken != ""
    ensures r == CloudValidator.Logout(config)
  {
    var checked := CloudValidator.Logout(config);
    if !checked.IsOk() then checked else Status.Of(Status.Ok)
  }

  /** The request call up to the wait, given the outcome of `BuildRequest`: a
      `type_error` while assembling the request escapes before a request ID is
      drawn; otherwise the connection draws the ID, refuses on a socket that is
      not open, or sends the frame carrying the request text. */
  method Begin(c: WebSocketConnection.Connection, request: Result<Json.Json, Thrown>, wsCode: nat,
               socketState: WebSocket.State, dump: Json.Json -> string)
      returns (r: Result<WebSocketConnection.SendStart, Thrown>)
    requires c.Valid()
    modifies c`lastTransactionID, c`pending
    ensures c.Valid()
    ensures request.Failure? ==>
      r == Failure(request.error) && c.lastTransactionID == old(c.lastTransactionID) && c.pending == old(c.pending)
    ensures request.Success? ==>
      var t := Framing.NextTransaction(old(c.lastTransactionID));
      r.Success? && c.lastTransactionID == t.next
      && (socketState != WebSocket.Open ==>
            r.value == WebSocketConnection.Refused(Status.WithMessage(Status.TransportClosed, old(c.closedReason)))
            && c.pending == old(c.pending))
      && (socketState == WebSocket.Open ==>
            r.value.Sent? && r.value.requestID == Framing.RequestID(wsCode, t.id)
            && r.value.frame == Framing.Frame(wsCode, r.value.requestID, RequestString(request.value, dump))
            && c.pending == old(c.pending) + {r.value.requestID})
  {
    if request.Failure? {
      return Failure(request.error);
    }
    var text := RequestString(request.value, dump);
    var start := c.Send(wsCode, text, socketState);
    r := Success(start);
  }

  /** The status a stored reply yields: a reply too short to hold a status is an
      internal error; otherwise its status and parsed body decide. `parse` is
      nlohmann's non-throwing parser (`None` for a discarded value). */
  function ReplyStatus(message: string, parse: string -> Option<Json.Json>): (r: Result<Status.CloudStatus, Thrown>)
    ensures |message| < Framing.PayloadOffset ==> r.Success? && r.value.code == Status.InternalError
    ensures Framing.SplitResponse(message).Success? ==>
      r == JsonStatus(Framing.SplitResponse(message).value.status, parse(Framing.SplitResponse(message).value.payload))
  {
    match Framing.SplitResponse(message)
    case Failure(e) => Success(e)
    case Success(reply) => JsonStatus(reply.status, parse(reply.payload))
  }

  /** The request call after the wake-up: a closed connection reports its
      closing reason, a missing reply is an internal error, and otherwise the
      stored reply decides. */
  method Finish(c: WebSocketConnection.Connection, requestID: string, parse: string -> Option<Json.Json>)
      returns (r: Result<Status.CloudStatus, Thrown>)
    modifies c`responses
    ensures old(c.closed) ==> r == Success(Status.WithMessage(Status.TransportClosed, old(c.closedReason)))
    ensures !old(c.closed) && requestID !in old(c.responses) ==> r == Success(Status.Of(Status.InternalError))
    ensures !old(c.closed) && requestID in old(c.responses) ==>
      c.responses == old(c.responses) - {requestID} && r == ReplyStatus(old(c.responses)[requestID], parse)
  {
    var reply := c.Collect(requestID);
    if reply.Failure? {
      return Success(reply.error);
    }
    r := JsonStatus(reply.value.status, parse(reply.value.payload));
  }

  /** A stored reply that splits into `status` and `reply` yields the status they give. */
  lemma StoredReplyStatus(stored: string, status: string, reply: string, parse: string -> Option<Json.Json>)
    requires Framing.SplitResponse(stored) == Success(Framing.Response(status, reply))
    ensures ReplyStatus(stored, parse) == JsonStatus(status, parse(reply))
  {
  }

  /** A request sent on an open connection and answered before anything closes
      it ends with the status its reply carries. */
  method Request(c: WebSocketConnection.Connection, request: Json.Json, wsCode: nat,
                 dump: Json.Json -> string, parse: string -> Option<Json.Json>,
                 status: string, reply: string)
      returns (r: Result<Status.CloudStatus, Thrown>)
    requires c.Valid() && !c.closed && |status| == Framing.StatusLength
    modifies c
    ensures r == JsonStatus(status, parse(reply))
  {
    var id := SendAnswered(c, RequestString(request, dump), wsCode, status, reply);
    StoredReplyStatus(c.responses[id], status, reply, parse);
    r := Finish(c, id, parse);
  }

  /** Sends `payload` on an open connection and delivers the reply routed back
      to it: the connection stays open and holds that reply under the request's ID. */
  method SendAnswered(c: WebSocketConnection.Connection, payload: string, wsCode: nat,
                      status: string, reply: string)
      returns (id: string)
    requires c.Valid() && !c.closed && |status| == Framing.StatusLength
    modifies c
    ensures !c.closed && id in c.responses
    ensures Framing.SplitResponse(c.responses[id]) == Success(Framing.Response(status, reply))
  {
    var n := Framing.NextTransaction(c.lastTransactionID).id;
    var start := c.Send(wsCode, payload, WebSocket.Open);
    id := start.requestID;
    WebSocketConnection.Answer(c, id, wsCode, n, status, reply);
  }
}
