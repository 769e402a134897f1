/** The protobuf WebSocket transport (`CloudWebSocket`): how a request that
    fails to serialise is refused before anything is sent, how a reply's
    status and body become a `CloudStatus` (including the error message
    `decodeWebSocketError` builds), and how login, logout and device
    registration update the configuration. Protobuf parsing and
    serialisation are library calls: the model is given their outcomes. */
module WebSocketProto {
  import opened Wrappers
  import Status
  import Config
  import Framing
  import WebSocket
  import WebSocketConnection
  import CloudValidator

  /** What the expected response message yields once the reply body parses into
      it: its `DebugString()` and, for a login response, its token. */
  datatype ParsedReply = ParsedReply(debugString: string, token: string)

  const ValidationHeader: string := "Validation error on fields: "

  /** Each field name is followed by ", ", except the last, which is followed by ".". */
  function Separator(index: nat, count: nat): string
  {
    if index < count - 1 then ", " else "."
  }

  /** The field list after the first `i` names of `keys` have been written. */
  function FieldsUpTo(keys: seq<string>, i: nat): string
    requires i <= |keys|
  {
    if i == 0 then "" else FieldsUpTo(keys, i - 1) + keys[i - 1] + Separator(i - 1, |keys|)
  }

  /** The message of a validation error naming `keys`, in the order the error's
      map yields them: the header, the names joined by ", " and a full stop;
      with no names there is nothing after the header, not even the full stop. */
  function ValidationText(keys: seq<string>): (r: string)
    ensures |keys| == 0 ==> r == ValidationHeader
    ensures |keys| > 0 ==> r == ValidationHeader + Join(keys) + "."
  {
    if |keys| > 0 then
      FieldsUpToJoined(keys, |keys|);
      assert keys[..|keys|] == keys;
      ValidationHeader + FieldsUpTo(keys, |keys|)
    else ValidationHeader + FieldsUpTo(keys, |keys|)
  }

  /** Names joined by ", ". */
  function Join(names: seq<string>): string
  {
    if |names| == 0 then ""
    else if |names| == 1 then names[0]
    else Join(names[..|names| - 1]) + ", " + names[|names| - 1]
  }

  lemma {:induction false} FieldsUpToJoined(keys: seq<string>, i: nat)
    requires 0 < i <= |keys|
    ensures FieldsUpTo(keys, i) == Join(keys[..i]) + (if i < |keys| then ", " else ".")
  {
    if i == 1 {
      assert keys[..1] == [keys[0]];
    } else {
      FieldsUpToJoined(keys, i - 1);
      assert keys[..i][..i - 1] == keys[..i - 1];
    }
  }

  /** `decodeWebSocketError`: `error` is the field names of the decoded
      `dfx.proto.util.Error` in iteration order, or `None` when the body does
      not decode as one. */
  function DecodeError(statusCode: string, error: Option<seq<string>>): (r: Status.CloudStatus)
    ensures r.protocolCode == 0 && r.protocolMessage == "" && !r.IsOk()
    ensures error.None? ==> r == Status.Of(Status.InternalError)
    ensures error.Some? && statusCode == "400" ==>
      r.code == Status.ParameterValidationError && r.message == ValidationText(error.value)
    ensures error.Some? && statusCode == "404" ==> r == Status.Of(Status.RecordNotFound)
    ensures error.Some? && statusCode == "403" ==> r == Status.Of(Status.UserNotAuthorized)
    ensures statusCode !in {"400", "403", "404"} ==> r == Status.Of(Status.InternalError)
  {
    match error
    case None => Status.Of(Status.InternalError)
    case Some(keys) =>
      if statusCode == "400" then Status.WithMessage(Status.ParameterValidationError, ValidationText(keys))
      else if statusCode == "404" then Status.Of(Status.RecordNotFound)
      else if statusCode == "403" then Status.Of(Status.UserNotAuthorized)
      else Status.Of(Status.InternalError)
  }

  /** `decodeWebSocketError` as the source runs it: the validation message is
      written one field at a time. */
  method DecodeWebSocketError(statusCode: string, error: Option<seq<string>>) returns (r: Status.CloudStatus)
    ensures r == DecodeError(statusCode, error)
  {
    if error.None? {
      return Status.Of(Status.InternalError);
    }
    var keys := error.value;
    if statusCode == "400" {
      var text := ValidationHeader;
      var index := 0;
      while index < |keys|
        invariant 0 <= index <= |keys|
        invariant text == ValidationHeader + FieldsUpTo(keys, index)
      {
        text := text + keys[index];
        if index < |keys| - 1 {
          text := text + ", ";
        } else {
          text := text + ".";
        }
        index := index + 1;
      }
      return Status.WithMessage(Status.ParameterValidationError, text);
    }
    if statusCode == "404" {
      return Status.Of(Status.RecordNotFound);
    }
    if statusCode == "403" {
      return Status.Of(Status.UserNotAuthorized);
    }
    r := Status.Of(Status.InternalError);
  }

  /** The status of a reply. `response` is the reply body parsed as the expected
      response message (`None` when it does not parse), `isLoginResponse` whether
      that message is a login response, and `error` the body decoded as an error
      message. A 403 to a login carries the token as its message; a parsed 409 or
      500 carries the response's debug string; everything else is decoded as an error. */
  function ProtoStatus(statusCode: string, isLoginResponse: bool, response: Option<ParsedReply>,
                       error: Option<seq<string>>): (r: Status.CloudStatus)
    ensures r.protocolCode == 0 && r.protocolMessage == ""
    ensures r.IsOk() <==> statusCode == "200" && response.Some?
    ensures statusCode == "200" && response.None? ==> r == Status.Of(Status.InternalError)
    ensures statusCode == "403" ==>
      (r.code == Status.UserNotAuthorized <==> (isLoginResponse && response.Some?) || error.Some?)
    ensures statusCode == "403" && isLoginResponse && response.Some? ==> r.message == response.value.token
    ensures statusCode in {"409", "500"} && response.Some? ==> r.message == response.value.debugString
    ensures statusCode == "409" ==>
      r.code == (if response.Some? then Status.RecordAlreadyExists else Status.InternalError)
    ensures statusCode == "500" ==> r.code == Status.InternalError
    ensures statusCode == "400" ==> r == DecodeError("400", error)
    ensures statusCode == "404" ==> r == DecodeError("404", error)
    ensures statusCode !in {"200", "400", "403", "404", "409", "500"} ==> r == Status.Of(Status.InternalError)
  {
    if statusCode == "200" then
      if response.Some? then Status.Of(Status.Ok) else Status.Of(Status.InternalError)
    else if statusCode == "403" && isLoginResponse && response.Some? then
      Status.WithMessage(Status.UserNotAuthorized, response.value.token)
    else if statusCode == "409" && response.Some? then
      Status.WithMessage(Status.RecordAlreadyExists, response.value.debugString)
    else if statusCode == "500" && response.Some? then
      Status.WithMessage(Status.InternalError, response.value.debugString)
    else
      DecodeError(statusCode, error)
  }

  /** The request call up to the wait: a message that does not serialise is a
      parameter validation error before a request ID is drawn; otherwise the
      connection draws the ID, refuses on a socket that is not open, or sends
      the frame carrying the serialised message. */
  method Begin(c: WebSocketConnection.Connection, serialized: Option<string>, wsCode: nat,
               socketState: WebSocket.State)
      returns (r: WebSocketConnection.SendStart)
    requires c.Valid()
    modifies c`lastTransactionID, c`pending
    ensures c.Valid()
    ensures serialized.None? ==>
      r == WebSocketConnection.Refused(Status.Of(Status.ParameterValidationError))
      && c.lastTransactionID == old(c.lastTransactionID) && c.pending == old(c.pending)
    ensures serialized.Some? ==>
      var t := Framing.NextTransaction(old(c.lastTransactionID));
      c.lastTransactionID == t.next
      && (socketState != WebSocket.Open ==>
            r == WebSocketConnection.Refused(Status.WithMessage(Status.TransportClosed, old(c.closedReason)))
            && c.pending == old(c.pending))
      && (socketState == WebSocket.Open ==>
            r.Sent? && r.requestID == Framing.RequestID(wsCode, t.id)
            && r.frame == Framing.Frame(wsCode, r.requestID, serialized.value)
            && c.pending == old(c.pending) + {r.requestID})
  {
    if serialized.None? {
      return WebSocketConnection.Refused(Status.Of(Status.ParameterValidationError));
    }
    r := c.Send(wsCode, serialized.value, socketState);
  }

  /** The status a stored reply yields, given how its body parses. */
  function ReplyStatus(message: string, isLoginResponse: bool,
                       parseResponse: string -> Option<ParsedReply>,
                       parseError: string -> Option<seq<string>>): (r: Status.CloudStatus)
    ensures |message| < Framing.PayloadOffset ==> r.code == Status.InternalError
    ensures Framing.SplitResponse(message).Success? ==>
      var reply := Framing.SplitResponse(message).value;
      r == ProtoStatus(reply.status, isLoginResponse, parseResponse(reply.payload), parseError(reply.payload))
  {
    match Framing.SplitResponse(message)
    case Failure(e) => e
    case Success(reply) =>
      ProtoStatus(reply.status, isLoginResponse, parseResponse(reply.payload), parseError(reply.payload))
  }

  /** The request call after the wake-up: a closed connection reports its closing
      reason, a missing reply is an internal error, otherwise the stored reply decides. */
  method Finish(c: WebSocketConnection.Connection, requestID: string, isLoginResponse: bool,
                parseResponse: string -> Option<ParsedReply>, parseError: string -> Option<seq<string>>)
      returns (r: Status.CloudStatus)
    modifies c`responses
    ensures old(c.closed) ==> r == Status.WithMessage(Status.TransportClosed, old(c.closedReason))
    ensures !old(c.closed) && requestID !in old(c.responses) ==> r == Status.Of(Status.InternalError)
    ensures !old(c.closed) && requestID in old(c.responses) ==>
      c.responses == old(c.responses) - {requestID}
      && r == ReplyStatus(old(c.responses)[requestID], isLoginResponse, parseResponse, parseError)
  {
    var reply := c.Collect(requestID);
    if reply.Failure? {
      return reply.error;
    }
    var payload := reply.value.payload;
    var decoded := DecodeWebSocketError(reply.value.status, parseError(payload));
    var response := parseResponse(payload);
    var status := reply.value.status;
    if status == "200" {
      r := if response.Some? then Status.Of(Status.Ok) else Status.Of(Status.InternalError);
    } else if status == "403" && isLoginResponse && response.Some? {
      r := Status.WithMessage(Status.UserNotAuthorized, response.value.token);
    } else if status == "409" && response.Some? {
      r := Status.WithMessage(Status.RecordAlreadyExists, response.value.debugString);
    } else if status == "500" && response.Some? {
      r := Status.WithMessage(Status.InternalError, response.value.debugString);
    } else {
      r := decoded;
    }
  }

  /** What a configuration-changing call leaves behind: its status, the
      configuration after it, and whether a request went out. */
  datatype Call = Call(status: Status.CloudStatus, config: Config.CloudConfig, sent: bool)

  /** `login`: after the validator passes, the login request is sent; on success
      the configuration takes the token from the response. `reply` is the status
      of the exchange and `token` the response's token. */
  function Login(config: Config.CloudConfig, reply: Status.CloudStatus, token: string): (r: Call)
    ensures !CloudValidator.Login(config).IsOk() ==> r == Call(CloudValidator.Login(config), config, false)
    ensures CloudValidator.Login(config).IsOk() ==> r.sent && r.status == reply
    ensures r.status.IsOk() ==> r.config == config.(authToken := token)
    ensures !r.status.IsOk() ==> r.config == config
  {
    var checked := CloudValidator.Login(config);
    if !checked.IsOk() then Call(checked, config, false)
    else Call(reply, if reply.IsOk() then config.(authToken := token) else config, true)
  }

  /** `logout`: after the validator passes, the device's license registration is
      withdrawn; on success the device ID, device token and user token are cleared. */
  function Logout(config: Config.CloudConfig, reply: Status.CloudStatus): (r: Call)
    ensures !CloudValidator.Logout(config).IsOk() ==> r == Call(CloudValidator.Logout(config), config, false)
    ensures CloudValidator.Logout(config).IsOk() ==> r.sent && r.status == reply
    ensures r.status.IsOk() ==> r.config == config.(deviceID := "", deviceToken := "", authToken := "")
    ensures !r.status.IsOk() ==> r.config == config
  {
    var checked := CloudValidator.Logout(config);
    if !checked.IsOk() then Call(checked, config, false)
    else Call(reply, if reply.IsOk() then config.(deviceID := "", deviceToken := "", authToken := "") else config, true)
  }

  /** `registerDevice`: after the validator passes, the license is registered; on
      success the configuration takes the new device ID and device token. */
  function RegisterDevice(config: Config.CloudConfig, appName: string, appVersion: string,
                          reply: Status.CloudStatus, deviceID: string, deviceToken: string): (r: Call)
    ensures var checked := CloudValidator.RegisterDevice(config, appName, appVersion);
      !checked.IsOk() ==> r == Call(checked, config, false)
    ensures CloudValidator.RegisterDevice(config, appName, appVersion).IsOk() ==> r.sent && r.status == reply
    ensures r.status.IsOk() ==> r.config == config.(deviceID := deviceID, deviceToken := deviceToken)
    ensures !r.status.IsOk() ==> r.config == config
  {
    var checked := CloudValidator.RegisterDevice(config, appName, appVersion);
    if !checked.IsOk() then Call(checked, config, false)
    else Call(reply, if reply.IsOk() then config.(deviceID := deviceID, deviceToken := deviceToken) else config, true)
  }

  /** Once a logout succeeds there is no user token left, so a second logout is
      refused by the validator without sending anything. */
  lemma LogoutOnce(config: Config.CloudConfig, reply: Status.CloudStatus, again: Status.CloudStatus)
    requires Logout(config, reply).status.IsOk()
    ensures var second := Logout(Logout(config, reply).config, again);
      !second.sent && second.status == CloudValidator.Logout(Logout(config, reply).config)
      && second.status.message == "config.authToken is empty"
  {
  }

  /** A login that succeeds with a non-empty token leaves a configuration whose
      next login is refused for already holding a token. */
  lemma LoginOnce(config: Config.CloudConfig, reply: Status.CloudStatus, token: string, again: Status.CloudStatus)
    requires Login(config, reply, token).status.IsOk() && token != ""
    ensures var second := Login(Login(config, reply, token).config, again, token);
      !second.sent && second.status == CloudValidator.AlreadyHaveToken
  {
  }
}
