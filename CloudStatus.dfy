/** `dfx::api::CloudStatus`: the status code every client call returns, its
    printable name, and its JSON form (api-cpp/src/CloudStatus.cpp). */
module Status {
  import opened Wrappers
  import Text
  import Json

  /** `dfx_status_code`, in declaration order (CLOUD_OK = 0 … CLOUD_LAST = 20). */
  datatype Code =
    | Ok | CurlError | Timeout | RecordNotFound | RecordAlreadyExists
    | AlreadyHaveUserToken | ConfigUserTokenMissing | UnsupportedTransport
    | ConfigUnsupportedContentType | ConfigParseError | TransportFailure
    | TransportClosed | UnsupportedFeature | UnimplementedFeature
    | ParameterValidationError | InternalError | BadRequest
    | UserNotAuthorized | UserNotAuthenticated | TokenExpired | Last

  /** The numeric value of a code. */
  function Ordinal(c: Code): (n: nat)
    ensures n <= 20
  {
    match c
    case Ok => 0 case CurlError => 1 case Timeout => 2 case RecordNotFound => 3
    case RecordAlreadyExists => 4 case AlreadyHaveUserToken => 5
    case ConfigUserTokenMissing => 6 case UnsupportedTransport => 7
    case ConfigUnsupportedContentType => 8 case ConfigParseError => 9
    case TransportFailure => 10 case TransportClosed => 11
    case UnsupportedFeature => 12 case UnimplementedFeature => 13
    case ParameterValidationError => 14 case InternalError => 15
    case BadRequest => 16 case UserNotAuthorized => 17
    case UserNotAuthenticated => 18 case TokenExpired => 19 case Last => 20
  }

  function FromOrdinal(n: nat): (r: Option<Code>)
    ensures r.Some? <==> n <= 20
    ensures r.Some? ==> Ordinal(r.value) == n
  {
    if n == 0 then Some(Ok) else if n == 1 then Some(CurlError)
    else if n == 2 then Some(Timeout) else if n == 3 then Some(RecordNotFound)
    else if n == 4 then Some(RecordAlreadyExists) else if n == 5 then Some(AlreadyHaveUserToken)
    else if n == 6 then Some(ConfigUserTokenMissing) else if n == 7 then Some(UnsupportedTransport)
    else if n == 8 then Some(ConfigUnsupportedContentType) else if n == 9 then Some(ConfigParseError)
    else if n == 10 then Some(TransportFailure) else if n == 11 then Some(TransportClosed)
    else if n == 12 then Some(UnsupportedFeature) else if n == 13 then Some(UnimplementedFeature)
    else if n == 14 then Some(ParameterValidationError) else if n == 15 then Some(InternalError)
    else if n == 16 then Some(BadRequest) else if n == 17 then Some(UserNotAuthorized)
    else if n == 18 then Some(UserNotAuthenticated) else if n == 19 then Some(TokenExpired)
    else if n == 20 then Some(Last) else None
  }

  /** The number of a code names the code back, so no two codes share one. */
  lemma OrdinalRoundTrip(c: Code)
    ensures FromOrdinal(Ordinal(c)) == Some(c)
  {
  }

  /** The codes `ToString` spells out by name; the others print as a number. */
  function NamedString(c: Code): Option<string>
  {
    match c
    case Ok => Some("CLOUD_OK")
    case Timeout => Some("CLOUD_TIMEOUT")
    case RecordNotFound => Some("CLOUD_RECORD_NOT_FOUND")
    case RecordAlreadyExists => Some("CLOUD_RECORD_ALREADY_EXISTS")
    case UnsupportedTransport => Some("CLOUD_UNSUPPORTED_TRANSPORT")
    case BadRequest => Some("CLOUD_BAD_REQUEST")
    case ParameterValidationError => Some("CLOUD_PARAMETER_VALIDATION_ERROR")
    case InternalError => Some("CLOUD_INTERNAL_ERROR")
    case UnsupportedFeature => Some("CLOUD_UNSUPPORTED_FEATURE")
    case UnimplementedFeature => Some("CLOUD_UNIMPLEMENTED_FEATURE")
    case TransportFailure => Some("CLOUD_TRANSPORT_FAILURE")
    case TransportClosed => Some("CLOUD_TRANSPORT_CLOSED")
    case ConfigUnsupportedContentType => Some("CLOUD_CONFIG_UNSUPPORTED_CONTENT_TYPE")
    case UserNotAuthenticated => Some("CLOUD_USER_NOT_AUTHENTICATED")
    case UserNotAuthorized => Some("CLOUD_USER_NOT_AUTHORIZED")
    case TokenExpired => Some("CLOUD_TOKEN_EXPIRED")
    case _ => None
  }

  /** `ToString(dfx_status_code)`. */
  function ToString(c: Code): (r: string)
    ensures NamedString(c).None? ==> r == "CloudStatus(" + Text.NatToString(Ordinal(c)) + ")"
  {
    match NamedString(c)
    case Some(name) => name
    case None => "CloudStatus(" + Text.NatToString(Ordinal(c)) + ")"
  }

  /** Whether `s` has the shape `CloudStatus(<digits>)`. */
  predicate IsOrdinalForm(s: string)
  {
    |s| >= 14 && s[..12] == "CloudStatus(" && s[|s| - 1] == ')' && Text.AllDigits(s[12..|s| - 1])
  }

  /** The code a `CLOUD_...` name stands for. */
  function FromName(s: string): Option<Code>
  {
    if s == "CLOUD_OK" then Some(Ok)
    else if s == "CLOUD_TIMEOUT" then Some(Timeout)
    else if s == "CLOUD_RECORD_NOT_FOUND" then Some(RecordNotFound)
    else if s == "CLOUD_RECORD_ALREADY_EXISTS" then Some(RecordAlreadyExists)
    else if s == "CLOUD_UNSUPPORTED_TRANSPORT" then Some(UnsupportedTransport)
    else if s == "CLOUD_BAD_REQUEST" then Some(BadRequest)
    else if s == "CLOUD_PARAMETER_VALIDATION_ERROR" then Some(ParameterValidationError)
    else if s == "CLOUD_INTERNAL_ERROR" then Some(InternalError)
    else if s == "CLOUD_UNSUPPORTED_FEATURE" then Some(UnsupportedFeature)
    else if s == "CLOUD_UNIMPLEMENTED_FEATURE" then Some(UnimplementedFeature)
    else if s == "CLOUD_TRANSPORT_FAILURE" then Some(TransportFailure)
    else if s == "CLOUD_TRANSPORT_CLOSED" then Some(TransportClosed)
    else if s == "CLOUD_CONFIG_UNSUPPORTED_CONTENT_TYPE" then Some(ConfigUnsupportedContentType)
    else if s == "CLOUD_USER_NOT_AUTHENTICATED" then Some(UserNotAuthenticated)
    else if s == "CLOUD_USER_NOT_AUTHORIZED" then Some(UserNotAuthorized)
    else if s == "CLOUD_TOKEN_EXPIRED" then Some(TokenExpired)
    else None
  }

  /** Reads back a string written by `ToString`: the reference inverse used to
      show that no two codes print alike. */
  function FromString(s: string): Option<Code>
  {
    if IsOrdinalForm(s) then FromOrdinal(Text.ParseDecimal(s[12..|s| - 1]))
    else FromName(s)
  }

  /** Every named code's name reads back as that code. */
  lemma NameRoundTrip(c: Code)
    requires NamedString(c).Some?
    ensures FromName(NamedString(c).value) == Some(c)
  {
    match c
    case Ok =>
    case Timeout =>
    case RecordNotFound =>
    case RecordAlreadyExists =>
    case UnsupportedTransport =>
    case BadRequest =>
    case ParameterValidationError =>
    case InternalError =>
    case UnsupportedFeature =>
    case UnimplementedFeature =>
    case TransportFailure =>
    case TransportClosed =>
    case ConfigUnsupportedContentType =>
    case UserNotAuthenticated =>
    case UserNotAuthorized =>
    case TokenExpired =>
    case _ =>
  }

  /** A code without a name prints as `CloudStatus(<n>)`, which reads back as it. */
  lemma OrdinalFormRoundTrip(c: Code)
    requires NamedString(c).None?
    ensures FromString(ToString(c)) == Some(c)
  {
    var s := ToString(c);
    var d := Text.NatToString(Ordinal(c));
    Text.ParseNatToString(Ordinal(c));
    assert s == "CloudStatus(" + d + ")";
    assert s[..12] == "CloudStatus(";
    assert s[12..|s| - 1] == d;
  }

  /** A name starting "CL" never has the shape `CloudStatus(<n>)`. */
  lemma NameNotOrdinalForm(s: string)
    requires |s| >= 2 && s[1] == 'L'
    ensures !IsOrdinalForm(s)
  {
    assert |s| >= 14 ==> s[..12][1] != "CloudStatus("[1];
  }

  /** Every code's printed name identifies it, including the five printed as
      `CloudStatus(<n>)`. */
  lemma ToStringRoundTrip(c: Code)
    ensures FromString(ToString(c)) == Some(c)
  {
    if NamedString(c).None? {
      OrdinalFormRoundTrip(c);
    } else {
      NameNotOrdinalForm(NamedString(c).value);
      NameRoundTrip(c);
    }
  }

  lemma ToStringInjective(a: Code, b: Code)
    requires ToString(a) == ToString(b)
    ensures a == b
  {
    ToStringRoundTrip(a);
    ToStringRoundTrip(b);
  }

  /** `CloudStatus`: a code, a message, and the transport's own error code and text. */
  datatype CloudStatus = CloudStatus(code: Code, message: string, protocolCode: int, protocolMessage: string)
  {
    /** `CloudStatus::OK()`. */
    predicate IsOk() { code == Ok }
  }

  /** The one- and two-argument constructors: no protocol error. */
  function WithMessage(code: Code, message: string): (r: CloudStatus)
    ensures r.code == code && r.message == message
    ensures r.protocolCode == 0 && r.protocolMessage == ""
    ensures r.IsOk() <==> code == Ok
  {
    CloudStatus(code, message, 0, "")
  }

  function Of(code: Code): (r: CloudStatus)
    ensures r.code == code && r.message == ""
    ensures r.protocolCode == 0 && r.protocolMessage == ""
    ensures r.IsOk() <==> code == Ok
  {
    WithMessage(code, "")
  }

  /** `operator<<(std::ostream&, const CloudStatus&)`. */
  function Describe(s: CloudStatus): (r: string)
    ensures |r| == |ToString(s.code)| + 2 + |s.message|
    ensures r[..|ToString(s.code)|] == ToString(s.code)
    ensures r[|ToString(s.code)|..|ToString(s.code)| + 2] == ": "
    ensures r[|r| - |s.message|..] == s.message
  {
    ToString(s.code) + ": " + s.message
  }

  predicate HasProtocolError(s: CloudStatus)
  {
    s.protocolCode != 0 || s.protocolMessage != ""
  }

  /** `to_json(nlohmann::json&, const CloudStatus&)`. */
  function ToJson(s: CloudStatus): (j: Json.Json)
    ensures j.JObj?
    ensures j.fields.Keys == if HasProtocolError(s) then {"Message", "Code", "ProtocolCode", "ProtocolError"}
                             else {"Message", "Code"}
    ensures j.fields["Message"] == Json.JStr(s.message) && j.fields["Code"] == Json.JStr(ToString(s.code))
  {
    var base := map["Message" := Json.JStr(s.message), "Code" := Json.JStr(ToString(s.code))];
    if HasProtocolError(s) then
      Json.JObj(base["ProtocolCode" := Json.JInt(s.protocolCode)]["ProtocolError" := Json.JStr(s.protocolMessage)])
    else Json.JObj(base)
  }

  /** Reads a status back from its JSON form; absent protocol fields mean none. */
  function FromJson(j: Json.Json): Option<CloudStatus>
  {
    if !(Json.Contains(j, "Message") && Json.Contains(j, "Code")) then None
    else
      var message :- Json.AsString(Json.At(j, "Message"));
      var name :- Json.AsString(Json.At(j, "Code"));
      var code :- FromString(name);
      if !Json.Contains(j, "ProtocolCode") then Some(WithMessage(code, message))
      else if !Json.Contains(j, "ProtocolError") then None
      else
        var pc := Json.At(j, "ProtocolCode");
        var pm := Json.At(j, "ProtocolError");
        if pc.JInt? && pm.JStr? then Some(CloudStatus(code, message, pc.i, pm.s)) else None
  }

  /** The JSON form loses nothing: leaving out the protocol fields when there is
      no protocol error is undone by reading them as 0 and "". */
  lemma ToJsonRoundTrip(s: CloudStatus)
    ensures FromJson(ToJson(s)) == Some(s)
  {
    ToStringRoundTrip(s.code);
  }
}
