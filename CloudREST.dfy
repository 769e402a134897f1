/** The REST transport (`CloudREST`): which token authorises a call, the URL a
    call goes to, how the reply (transfer outcome, HTTP code and JSON body)
    becomes a `CloudStatus`, and the query string of a filtered list. The
    transfer itself (curl) is given to the model as its outcome. */
module CloudREST {
  import opened Wrappers
  import Text
  import Json
  import Status
  import Config
  import WebService
  import OrderedKeys
  import WebSocketJson

  /** `getAuthToken`: the user token when there is one, otherwise the device token. */
  function AuthToken(config: Config.CloudConfig): (r: string)
    ensures r == "" <==> config.authToken == "" && config.deviceToken == ""
    ensures r in {config.authToken, config.deviceToken}
    ensures config.authToken != "" ==> r == config.authToken
  {
    if config.authToken != "" then config.authToken else config.deviceToken
  }

  /** `fmt::vformat(urlPath, args)` on a route path, whose only braces are the
      `{}` replacement fields: each is replaced by the next argument, and a
      field with no argument left is a `format_error` (`None`). */
  function FormatPath(path: string, args: seq<string>): (r: Option<string>)
    ensures r.Some? <==> WebService.Placeholders(path) <= |args|
    ensures WebService.Placeholders(path) == 0 ==> r == Some(path)
    decreases |path|
  {
    if |path| >= 2 && path[0] == '{' && path[1] == '}' then
      assert WebService.Placeholders(path) == 1 + WebService.Placeholders(path[1..]);
      assert WebService.Placeholders(path[1..]) == WebService.Placeholders(path[2..]);
      if |args| == 0 then None
      else
        var rest :- FormatPath(path[2..], args[1..]);
        Some(args[0] + rest)
    else if |path| == 0 then Some(path)
    else
      assert |path| >= 2 ==> WebService.Placeholders(path) == WebService.Placeholders(path[1..]);
      assert |path| < 2 ==> WebService.Placeholders(path[1..]) == 0;
      var rest :- FormatPath(path[1..], args);
      assert WebService.Placeholders(path) == 0 ==> rest == path[1..] && [path[0]] + path[1..] == path;
      Some([path[0]] + rest)
  }

  function Scheme(secure: bool): string
  {
    if secure then "https" else "http"
  }

  /** The URL of a call: scheme by `secure`, then host, port and path, and the
      query after a "?" only when there is one. */
  function Url(config: Config.CloudConfig, urlPath: string, query: string): (r: string)
    ensures |r| >= 8 && (r[..8] == "https://" <==> config.secure)
    ensures query != "" ==> |r| > |query| && r[|r| - |query| - 1..] == "?" + query
    ensures query == "" ==> |r| >= |urlPath| && r[|r| - |urlPath|..] == urlPath
  {
    var authority := config.serverHost + ":" + Text.NatToString(config.serverPort) + "/";
    UrlShape(config.secure, authority, urlPath, query);
    var base := Scheme(config.secure) + "://" + (authority + urlPath);
    if query != "" then base + ("?" + query) else base
  }

  /** The shape of a URL built from its scheme, authority, path and query. */
  lemma UrlShape(secure: bool, authority: string, urlPath: string, query: string)
    requires |authority| >= 1
    ensures var base := Scheme(secure) + "://" + (authority + urlPath);
      var r := if query != "" then base + ("?" + query) else base;
      && |r| >= 8 && (r[..8] == "https://" <==> secure)
      && (query != "" ==> |r| > |query| && r[|r| - |query| - 1..] == "?" + query)
      && (query == "" ==> |r| >= |urlPath| && r[|r| - |urlPath|..] == urlPath)
  {
    var base := Scheme(secure) + "://" + (authority + urlPath);
    SchemePrefix(secure, authority + urlPath);
    Suffix(authority, urlPath);
    Suffix(Scheme(secure) + "://", authority + urlPath);
    if query != "" {
      Suffix(base, "?" + query);
      assert (base + ("?" + query))[..8] == base[..8];
    }
  }

  lemma SchemePrefix(secure: bool, rest: string)
    requires |rest| >= 1
    ensures var u := Scheme(secure) + "://" + rest; |u| >= 8 && (u[..8] == "https://" <==> secure)
  {
    var u := Scheme(secure) + "://" + rest;
    if !secure {
      assert u[4] == ':';
      assert u[..8][4] == ':';
    }
  }

  lemma Suffix(a: string, b: string)
    ensures (a + b)[|a + b| - |b|..] == b && (a + b)[..|a|] == a
  {
  }

  /** What the HTTP transfer did. */
  datatype Transfer =
    /** curl could not be set up; the result code stays `CURLE_OUT_OF_MEMORY`. */
    | NotStarted
    /** `curl_easy_perform` failed with result `res`, after the server answered `httpCode` (0 when it did not). */
    | TransferFailed(res: nat, httpCode: int, error: string)
    /** The server answered `httpCode`; `body` is the reply parsed as JSON (`None` when discarded). */
    | Completed(httpCode: int, body: Option<Json.Json>)

  const CurleOutOfMemory: nat := 27

  /** The status an HTTP code gives when the body names no known error. */
  function HttpStatus(httpCode: int): (r: Status.CloudStatus)
    ensures r.IsOk() <==> httpCode == 200
    ensures httpCode == 403 ==> r.code == Status.UserNotAuthorized && r.protocolCode == 403
    ensures httpCode == 500 ==> r.code == Status.InternalError && r.protocolCode == 500
    ensures httpCode !in {200, 403, 500} ==> r == Status.WithMessage(Status.InternalError, Text.IntToString(httpCode))
  {
    if httpCode == 200 then Status.Of(Status.Ok)
    else if httpCode == 500 then Status.CloudStatus(Status.InternalError, "Internal server error", 500, "")
    else if httpCode == 403 then Status.CloudStatus(Status.UserNotAuthorized, "User does not have permission for request", 403, "")
    else Status.WithMessage(Status.InternalError, Text.IntToString(httpCode))
  }

  /** Whether the body is an error report: it has both "Code" and "Message". */
  predicate NamesError(body: Json.Json)
  {
    Json.Contains(body, "Code") && Json.Contains(body, "Message")
  }

  /** The body "Code" values that decide the status themselves. */
  predicate KnownCode(code: string)
  {
    code in {"BAD_REQUEST", "USER_ALREADY_EXISTS", "VALIDATION_ERROR", "NOT_FOUND"}
  }

  /** `size()`: none for null, the members of an object, the elements of an
      array, and one for any other value. */
  function Size(j: Json.Json): (n: nat)
    ensures n == |Json.Items(j)|
  {
    match j
    case JNull => 0
    case JObj(fields) => |fields|
    case JArr(items) => |items|
    case _ => 1
  }

  /** The values a range-for over `j` visits: the member values of an object
      in key order, the elements of an array, nothing for null, and the value
      itself otherwise. */
  function Values(j: Json.Json): (r: seq<Json.Json>)
    ensures |r| == |Json.Items(j)|
    ensures forall i :: 0 <= i < |r| ==> r[i] == Json.Items(j)[i].1
  {
    var items := Json.Items(j);
    seq(|items|, i requires 0 <= i < |items| => items[i].1)
  }

  /** How the VALIDATION_ERROR message reads one property error of a field. */
  datatype PropertyError =
    | ValidProperties(values: seq<Json.Json>)
    | NotUnderstood

  const ValidPropertiesTag: Json.Json := Json.JStr("VALID_PROPERTIES")

  /** A property error of two entries whose first is "VALID_PROPERTIES" lists
      the valid values: the elements of its second entry, read by position.
      Positional access to an object of two members, or to a second entry
      that is a non-empty object or a scalar, throws `type_error`; null and
      an empty object list nothing. Anything else is not understood. */
  function ReadPropertyError(p: Json.Json): (r: Result<PropertyError, WebSocketJson.Thrown>)
    ensures r.Failure? <==>
      Size(p) == 2 && (p.JObj? || (p.JArr? && p.items[0] == ValidPropertiesTag
                                   && !p.items[1].JArr? && Size(p.items[1]) != 0))
    ensures r.Success? && r.value.ValidProperties? <==>
      p.JArr? && |p.items| == 2 && p.items[0] == ValidPropertiesTag && (p.items[1].JArr? || Size(p.items[1]) == 0)
    ensures r.Success? && r.value.ValidProperties? ==>
      r.value.values == (if p.items[1].JArr? then p.items[1].items else [])
  {
    if Size(p) != 2 then Success(NotUnderstood)
    else if p.JObj? then Failure(WebSocketJson.TypeError)
    else if p.items[0] != ValidPropertiesTag then Success(NotUnderstood)
    else if p.items[1].JArr? then Success(ValidProperties(p.items[1].items))
    else if Size(p.items[1]) == 0 then Success(ValidProperties([]))
    else Failure(WebSocketJson.TypeError)
  }

  /** The valid values written one after the other, separated by ", ". */
  function JoinDumps(values: seq<Json.Json>, dump: Json.Json -> string): (r: string)
    ensures values == [] ==> r == ""
    ensures |values| == 1 ==> r == dump(values[0])
  {
    if |values| == 0 then ""
    else if |values| == 1 then dump(values[0])
    else JoinDumps(values[..|values| - 1], dump) + ", " + dump(values[|values| - 1])
  }

  /** The text streamed so far, and the message chosen so far. */
  datatype Rendering = Rendering(text: string, message: string)

  predicate Readable(errors: seq<Json.Json>)
  {
    forall j :: 0 <= j < |errors| ==> ReadPropertyError(errors[j]).Success?
  }

  predicate NoneUnderstood(errors: seq<Json.Json>)
  {
    forall j :: 0 <= j < |errors| ==> ReadPropertyError(errors[j]) == Success(NotUnderstood)
  }

  /** One field's property errors, in order: a list of valid values extends
      the text and makes the whole text the message; any other error makes
      the dump of all the errors the message. The last one decides. */
  function RenderPropertyErrors(errors: seq<Json.Json>, all: Json.Json, dump: Json.Json -> string, acc: Rendering)
      : (r: Result<Rendering, WebSocketJson.Thrown>)
    ensures r.Success? <==> Readable(errors)
    ensures errors == [] ==> r == Success(acc)
    ensures r.Success? ==> acc.text <= r.value.text
    ensures r.Success? && errors != [] ==>
      r.value.message == (if ReadPropertyError(errors[|errors| - 1]).value.NotUnderstood? then dump(all) else r.value.text)
    ensures r.Success? && NoneUnderstood(errors) ==> r.value.text == acc.text
    decreases |errors|
  {
    if |errors| == 0 then Success(acc)
    else
      var e :- ReadPropertyError(errors[0]);
      var next := match e
        case ValidProperties(values) =>
          var text := acc.text + " field valid properties include: " + JoinDumps(values, dump);
          Rendering(text, text)
        case NotUnderstood => acc.(message := dump(all));
      assert forall j :: 1 <= j < |errors| ==> errors[1..][j - 1] == errors[j];
      RenderPropertyErrors(errors[1..], all, dump, next)
  }

  predicate AllReadable(fields: seq<(string, Json.Json)>)
  {
    forall i :: 0 <= i < |fields| ==> Readable(Values(fields[i].1))
  }

  predicate NoPropertyErrors(fields: seq<(string, Json.Json)>)
  {
    forall i :: 0 <= i < |fields| ==> Values(fields[i].1) == []
  }

  predicate AllNotUnderstood(fields: seq<(string, Json.Json)>)
  {
    forall i :: 0 <= i < |fields| ==> NoneUnderstood(Values(fields[i].1))
  }

  /** Every field in turn: its quoted name joins the text, then its property
      errors are read. */
  function RenderFields(fields: seq<(string, Json.Json)>, all: Json.Json, dump: Json.Json -> string, acc: Rendering)
      : (r: Result<Rendering, WebSocketJson.Thrown>)
    ensures r.Success? <==> AllReadable(fields)
    ensures r.Success? ==> acc.text <= r.value.text
    ensures NoPropertyErrors(fields) ==> r.Success? && r.value.message == acc.message
    ensures r.Success? && AllNotUnderstood(fields) && !NoPropertyErrors(fields) ==> r.value.message == dump(all)
    decreases |fields|
  {
    if |fields| == 0 then Success(acc)
    else
      var named := acc.(text := acc.text + "\"" + fields[0].0 + "\"");
      var next :- RenderPropertyErrors(Values(fields[0].1), all, dump, named);
      assert forall i :: 1 <= i < |fields| ==> fields[1..][i - 1] == fields[i];
      RenderFields(fields[1..], all, dump, next)
  }

  /** The message of a VALIDATION_ERROR report: built from its "Errors"
      (null when absent), starting from the report's own "Message". */
  function ValidationMessage(errors: Json.Json, message: string, dump: Json.Json -> string)
      : (r: Result<string, WebSocketJson.Thrown>)
    ensures r.Success? <==> AllReadable(Json.Items(errors))
    ensures NoPropertyErrors(Json.Items(errors)) ==> r == Success(message)
    ensures r.Success? && AllNotUnderstood(Json.Items(errors)) && !NoPropertyErrors(Json.Items(errors)) ==>
      r.value == dump(errors)
  {
    var rendered :- RenderFields(Json.Items(errors), errors, dump, Rendering("", message));
    Success(rendered.message)
  }

  const ExampleValues: seq<Json.Json> := [Json.JStr("ACTIVE"), Json.JStr("INACTIVE")]
  const ExampleError: Json.Json := Json.JArr([ValidPropertiesTag, Json.JArr(ExampleValues)])
  const ExampleErrors: Json.Json := Json.JObj(map["Status" := Json.JArr([ExampleError])])

  lemma ExampleFields()
    ensures Json.Items(ExampleErrors) == [("Status", Json.JArr([ExampleError]))]
  {
    var items := Json.Items(ExampleErrors);
    assert |items| == 1 && items[0].0 in ExampleErrors.fields;
  }

  lemma ExampleRendering(message: string, dump: Json.Json -> string, text: string)
    requires text == "\"Status\"" + " field valid properties include: " + dump(ExampleValues[0]) + ", " + dump(ExampleValues[1])
    ensures RenderFields(Json.Items(ExampleErrors), ExampleErrors, dump, Rendering("", message)) == Success(Rendering(text, text))
  {
    ExampleFields();
    assert ReadPropertyError(ExampleError) == Success(ValidProperties(ExampleValues));
    assert JoinDumps(ExampleValues, dump) == dump(ExampleValues[0]) + ", " + dump(ExampleValues[1]) by {
      assert ExampleValues[..1] == [ExampleValues[0]];
    }
    assert Values(Json.JArr([ExampleError])) == [ExampleError];
    var named := Rendering("" + "\"" + "Status" + "\"", message);
    ExampleName();
    var t := named.text + " field valid properties include: " + JoinDumps(ExampleValues, dump);
    assert t == text by {
      Associate(named.text, " field valid properties include: ", dump(ExampleValues[0]), ", ", dump(ExampleValues[1]));
    }
    assert RenderPropertyErrors([ExampleError][1..], ExampleErrors, dump, Rendering(t, t)) == Success(Rendering(t, t)) by {
      assert [ExampleError][1..] == [];
    }
    assert RenderPropertyErrors([ExampleError], ExampleErrors, dump, named) == Success(Rendering(t, t));
    assert Json.Items(ExampleErrors)[1..] == [];
  }

  /** The report the source documents: one field whose only property error
      lists two valid values. */
  lemma ValidationMessageExample(message: string, dump: Json.Json -> string)
    ensures ValidationMessage(ExampleErrors, message, dump) ==
      Success("\"Status\" field valid properties include: " + dump(Json.JStr("ACTIVE")) + ", " + dump(Json.JStr("INACTIVE")))
  {
    var text := "\"Status\"" + " field valid properties include: " + dump(ExampleValues[0]) + ", " + dump(ExampleValues[1]);
    ExampleRendering(message, dump, text);
    assert ValidationMessage(ExampleErrors, message, dump) == Success(text);
    ExampleHeading();
  }

  lemma Associate(a: string, b: string, c: string, d: string, e: string)
    ensures a + b + (c + d + e) == a + b + c + d + e
  {
  }

  lemma ExampleName()
    ensures "" + "\"" + "Status" + "\"" == "\"Status\""
  {
  }

  lemma ExampleHeading()
    ensures "\"Status\"" + " field valid properties include: " == "\"Status\" field valid properties include: "
  {
  }

  /** A report's "Errors", read through a non-const `operator[]`: null when absent. */
  function ErrorsOf(body: Json.Json): Json.Json
  {
    if Json.Contains(body, "Errors") then Json.At(body, "Errors") else Json.JNull
  }

  /** The status of a completed call with a JSON body. An error report whose
      "Code" or "Message" is not a string throws; a known code decides the
      status, carrying the report's message, or for VALIDATION_ERROR the
      message built from its "Errors"; otherwise the HTTP code decides.
      `dump` is nlohmann's serialisation of a value. */
  function BodyStatus(httpCode: int, body: Json.Json, dump: Json.Json -> string): (r: Result<Status.CloudStatus, WebSocketJson.Thrown>)
    ensures r.Failure? <==>
      NamesError(body)
      && (!(Json.At(body, "Code").JStr? && Json.At(body, "Message").JStr?)
          || (Json.At(body, "Code").s == "VALIDATION_ERROR" && !AllReadable(Json.Items(ErrorsOf(body)))))
    ensures r.Success? && NamesError(body) && KnownCode(Json.At(body, "Code").s) ==>
      var code := Json.At(body, "Code").s;
      var message := Json.At(body, "Message").s;
      r.value.message == (if code == "VALIDATION_ERROR" then ValidationMessage(ErrorsOf(body), message, dump).value else message)
      && r.value.code == (if code == "BAD_REQUEST" then Status.BadRequest
                          else if code == "USER_ALREADY_EXISTS" then Status.RecordAlreadyExists
                          else if code == "VALIDATION_ERROR" then Status.ParameterValidationError
                          else Status.RecordNotFound)
    ensures r.Success? && !(NamesError(body) && KnownCode(Json.At(body, "Code").s)) ==> r.value == HttpStatus(httpCode)
  {
    if NamesError(body) then
      var code :- WebSocketJson.StringField(Some(body), "Code");
      var message :- WebSocketJson.StringField(Some(body), "Message");
      if code == "BAD_REQUEST" then Success(Status.WithMessage(Status.BadRequest, message))
      else if code == "USER_ALREADY_EXISTS" then Success(Status.WithMessage(Status.RecordAlreadyExists, message))
      else if code == "VALIDATION_ERROR" then
        var text :- ValidationMessage(ErrorsOf(body), message, dump);
        Success(Status.WithMessage(Status.ParameterValidationError, text))
      else if code == "NOT_FOUND" then Success(Status.WithMessage(Status.RecordNotFound, message))
      else Success(HttpStatus(httpCode))
    else
      Success(HttpStatus(httpCode))
  }

  /** The status of a call once the transfer is over. */
  function TransferStatus(transfer: Transfer, dump: Json.Json -> string): (r: Result<Status.CloudStatus, WebSocketJson.Thrown>)
    ensures transfer.NotStarted? ==>
      r == Success(Status.CloudStatus(Status.CurlError, "curl failed", CurleOutOfMemory, "Out of memory"))
    ensures transfer.TransferFailed? ==>
      r == Success(Status.CloudStatus(Status.InternalError, "Request failed", transfer.httpCode, transfer.error))
    ensures transfer.Completed? && transfer.body.None? ==>
      r == Success(Status.CloudStatus(Status.CurlError, "curl json failed", 0, "No error"))
    ensures transfer.Completed? && transfer.body.Some? ==>
      r == BodyStatus(transfer.httpCode, transfer.body.value, dump)
    ensures r.Success? && r.value.IsOk() ==> transfer.Completed? && transfer.httpCode == 200 && transfer.body.Some?
  {
    match transfer
    case NotStarted => Success(Status.CloudStatus(Status.CurlError, "curl failed", CurleOutOfMemory, "Out of memory"))
    case TransferFailed(_, httpCode, error) => Success(Status.CloudStatus(Status.InternalError, "Request failed", httpCode, error))
    case Completed(httpCode, body) =>
      if body.None? then Success(Status.CloudStatus(Status.CurlError, "curl json failed", 0, "No error"))
      else BodyStatus(httpCode, body.value, dump)
  }

  const ArgCountMismatch: Status.CloudStatus :=
    Status.WithMessage(Status.ParameterValidationError, "Expected urlArg count did not match")

  /** `performRESTCall`: a wrong number of URL arguments is refused before any
      request; otherwise the call goes to the URL built from the route, and
      `perform` says what the transfer to a URL did. */
  function PerformRESTCall(config: Config.CloudConfig, detail: WebService.WebServiceDetail, urlArgs: seq<string>,
                           query: string, perform: string -> Transfer, dump: Json.Json -> string)
      : (r: Result<Status.CloudStatus, WebSocketJson.Thrown>)
    requires WebService.Placeholders(detail.urlPath) == detail.urlArgCount
    ensures detail.urlArgCount != |urlArgs| ==> r == Success(ArgCountMismatch)
    ensures detail.urlArgCount == |urlArgs| ==>
      FormatPath(detail.urlPath, urlArgs).Some?
      && r == TransferStatus(perform(Url(config, FormatPath(detail.urlPath, urlArgs).value, query)), dump)
  {
    if detail.urlArgCount != |urlArgs| then Success(ArgCountMismatch)
    else
      var urlPath := FormatPath(detail.urlPath, urlArgs).value;
      TransferStatus(perform(Url(config, urlPath, query)), dump)
  }

  /** A route's own path has exactly as many `{}` as its argument count, so every
      route in the table meets `PerformRESTCall`'s requirement. */
  lemma RoutesFormat(r: WebService.Route)
    requires WebService.WellFormed(r)
    ensures WebService.Placeholders(WebService.Detail(r).urlPath) == WebService.Detail(r).urlArgCount
  {
    WebService.RenderPlaceholders(r.path);
  }

  /** How the query writes one filter entry. */
  function Mention(filter: map<string, string>, key: string): string
    requires key in filter
  {
    "&" + key + "=" + filter[key]
  }

  /** One filter criterion as the query writes it; the paging keys are skipped. */
  function Criterion(filter: map<string, string>, key: string): string
    requires key in filter
  {
    if key != "Limit" && key != "Offset" then Mention(filter, key) else ""
  }

  /** Every key of `ks` is a key of the filter. */
  predicate Keyed(filter: map<string, string>, ks: seq<string>)
  {
    forall i :: 0 <= i < |ks| ==> ks[i] in filter
  }

  /** The criteria for the keys `ks`, in that order. */
  function Criteria(filter: map<string, string>, ks: seq<string>): string
    requires Keyed(filter, ks)
  {
    if ks == [] then "" else Criteria(filter, ks[..|ks| - 1]) + Criterion(filter, ks[|ks| - 1])
  }

  lemma CriteriaSnoc(filter: map<string, string>, ks: seq<string>, i: nat)
    requires Keyed(filter, ks) && i < |ks|
    ensures Keyed(filter, ks[..i]) && Keyed(filter, ks[..i + 1])
    ensures Criteria(filter, ks[..i + 1]) == Criteria(filter, ks[..i]) + Criterion(filter, ks[i])
  {
    var prefix := ks[..i + 1];
    assert prefix[..i] == ks[..i] && prefix[i] == ks[i];
  }

  /** One more key extends the query by that key's criterion. */
  lemma QueryStep(paging: string, filter: map<string, string>, ks: seq<string>, i: nat)
    requires Keyed(filter, ks) && i < |ks|
    ensures Keyed(filter, ks[..i]) && Keyed(filter, ks[..i + 1])
    ensures ks[i] != "Limit" && ks[i] != "Offset" ==>
      paging + Criteria(filter, ks[..i + 1]) == paging + Criteria(filter, ks[..i]) + Mention(filter, ks[i])
    ensures ks[i] == "Limit" || ks[i] == "Offset" ==>
      paging + Criteria(filter, ks[..i + 1]) == paging + Criteria(filter, ks[..i])
  {
    CriteriaSnoc(filter, ks, i);
    Text.Associative(paging, Criteria(filter, ks[..i]), Criterion(filter, ks[i]));
  }

  /** The paging part every list query starts with. */
  function Paging(offset: Text.U16, limit: Text.U16): string
  {
    "Offset=" + Text.NatToString(offset) + "&Limit=" + Text.NatToString(limit)
  }

  /** The query of a filtered list: paging first, then the filter in key order. */
  function FilterQuery(filter: Option<map<string, string>>, offset: Text.U16, limit: Text.U16): string
  {
    match filter
    case None => Paging(offset, limit)
    case Some(m) => Paging(offset, limit) + Criteria(m, KeyOrder(m))
  }

  /** The order a `std::map<std::string, std::string>` visits its keys. */
  function KeyOrder(m: map<string, string>): (ks: seq<string>)
    ensures Keyed(m, ks)
    ensures forall k :: k in m ==> k in ks
  {
    OrderedKeys.SortedKeys(m)
  }

  /** `buildListFilterQuery`. */
  method BuildListFilterQuery(filter: Option<map<string, string>>, offset: Text.U16, limit: Text.U16) returns (q: string)
    ensures q == FilterQuery(filter, offset, limit)
  {
    q := Paging(offset, limit);
    if filter.Some? {
      var ks := KeyOrder(filter.value);
      q := AppendCriteria(q, filter.value, ks);
    }
  }

  /** The loop of `buildListFilterQuery`: each key's criterion, in order, after `paging`. */
  method AppendCriteria(paging: string, filter: map<string, string>, ks: seq<string>) returns (q: string)
    requires Keyed(filter, ks)
    ensures q == paging + Criteria(filter, ks)
  {
    q := paging;
    var i := 0;
    while i < |ks|
      invariant 0 <= i <= |ks|
      invariant q == paging + Criteria(filter, ks[..i])
    {
      QueryStep(paging, filter, ks, i);
      if ks[i] != "Limit" && ks[i] != "Offset" {
        q := q + Mention(filter, ks[i]);
      }
      i := i + 1;
    }
    assert ks[..|ks|] == ks;
  }

  /** The criteria of two runs of keys, one after the other, are the two
      criteria texts joined. */
  lemma {:induction false} CriteriaAppend(filter: map<string, string>, a: seq<string>, b: seq<string>)
    requires Keyed(filter, a) && Keyed(filter, b)
    ensures Keyed(filter, a + b)
    ensures Criteria(filter, a + b) == Criteria(filter, a) + Criteria(filter, b)
  {
    if b != [] {
      var init := b[..|b| - 1];
      assert (a + b)[..|a + b| - 1] == a + init;
      assert (a + b)[|a + b| - 1] == b[|b| - 1];
      CriteriaAppend(filter, a, init);
      Text.Associative(Criteria(filter, a), Criteria(filter, init), Criterion(filter, b[|b| - 1]));
    } else {
      assert a + b == a;
    }
  }

  /** A key other than the paging keys is written, with its value, between
      the criteria of the keys before it and those of the keys after it. */
  lemma CriteriaMention(filter: map<string, string>, ks: seq<string>, j: nat)
    requires Keyed(filter, ks)
    requires j < |ks| && ks[j] != "Limit" && ks[j] != "Offset"
    ensures Keyed(filter, ks[..j]) && Keyed(filter, ks[j + 1..])
    ensures Criteria(filter, ks) == Criteria(filter, ks[..j]) + Mention(filter, ks[j]) + Criteria(filter, ks[j + 1..])
  {
    var front, back := ks[..j + 1], ks[j + 1..];
    assert ks == front + back;
    CriteriaAppend(filter, front, back);
    CriteriaSnoc(filter, ks, j);
  }

  /** Criteria made only of the paging keys add nothing. */
  lemma {:induction false} CriteriaOnlyPaging(filter: map<string, string>, ks: seq<string>)
    requires Keyed(filter, ks)
    requires forall i :: 0 <= i < |ks| ==> ks[i] == "Limit" || ks[i] == "Offset"
    ensures Criteria(filter, ks) == ""
  {
    if ks != [] {
      var init := ks[..|ks| - 1];
      assert forall i :: 0 <= i < |init| ==> init[i] == ks[i];
      CriteriaOnlyPaging(filter, init);
    }
  }

  /** The list query names every filter key except "Limit" and "Offset", with its value. */
  lemma FilterQueryMentions(filter: map<string, string>, offset: Text.U16, limit: Text.U16, key: string)
    requires key in filter && key != "Limit" && key != "Offset"
    ensures exists before, after :: FilterQuery(Some(filter), offset, limit) == before + Mention(filter, key) + after
  {
    var ks := KeyOrder(filter);
    assert key in ks;
    var j :| 0 <= j < |ks| && ks[j] == key;
    CriteriaMention(filter, ks, j);
    var paging := Paging(offset, limit);
    var before, after := Criteria(filter, ks[..j]), Criteria(filter, ks[j + 1..]);
    var mention := Mention(filter, key);
    Text.Associative(paging, before + mention, after);
    Text.Associative(paging, before, mention);
    assert FilterQuery(Some(filter), offset, limit) == (paging + before) + mention + after;
  }

  /** A filter holding only paging keys adds nothing to the paging: the caller cannot override it. */
  lemma FilterQueryPagingOnly(filter: map<string, string>, offset: Text.U16, limit: Text.U16)
    requires forall k :: k in filter ==> k == "Limit" || k == "Offset"
    ensures FilterQuery(Some(filter), offset, limit) == FilterQuery(None, offset, limit)
  {
    var ks := KeyOrder(filter);
    CriteriaOnlyPaging(filter, ks);
  }
}
