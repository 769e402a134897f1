/** The pure parts of the gRPC transport (api-cpp-grpc/src/CloudGRPC.cpp):
    turning a `grpc::Status` into a `CloudStatus`, naming gRPC codes, the
    server address, the call deadline and the device type guessed from the
    platform name. The RPCs themselves are not part of this model. */
module CloudGRPC {
  import opened Wrappers
  import Text
  import Status
  import Config
  import CloudValidator

  // ---------------------------------------------------------------------------
  // gRPC status codes

  /** The values of `grpc::StatusCode`. A status carries one of these as a
      plain integer, so any other integer can arrive too. */
  const GrpcOk := 0
  const GrpcCancelled := 1
  const GrpcUnknown := 2
  const GrpcInvalidArgument := 3
  const GrpcDeadlineExceeded := 4
  const GrpcNotFound := 5
  const GrpcAlreadyExists := 6
  const GrpcPermissionDenied := 7
  const GrpcResourceExhausted := 8
  const GrpcFailedPrecondition := 9
  const GrpcAborted := 10
  const GrpcOutOfRange := 11
  const GrpcUnimplemented := 12
  const GrpcInternal := 13
  const GrpcUnavailable := 14
  const GrpcDataLoss := 15
  const GrpcUnauthenticated := 16
  const GrpcDoNotUse := -1

  /** The codes the enum declares. */
  predicate Declared(code: int)
  {
    -1 <= code <= 16
  }

  /** `grpcCodeToString`: the enumerator's name, or "INVALID_CODE". */
  function CodeName(code: int): (r: string)
    ensures r == "INVALID_CODE" <==> !Declared(code)
  {
    if code == GrpcOk then "OK"
    else if code == GrpcCancelled then "CANCELLED"
    else if code == GrpcUnknown then "UNKNOWN"
    else if code == GrpcInvalidArgument then "INVALID_ARGUMENT"
    else if code == GrpcDeadlineExceeded then "DEADLINE_EXCEEDED"
    else if code == GrpcNotFound then "NOT_FOUND"
    else if code == GrpcAlreadyExists then "ALREADY_EXISTS"
    else if code == GrpcPermissionDenied then "PERMISSION_DENIED"
    else if code == GrpcUnauthenticated then "UNAUTHENTICATED"
    else if code == GrpcResourceExhausted then "RESOURCE_EXHAUSTED"
    else if code == GrpcFailedPrecondition then "FAILED_PRECONDITION"
    else if code == GrpcAborted then "ABORTED"
    else if code == GrpcOutOfRange then "OUT_OF_RANGE"
    else if code == GrpcUnimplemented then "UNIMPLEMENTED"
    else if code == GrpcInternal then "INTERNAL"
    else if code == GrpcUnavailable then "UNAVAILABLE"
    else if code == GrpcDataLoss then "DATA_LOSS"
    else if code == GrpcDoNotUse then "DO_NOT_USE"
    else "INVALID_CODE"
  }

  /** Reading a name back: the inverse of `CodeName` on the declared codes. */
  function CodeOfName(name: string): Option<int>
  {
    if name == "OK" then Some(GrpcOk)
    else if name == "CANCELLED" then Some(GrpcCancelled)
    else if name == "UNKNOWN" then Some(GrpcUnknown)
    else if name == "INVALID_ARGUMENT" then Some(GrpcInvalidArgument)
    else if name == "DEADLINE_EXCEEDED" then Some(GrpcDeadlineExceeded)
    else if name == "NOT_FOUND" then Some(GrpcNotFound)
    else if name == "ALREADY_EXISTS" then Some(GrpcAlreadyExists)
    else if name == "PERMISSION_DENIED" then Some(GrpcPermissionDenied)
    else if name == "UNAUTHENTICATED" then Some(GrpcUnauthenticated)
    else if name == "RESOURCE_EXHAUSTED" then Some(GrpcResourceExhausted)
    else if name == "FAILED_PRECONDITION" then Some(GrpcFailedPrecondition)
    else if name == "ABORTED" then Some(GrpcAborted)
    else if name == "OUT_OF_RANGE" then Some(GrpcOutOfRange)
    else if name == "UNIMPLEMENTED" then Some(GrpcUnimplemented)
    else if name == "INTERNAL" then Some(GrpcInternal)
    else if name == "UNAVAILABLE" then Some(GrpcUnavailable)
    else if name == "DATA_LOSS" then Some(GrpcDataLoss)
    else if name == "DO_NOT_USE" then Some(GrpcDoNotUse)
    else None
  }

  /** Every declared code has its own name: reading it back gives the code. */
  lemma CodeNameRoundTrip(code: int)
    ensures Declared(code) ==> CodeOfName(CodeName(code)) == Some(code)
    ensures !Declared(code) ==> CodeOfName(CodeName(code)) == None
  {
  }

  // ---------------------------------------------------------------------------
  // Finding text

  /** `pat` is found in `s` starting at `i`. */
  predicate OccursAt(s: string, pat: string, i: nat)
  {
    i + |pat| <= |s| && s[i..i + |pat|] == pat
  }

  /** `std::string::find(pat, from)`: the first occurrence at or after `from`. */
  function FindFrom(s: string, pat: string, from: nat): (r: Option<nat>)
    decreases |s| - from
    ensures r.Some? ==> from <= r.value && OccursAt(s, pat, r.value)
    ensures r.Some? ==> forall k: nat :: from <= k < r.value ==> !OccursAt(s, pat, k)
    ensures r.None? ==> forall k: nat :: from <= k ==> !OccursAt(s, pat, k)
  {
    if from + |pat| > |s| then None
    else if s[from..from + |pat|] == pat then Some(from)
    else FindFrom(s, pat, from + 1)
  }

  function Find(s: string, pat: string): (r: Option<nat>)
    ensures r.Some? ==> OccursAt(s, pat, r.value) && forall k: nat :: k < r.value ==> !OccursAt(s, pat, k)
    ensures r.None? <==> forall k: nat :: !OccursAt(s, pat, k)
  {
    FindFrom(s, pat, 0)
  }

  /** The first occurrence is unique: any occurrence with none before it is it. */
  lemma FindIs(s: string, pat: string, i: nat)
    requires OccursAt(s, pat, i)
    requires forall k: nat :: k < i ==> !OccursAt(s, pat, k)
    ensures Find(s, pat) == Some(i)
  {
  }

  // ---------------------------------------------------------------------------
  // translateGrpcStatus

  const ErrorCodeMarker := "dfx-error-code: "
  const MessageMarker := ", message: "

  /** The message `translateGrpcStatus` keeps: when the server wrote
      "dfx-error-code: <code>, message: <text>", the text, or the code when the
      text is empty; otherwise the gRPC message unchanged. */
  function ErrorText(errorMessage: string): (r: string)
    ensures Find(errorMessage, ErrorCodeMarker).None? ==> r == errorMessage
    ensures Find(errorMessage, ErrorCodeMarker).Some? &&
            Find(errorMessage[Find(errorMessage, ErrorCodeMarker).value + |ErrorCodeMarker|..], MessageMarker).None?
            ==> r == errorMessage
    ensures r == errorMessage || |r| < |errorMessage|
  {
    match Find(errorMessage, ErrorCodeMarker)
    case None => errorMessage
    case Some(i) =>
      var withCode := errorMessage[i + |ErrorCodeMarker|..];
      match Find(withCode, MessageMarker)
      case None => errorMessage
      case Some(j) =>
        var message := withCode[j + |MessageMarker|..];
        var code := withCode[..j];
        if message != "" then message else code
  }

  /** No earlier start of the marker can overlap its occurrence right after
      `prefix`: the marker has no border ('d' recurs only at index 12, which
      is followed by 'e', not 'f'). */
  lemma ErrorCodeMarkerFirst(prefix: string, rest: string)
    requires forall k: nat :: !OccursAt(prefix, ErrorCodeMarker, k)
    ensures Find(prefix + ErrorCodeMarker + rest, ErrorCodeMarker) == Some(|prefix|)
  {
    var s := prefix + ErrorCodeMarker + rest;
    var n := |prefix|;
    assert s[n..n + |ErrorCodeMarker|] == ErrorCodeMarker;
    forall k: nat | k < n
      ensures !OccursAt(s, ErrorCodeMarker, k)
    {
      if k + |ErrorCodeMarker| <= n {
        assert prefix[k..k + |ErrorCodeMarker|] == s[k..k + |ErrorCodeMarker|];
        assert !OccursAt(prefix, ErrorCodeMarker, k);
      } else if k + |ErrorCodeMarker| <= |s| {
        var t := n - k;
        assert s[n] == 'd' && s[n + 1] == 'f';
        if t == 12 {
          assert s[k..k + |ErrorCodeMarker|][t + 1] == s[n + 1] != ErrorCodeMarker[t + 1];
        } else {
          assert s[k..k + |ErrorCodeMarker|][t] == s[n] != ErrorCodeMarker[t];
        }
      }
    }
    FindIs(s, ErrorCodeMarker, n);
  }

  /** The same for ", message: ", whose ',' occurs only at its start. */
  lemma MessageMarkerFirst(code: string, rest: string)
    requires forall k: nat :: !OccursAt(code, MessageMarker, k)
    ensures Find(code + MessageMarker + rest, MessageMarker) == Some(|code|)
  {
    var s := code + MessageMarker + rest;
    var n := |code|;
    assert s[n..n + |MessageMarker|] == MessageMarker;
    forall k: nat | k < n
      ensures !OccursAt(s, MessageMarker, k)
    {
      if k + |MessageMarker| <= n {
        assert code[k..k + |MessageMarker|] == s[k..k + |MessageMarker|];
        assert !OccursAt(code, MessageMarker, k);
      } else if k + |MessageMarker| <= |s| {
        var t := n - k;
        assert s[n] == ',' && MessageMarker[t] != ',';
        assert s[k..k + |MessageMarker|][t] == s[n];
      }
    }
    FindIs(s, MessageMarker, n);
  }

  /** The server's composed message is taken apart again: whatever precedes
      the marker is dropped, and the text after ", message: " is kept, or the
      code when that text is empty. */
  lemma ComposedErrorText(prefix: string, code: string, message: string)
    requires forall k: nat :: !OccursAt(prefix, ErrorCodeMarker, k)
    requires forall k: nat :: !OccursAt(code, MessageMarker, k)
    ensures ErrorText(prefix + ErrorCodeMarker + code + MessageMarker + message)
         == if message != "" then message else code
  {
    var s := prefix + ErrorCodeMarker + code + MessageMarker + message;
    assert s == prefix + ErrorCodeMarker + (code + MessageMarker + message);
    ErrorCodeMarkerFirst(prefix, code + MessageMarker + message);
    var withCode := s[|prefix| + |ErrorCodeMarker|..];
    assert withCode == code + MessageMarker + message;
    MessageMarkerFirst(code, message);
    assert withCode[|code| + |MessageMarker|..] == message;
    assert withCode[..|code|] == code;
  }

  /** The `CloudStatus` code a gRPC code translates to. */
  function CloudCode(code: int): (r: Status.Code)
    ensures r == Status.Ok <==> code == GrpcOk
    ensures r == Status.BadRequest <==> code == GrpcInvalidArgument
    ensures r == Status.RecordNotFound <==> code == GrpcNotFound
    ensures r == Status.UnimplementedFeature <==> code == GrpcUnimplemented
    ensures r == Status.UserNotAuthenticated <==> code == GrpcUnauthenticated
    ensures r == Status.ParameterValidationError <==> code == GrpcFailedPrecondition
    ensures r == Status.RecordAlreadyExists <==> code == GrpcAlreadyExists
    ensures r == Status.TransportFailure <==> code !in Translated
  {
    if code == GrpcOk then Status.Ok
    else if code == GrpcInvalidArgument then Status.BadRequest
    else if code == GrpcNotFound then Status.RecordNotFound
    else if code == GrpcUnimplemented then Status.UnimplementedFeature
    else if code == GrpcUnauthenticated then Status.UserNotAuthenticated
    else if code == GrpcFailedPrecondition then Status.ParameterValidationError
    else if code == GrpcAlreadyExists then Status.RecordAlreadyExists
    else Status.TransportFailure
  }

  /** The seven gRPC codes with a code of their own. */
  const Translated: set<int> :=
    {GrpcOk, GrpcInvalidArgument, GrpcNotFound, GrpcUnimplemented,
     GrpcUnauthenticated, GrpcFailedPrecondition, GrpcAlreadyExists}

  /** `translateGrpcStatus`: the translated code and extracted message, with
      the original gRPC code and message kept as the protocol error. */
  function TranslateStatus(code: int, errorMessage: string): (r: Status.CloudStatus)
    ensures r.IsOk() <==> code == GrpcOk
    ensures r.code == Status.TransportFailure <==> code !in Translated
    ensures r.protocolCode == code && r.protocolMessage == errorMessage
    ensures Find(errorMessage, ErrorCodeMarker).None? ==> r.message == errorMessage
  {
    Status.CloudStatus(CloudCode(code), ErrorText(errorMessage), code, errorMessage)
  }

  /** Two gRPC codes with codes of their own never translate alike. */
  lemma TranslationDistinguishes(a: int, b: int, ma: string, mb: string)
    requires a in Translated && b in Translated && a != b
    ensures TranslateStatus(a, ma).code != TranslateStatus(b, mb).code
  {
  }

  // ---------------------------------------------------------------------------
  // Client context and addresses

  /** `CloudGRPC::connect`: only the validator. */
  function Connect(config: Config.CloudConfig): (r: Status.CloudStatus)
    ensures r.IsOk() <==> config.serverHost != ""
    ensures !r.IsOk() ==> r == CloudValidator.Connect(config)
    ensures r.IsOk() ==> r == Status.Of(Status.Ok)
  {
    var v := CloudValidator.Connect(config);
    if !v.IsOk() then v else Status.Of(Status.Ok)
  }

  /** `getServerURL`: "host:port". */
  function ServerURL(hostname: string, port: int): (r: string)
    ensures |r| > |hostname| && r[..|hostname|] == hostname && r[|hostname|] == ':'
  {
    hostname + ":" + Text.IntToString(port)
  }

  /** The port is read back from the address. */
  lemma ServerURLPort(hostname: string, port: int)
    requires Text.IntMin <= port <= Text.IntMax
    ensures var tail := ServerURL(hostname, port)[|hostname| + 1..];
            Text.Stoi(tail) == Text.Parsed(port, |tail|)
  {
    assert ServerURL(hostname, port)[|hostname| + 1..] == Text.IntToString(port);
    Text.ParseIntToString(port, Text.IntMin, Text.IntMax);
  }

  /** `gpr_timespec` for the deadline. */
  datatype Timespan = Timespan(seconds: int, nanos: int)

  /** `setDeadlineClientContext`: the seconds, and the nanoseconds computed
      from the remainder through a `uint16_t` cast of `seconds * 1000`. */
  function Deadline(timeoutMillis: Text.U16): (r: Timespan)
    ensures r.seconds * 1_000_000_000 + r.nanos == timeoutMillis * 1_000_000
    ensures 0 <= r.nanos < 1_000_000_000 && r.nanos % 1_000_000 == 0
  {
    var seconds := timeoutMillis / 1000;
    Timespan(seconds, (timeoutMillis - Text.ToUint16(seconds * 1000)) * 1_000_000)
  }

  /** The client context a call starts from: the bearer token when there is
      one (`setAuthTokenClientContext`) and the deadline. */
  datatype ClientContext = ClientContext(metadata: seq<(string, string)>, deadline: Timespan)

  function InitializeContext(config: Config.CloudConfig, token: string): (r: ClientContext)
    ensures r.metadata == [] <==> token == ""
    ensures token != "" ==> r.metadata == [("authorization", "Bearer " + token)]
    ensures r.deadline.seconds * 1000 <= config.timeoutMillis < (r.deadline.seconds + 1) * 1000
  {
    ClientContext(if |token| > 0 then [("authorization", "Bearer " + token)] else [],
                  Deadline(config.timeoutMillis))
  }

  // ---------------------------------------------------------------------------
  // Device type for login

  /** The `dfx::devices::v2::Type` values `login` chooses from. */
  datatype DeviceType = Win32Deprecated | Linux | Darwin | IPhone | AndroidPhone | UnknownDeviceType

  predicate StartsWith(s: string, prefix: string)
  {
    |prefix| <= |s| && s[..|prefix|] == prefix
  }

  /** The device type guessed from the platform name's prefix. */
  function PlatformDeviceType(platform: string): (r: DeviceType)
    ensures r == Win32Deprecated <==> StartsWith(platform, "Windows")
    ensures r == Linux <==> StartsWith(platform, "Linux")
    ensures r == Darwin <==> StartsWith(platform, "Mac")
    ensures r == IPhone <==> StartsWith(platform, "iOS")
    ensures r == AndroidPhone <==> StartsWith(platform, "Android")
    ensures r == UnknownDeviceType <==>
      !StartsWith(platform, "Windows") && !StartsWith(platform, "Linux") && !StartsWith(platform, "Mac")
      && !StartsWith(platform, "iOS") && !StartsWith(platform, "Android")
  {
    assert StartsWith(platform, "Windows") ==> platform[0] == "Windows"[0];
    assert StartsWith(platform, "Linux") ==> platform[0] == "Linux"[0];
    assert StartsWith(platform, "Mac") ==> platform[0] == "Mac"[0];
    assert StartsWith(platform, "iOS") ==> platform[0] == "iOS"[0];
    assert StartsWith(platform, "Android") ==> platform[0] == "Android"[0];
    if StartsWith(platform, "Windows") then Win32Deprecated
    else if StartsWith(platform, "Linux") then Linux
    else if StartsWith(platform, "Mac") then Darwin
    else if StartsWith(platform, "iOS") then IPhone
    else if StartsWith(platform, "Android") then AndroidPhone
    else UnknownDeviceType
  }
}
