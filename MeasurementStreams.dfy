/** What the four measurement-stream transports share: the checks every
    `setupStream` makes before talking to the server, the stream's fixed
    request ID, the `Resolution` property, the chunk number read back from a
    `MeasurementDataID`, and the body of a failed stream reply. */
module MeasurementStreams {
  import opened Wrappers
  import Text
  import Status
  import Config
  import Framing
  import ValidatorMacros
  import API = MeasurementStreamAPI

  /** The C++ exceptions the stream code can let escape: nlohmann's
      `type_error` and the two that `std::stoi` throws. */
  datatype Exception = TypeError | InvalidArgument | OutOfRange

  /** `CreateProperty`, the keys of `setupStream`'s property map. */
  datatype CreateProperty = UserProfileID | PartnerID | Resolution | DeviceVersion | Notes | Mode

  // ---------------------------------------------------------------------------
  // setupStream

  const AlreadyCreated: Status.CloudStatus :=
    Status.WithMessage(Status.ParameterValidationError, "stream already created, must call reset before reuse")

  /** The early returns of `setupStream`, in the order the source checks them:
      an open stream, then an empty study ID, device token and (for the
      transports that need one) user token. */
  function SetupGuard(open: bool, studyID: string, config: Config.CloudConfig, checkAuthToken: bool)
    : (r: Option<Status.CloudStatus>)
    ensures r.None? <==> !open && studyID != "" && config.deviceToken != ""
                         && (checkAuthToken ==> config.authToken != "")
    ensures open ==> r == Some(AlreadyCreated)
    ensures r.Some? ==> r.value.code == Status.ParameterValidationError && !r.value.IsOk()
    ensures !open && studyID == "" ==> r == Some(ValidatorMacros.EmptyError("studyID"))
    ensures !open && studyID != "" && config.deviceToken == "" ==> r == Some(ValidatorMacros.EmptyError("config.deviceToken"))
  {
    if open then Some(AlreadyCreated)
    else if studyID == "" then Some(ValidatorMacros.EmptyError("studyID"))
    else if config.deviceToken == "" then Some(ValidatorMacros.EmptyError("config.deviceToken"))
    else if checkAuthToken && config.authToken == "" then Some(ValidatorMacros.EmptyError("config.userToken"))
    else None
  }

  /** `fmt::format("STRM{:06}", 1010)`. */
  const StreamRequestID: string := "STRM" + Text.DecimalPadded(1010, 6)

  /** The stream's request ID has the ten characters of any request ID and
      starts with "STRM", so the connection routes its replies to the stream. */
  lemma StreamRequestIDRoutes()
    ensures StreamRequestID == "STRM001010"
    ensures |StreamRequestID| == Framing.RequestIDLength
    ensures Framing.IsStreamID(StreamRequestID)
  {
    assert Text.DecimalPadded(1010, 6) == "001010" by {
      Text.DecimalPaddedRoundTrip(1010, 6);
    }
    var id := StreamRequestID;
    assert id == "STRM001010";
    forall j | 0 < j
      ensures !Framing.OccursAt(id, "STRM", j)
    {
      if j + 4 <= |id| {
        assert id[j..j + 4][3] == id[j + 3];
      }
    }
    assert id[0..4] == "STRM";
    Framing.StreamIDMeaning(id);
  }

  /** The `Resolution` property: the integer `std::stoi` reads (0 when it
      throws), with any positive value sent as 100. */
  function ResolutionValue(text: string): (r: int)
    ensures r == 100 <==> Text.Stoi(text).Parsed? && Text.Stoi(text).value > 0
    ensures Text.Stoi(text).Parsed? && Text.Stoi(text).value <= 0 ==> r == Text.Stoi(text).value
    ensures !Text.Stoi(text).Parsed? ==> r == 0
  {
    var parsed := match Text.Stoi(text) case Parsed(v, _) => v case _ => 0;
    if parsed > 0 then 100 else parsed
  }

  // ---------------------------------------------------------------------------
  // sendChunk

  /** The actions a data request can carry. */
  const FirstProcess := "FIRST::PROCESS"
  const ChunkProcess := "CHUNK::PROCESS"
  const LastProcess := "LAST::PROCESS"

  /** What `sendChunk` hands to the transport: the measurement, the action and
      the chunk. */
  datatype DataRequest = DataRequest(measurementID: string, action: string, payload: seq<int>)

  // ---------------------------------------------------------------------------
  // Stream replies

  /** The chunk number of a reply: whatever `std::stoi` reads after the first
      `|measurementID| + 1` characters of the `MeasurementDataID` (expected to
      be "<measurementID>:<n>"), or 0 when the ID is not longer than that. */
  function ChunkNumber(measurementDataID: string, measurementID: string): (r: Result<int, Exception>)
    ensures |measurementDataID| <= |measurementID| + 1 ==> r == Success(0)
    ensures r.Success? ==> Text.IntMin <= r.value <= Text.IntMax
    ensures r.Failure? ==> r.error != TypeError
  {
    if |measurementDataID| > |measurementID| + 1 then
      match Text.Stoi(measurementDataID[|measurementID| + 1..])
      case Parsed(v, _) => Success(v)
      case InvalidArgument => Failure(InvalidArgument)
      case OutOfRange => Failure(OutOfRange)
    else Success(0)
  }

  /** The server's "<measurementID>:<n>" gives back `n`. */
  lemma ChunkNumberRoundTrip(measurementID: string, n: nat)
    requires n <= Text.IntMax
    ensures ChunkNumber(measurementID + ":" + Text.IntToString(n), measurementID) == Success(n)
  {
    var dataID := measurementID + ":" + Text.IntToString(n);
    Text.ParseIntToString(n, Text.IntMin, Text.IntMax);
    assert dataID[|measurementID| + 1..] == Text.IntToString(n);
  }

  /** How a stream closes a measurement whose 200 reply does not decode. */
  const DecodeFailed: Status.CloudStatus :=
    Status.WithMessage(Status.InternalError, "WEB: Response decode failed")

  /** The body of a stream reply: everything after the request ID and status. */
  function ReplyBody(message: string): (r: string)
    requires |message| >= Framing.PayloadOffset
    ensures |r| == |message| - Framing.PayloadOffset
  {
    message[Framing.PayloadOffset..]
  }

  /** A framed reply's body is its payload. */
  lemma ReplyBodyRoundTrip(requestID: string, status: string, payload: string)
    requires |requestID| == Framing.RequestIDLength && |status| == Framing.StatusLength
    ensures ReplyBody(Framing.ResponseFrame(requestID, status, payload)) == payload
  {
    Framing.ResponseRoundTrip(requestID, status, payload);
    assert Framing.ResponseFrame(requestID, status, payload)[Framing.PayloadOffset..] == payload;
  }

  /** The bytes the protobuf stream transports hand to `decodeWebSocketError`
      as written: the range ends at `messageSize - 13` rather than at the end
      of the message, which is only a valid range for 26 bytes or more. */
  function ErrorBodyAsWritten(message: string): (r: string)
    requires |message| >= 2 * Framing.PayloadOffset
    ensures |r| == |message| - 2 * Framing.PayloadOffset
    ensures r + message[|message| - Framing.PayloadOffset..] == message[Framing.PayloadOffset..]
  {
    message[Framing.PayloadOffset..|message| - Framing.PayloadOffset]
  }

  /** As written, the last 13 bytes of a failed reply's payload are never
      decoded. */
  lemma ErrorBodyDropsTail(requestID: string, status: string, payload: string)
    requires |requestID| == Framing.RequestIDLength && |status| == Framing.StatusLength
    requires |payload| >= Framing.PayloadOffset
    ensures ErrorBodyAsWritten(Framing.ResponseFrame(requestID, status, payload))
         == payload[..|payload| - Framing.PayloadOffset]
    ensures ErrorBodyAsWritten(Framing.ResponseFrame(requestID, status, payload)) != payload
  {
    var m := Framing.ResponseFrame(requestID, status, payload);
    Framing.ResponseRoundTrip(requestID, status, payload);
    assert m[Framing.PayloadOffset..] == payload;
    assert m[Framing.PayloadOffset..|m| - Framing.PayloadOffset]
        == m[Framing.PayloadOffset..][..|payload| - Framing.PayloadOffset];
  }

  // ---------------------------------------------------------------------------
  // Replies of the two protobuf transports

  /** `SubscribeResultsResponse.Channel`. */
  datatype ChannelMsg = ChannelMsg(data: seq<int>, channel: string)

  /** The `Error` of a reply, with what `DebugString()` prints for it. */
  datatype ReplyError = ReplyError(code: string, debugString: string)

  /** A decoded `SubscribeResultsResponse`; `multiplier` is a `uint32`. */
  datatype SubscribeResults = SubscribeResults(
    measurementID: string,
    measurementDataID: string,
    multiplier: nat,
    channels: map<string, ChannelMsg>,
    error: Option<ReplyError>)

  /** The warning a reply carries: one for an `Error` whose code is not
      "OK", none otherwise. */
  function ProtoWarning(reply: SubscribeResults): (r: Option<API.MeasurementWarning>)
    ensures r.Some? <==> reply.error.Some? && reply.error.value.code != "OK"
    ensures r.Some? ==> r.value == API.MeasurementWarning(-1, reply.error.value.debugString, 0)
  {
    match reply.error
    case Some(e) => if e.code != "OK" then Some(API.MeasurementWarning(-1, e.debugString, 0)) else None
    case None => None
  }

  /** The multiplier the samples are divided by: a zero multiplier counts
      as 1, so the divisor is never zero. */
  function Divisor(multiplier: nat): (r: nat)
    ensures r >= 1
    ensures multiplier != 0 ==> r == multiplier
  {
    if multiplier == 0 then 1 else multiplier
  }

  /** Each channel's samples, each converted by `sample` with the divisor,
      under the signal's name. */
  function ProtoSignals(channels: map<string, ChannelMsg>, divisor: nat, sample: (int, int) -> real)
    : (r: map<string, seq<real>>)
    ensures r.Keys == channels.Keys
    ensures forall k :: k in r ==> |r[k]| == |channels[k].data|
    ensures forall k, i :: k in r && 0 <= i < |r[k]| ==> r[k][i] == sample(channels[k].data[i], divisor)
  {
    map k | k in channels :: seq(|channels[k].data|, i requires 0 <= i < |channels[k].data| => sample(channels[k].data[i], divisor))
  }

  /** The result a reply carries, read with the ID the stream has by then;
      only the chunk number can throw. */
  function ProtoResult(reply: SubscribeResults, measurementID: string, sample: (int, int) -> real)
    : (r: Result<API.MeasurementResult, Exception>)
    ensures r.Success? <==> ChunkNumber(reply.measurementDataID, measurementID).Success?
    ensures r.Success? ==> r.value.faceID == "1" && r.value.signalData.Keys == reply.channels.Keys
    ensures r.Success? ==> r.value.chunkOrder == Text.ToUint64(ChunkNumber(reply.measurementDataID, measurementID).value)
  {
    var chunk :- ChunkNumber(reply.measurementDataID, measurementID);
    Success(API.MeasurementResult(Text.ToUint64(chunk), "1", ProtoSignals(reply.channels, Divisor(reply.multiplier), sample), 0, 0))
  }

  /** The ID a reply hands over: a non-empty one, while the stream has none. */
  function ProtoNewID(reply: SubscribeResults, measurementID: string): (r: Option<string>)
    ensures r.Some? <==> reply.measurementID != "" && measurementID == ""
    ensures r.Some? ==> r.value == reply.measurementID
  {
    if reply.measurementID != "" && measurementID == "" then Some(reply.measurementID) else None
  }
}
