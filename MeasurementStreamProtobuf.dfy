/** The measurement stream of the protobuf-over-WebSocket client library
    (api-cpp-websocket-protobuf/src/MeasurementStreamWebSocketProtobuf.cpp).
    It reads replies exactly as `MeasurementStreamWebSocket` does; it differs
    in the properties of the create request and in reporting a failed send.

    Transport calls are replaced by their outcomes, given as parameters; the
    protobuf parser of a reply body, the parser of an error body (its field
    names, as `decodeWebSocketError` reads them) and the float arithmetic on
    samples are function parameters. */
module MeasurementStreamProtobuf {
  import opened Wrappers
  import Text
  import Status
  import Config
  import Framing
  import WebSocketConnection
  import WebSocketProto
  import WS = MeasurementStreamWebSocket
  import API = MeasurementStreamAPI
  import opened MeasurementStreams

  /** `CreateRequest` as the transport fills it; proto3 leaves an unset
      string empty and an unset integer 0. */
  datatype CreateRequestMsg = CreateRequestMsg(
    studyID: string, userProfileID: string, deviceVersion: string, notes: string,
    mode: string, partnerID: string, resolution: int)

  /** A property's value, or the empty string a field left unset holds. */
  function Property(properties: map<CreateProperty, string>, key: CreateProperty): string
  {
    if key in properties then properties[key] else ""
  }

  /** The create request: the `Mode` property must be "STREAMING" (sent) or
      empty (not sent); any other value is refused before anything is sent. */
  function CreateRequest(studyID: string, properties: map<CreateProperty, string>): (r: Result<CreateRequestMsg, Status.CloudStatus>)
    ensures r.Failure? <==> Mode in properties && properties[Mode] != "STREAMING" && properties[Mode] != ""
    ensures r.Failure? ==> r.error == Status.WithMessage(Status.ParameterValidationError,
                                       "Expected mode=STREAMING or empty, received " + properties[Mode])
    ensures r.Success? ==> r.value.studyID == studyID
    ensures r.Success? ==> (r.value.mode == "STREAMING" <==> Mode in properties && properties[Mode] == "STREAMING")
    ensures r.Success? ==> r.value.mode in {"STREAMING", ""}
    ensures r.Success? ==> r.value.userProfileID == Property(properties, UserProfileID)
    ensures r.Success? ==> r.value.deviceVersion == Property(properties, DeviceVersion)
    ensures r.Success? ==> r.value.notes == Property(properties, Notes)
    ensures r.Success? ==> r.value.partnerID == Property(properties, PartnerID)
    ensures r.Success? && Resolution in properties ==> r.value.resolution == ResolutionValue(properties[Resolution])
    ensures r.Success? && Resolution !in properties ==> r.value.resolution == 0
  {
    var mode := Property(properties, Mode);
    if mode != "STREAMING" && mode != "" then
      Failure(Status.WithMessage(Status.ParameterValidationError, "Expected mode=STREAMING or empty, received " + mode))
    else
      Success(CreateRequestMsg(studyID, Property(properties, UserProfileID), Property(properties, DeviceVersion),
                               Property(properties, Notes), mode, Property(properties, PartnerID),
                               if Resolution in properties then ResolutionValue(properties[Resolution]) else 0))
  }

  class ProtobufStream {
    const api: API.Stream
    var streamOpen: bool
    var measurementID: string
    var chunkOrder: nat
    var isFirstChunk: bool
    var writerClosedStream: bool
    var lastChunkSent: bool
    var chunksOutstanding: int
    var requestID: string

    ghost predicate Valid()
      reads this, api, api.measurementIDs, api.results, api.metrics, api.warnings
    {
      api.Valid()
    }

    /** The state `initialize` sets. */
    ghost predicate Initial()
      reads this
    {
      !streamOpen && measurementID == "" && chunkOrder == 0 && isFirstChunk
      && !writerClosedStream && !lastChunkSent && chunksOutstanding == 0
    }

    constructor()
      ensures Valid() && Initial() && fresh(api)
      ensures !api.measurementClosed && api.measurementStatus == Status.Of(Status.Ok)
    {
      api := new API.Stream();
      streamOpen := false;
      measurementID := "";
      chunkOrder := 0;
      isFirstChunk := true;
      writerClosedStream := false;
      lastChunkSent := false;
      chunksOutstanding := 0;
      requestID := "";
    }

    /** `closeStream`: the measurement closes with OK. */
    method CloseStream() returns (r: Status.CloudStatus)
      modifies api`measurementClosed, api`measurementStatus
      ensures api.measurementClosed && api.measurementStatus == Status.Of(Status.Ok) && r == Status.Of(Status.Ok)
    {
      r := api.CloseMeasurement(Status.Of(Status.Ok));
    }

    /** `setupStream`. `created` and `createdID` are the outcome of the create
        call, `subscribed` that of the subscription; `sent` is the create
        request, once it is sent. */
    method SetupStream(config: Config.CloudConfig, studyID: string, properties: map<CreateProperty, string>,
                       c: WebSocketConnection.Connection,
                       created: Status.CloudStatus, createdID: string, subscribed: Status.CloudStatus)
      returns (r: Status.CloudStatus, sent: Option<CreateRequestMsg>)
      modifies this`streamOpen, this`measurementID, this`requestID, c`streams
      modifies api`measurementClosed, api`measurementStatus
      ensures SetupGuard(old(streamOpen), studyID, config, true).Some? ==>
        r == SetupGuard(old(streamOpen), studyID, config, true).value && sent == None
        && streamOpen == old(streamOpen) && c.streams == old(c.streams)
        && measurementID == old(measurementID) && requestID == old(requestID)
        && api.measurementClosed == old(api.measurementClosed) && api.measurementStatus == old(api.measurementStatus)
      ensures SetupGuard(old(streamOpen), studyID, config, true).None? && CreateRequest(studyID, properties).Failure? ==>
        r == CreateRequest(studyID, properties).error && sent == None && c.streams == old(c.streams)
        && streamOpen == old(streamOpen) && measurementID == old(measurementID) && requestID == old(requestID)
        && api.measurementClosed == old(api.measurementClosed) && api.measurementStatus == old(api.measurementStatus)
      ensures sent.Some? && !created.IsOk() ==>
        r == created && streamOpen == old(streamOpen) && c.streams == old(c.streams)
        && measurementID == old(measurementID) && requestID == old(requestID)
        && api.measurementClosed == old(api.measurementClosed) && api.measurementStatus == old(api.measurementStatus)
      ensures sent.Some? <==> SetupGuard(old(streamOpen), studyID, config, true).None? && CreateRequest(studyID, properties).Success?
      ensures sent.Some? ==> sent == Some(CreateRequest(studyID, properties).value)
      ensures r == Status.Of(Status.Ok) <==> sent.Some? && created.IsOk() && subscribed.IsOk()
      ensures r == Status.Of(Status.Ok) ==>
        streamOpen && measurementID == createdID && requestID == StreamRequestID && requestID in c.streams
      ensures sent.Some? && created.IsOk() && !subscribed.IsOk() ==>
        r == subscribed && api.measurementClosed && requestID in c.streams
      ensures !r.IsOk() && !old(streamOpen) ==> !streamOpen
    {
      sent := None;
      var guard := SetupGuard(streamOpen, studyID, config, true);
      if guard.Some? {
        return guard.value, sent;
      }
      var request := CreateRequest(studyID, properties);
      if request.Failure? {
        return request.error, sent;
      }
      sent := Some(request.value);
      if !created.IsOk() {
        return created, sent;
      }
      measurementID := createdID;
      requestID := StreamRequestID;
      c.RegisterStream(requestID);
      if !subscribed.IsOk() {
        var _ := CloseStream();
        return subscribed, sent;
      }
      streamOpen := true;
      r := Status.Of(Status.Ok);
    }

    /** The request of a chunk; a last chunk marks the stream. */
    method Request(chunk: seq<int>, isLastChunk: bool) returns (request: DataRequest)
      modifies this`lastChunkSent
      ensures request == DataRequest(measurementID, WS.Action(chunkOrder, isLastChunk), chunk)
      ensures lastChunkSent == (old(lastChunkSent) || isLastChunk)
    {
      var action;
      if !isLastChunk {
        if chunkOrder == 0 {
          action := FirstProcess;
        } else {
          action := ChunkProcess;
        }
      } else {
        action := LastProcess;
        lastChunkSent := true;
      }
      request := DataRequest(measurementID, action, chunk);
    }

    /** `sendChunk`: a failed send closes the stream and reports the
        failure. `sendResult` is what the transport
        returns; `request` is the request handed to it, if any. */
    method SendChunk(chunk: seq<int>, isLastChunk: bool, sendResult: Status.CloudStatus)
      returns (r: Status.CloudStatus, request: Option<DataRequest>)
      modifies this`lastChunkSent, this`chunksOutstanding, api`measurementClosed, api`measurementStatus
      ensures old(api.measurementClosed) ==>
        r == old(api.measurementStatus) && request == None && chunksOutstanding == old(chunksOutstanding)
        && lastChunkSent == old(lastChunkSent) && api.measurementStatus == old(api.measurementStatus)
      ensures !old(api.measurementClosed) ==>
        request == Some(DataRequest(measurementID, WS.Action(chunkOrder, isLastChunk), chunk))
        && lastChunkSent == (old(lastChunkSent) || isLastChunk)
      ensures !old(api.measurementClosed) && sendResult.IsOk() ==>
        r == Status.Of(Status.Ok) && chunksOutstanding == old(chunksOutstanding) + 1
        && !api.measurementClosed && api.measurementStatus == old(api.measurementStatus)
      ensures !old(api.measurementClosed) && !sendResult.IsOk() ==>
        r == sendResult && chunksOutstanding == old(chunksOutstanding)
        && api.measurementClosed && api.measurementStatus == Status.Of(Status.Ok)
    {
      var closed, status := api.IsMeasurementClosed(Status.Of(Status.Ok));
      if closed {
        return status, None;
      }
      var data := Request(chunk, isLastChunk);
      request := Some(data);
      if !sendResult.IsOk() {
        var _ := CloseStream();
        return sendResult, request;
      }
      chunksOutstanding := chunksOutstanding + 1;
      r := Status.Of(Status.Ok);
    }

    /** `chunkOrder` is never advanced, so every chunk before the last goes
        out as FIRST::PROCESS. */
    method SecondChunkIsFirst(first: seq<int>, second: seq<int>) returns (a: Option<DataRequest>, b: Option<DataRequest>)
      requires Initial() && !api.measurementClosed
      modifies this`lastChunkSent, this`chunksOutstanding, api`measurementClosed, api`measurementStatus
      ensures a.Some? && a.value.action == FirstProcess
      ensures b.Some? && b.value.action == FirstProcess
    {
      var s1, s2;
      s1, a := SendChunk(first, false, Status.Of(Status.Ok));
      s2, b := SendChunk(second, false, Status.Of(Status.Ok));
    }

    /** `reset` is not overridden: the base class reports it unimplemented. */
    method Reset() returns (r: Status.CloudStatus)
      ensures r.code == Status.UnimplementedFeature
    {
      r := Status.Of(Status.UnimplementedFeature);
    }

    /** `cancel`: the close status of a closed measurement, otherwise OK. */
    method Cancel() returns (r: Status.CloudStatus)
      ensures api.measurementClosed ==> r == api.measurementStatus
      ensures !api.measurementClosed ==> r == Status.Of(Status.Ok)
    {
      var closed;
      closed, r := api.IsMeasurementClosed(Status.Of(Status.Ok));
    }

    /** The end of a decoded reply: a result with signal data goes to the
        client, the reply is counted off, and the stream closes with OK once
        the last chunk was sent and every chunk is answered. */
    method Deliver(result: API.MeasurementResult)
      requires Valid()
      modifies this`chunksOutstanding, api`measurementClosed, api`measurementStatus, api.results
      ensures Valid()
      ensures api.results.arrived == old(api.results.arrived) + (if |result.signalData| > 0 then [result] else [])
      ensures chunksOutstanding == old(chunksOutstanding) - 1
      ensures lastChunkSent && chunksOutstanding == 0 ==>
        api.measurementClosed && api.measurementStatus == Status.Of(Status.Ok)
      ensures !(lastChunkSent && chunksOutstanding == 0) ==>
        api.measurementClosed == old(api.measurementClosed) && api.measurementStatus == old(api.measurementStatus)
    {
      if |result.signalData| > 0 {
        var _ := api.Handle(api.results, result);
      }
      chunksOutstanding := chunksOutstanding - 1;
      if lastChunkSent && chunksOutstanding == 0 {
        var _ := CloseStream();
      }
    }

    /** The warning and the ID of a decoded reply go to the client. */
    method HandleHeader(reply: SubscribeResults)
      requires Valid()
      modifies this`measurementID, api.measurementIDs, api.warnings
      ensures Valid()
      ensures var w := ProtoWarning(reply);
        api.warnings.arrived == old(api.warnings.arrived) + (if w.Some? then [w.value] else [])
      ensures var id := ProtoNewID(reply, old(measurementID));
        && api.measurementIDs.arrived == old(api.measurementIDs.arrived) + (if id.Some? then [id.value] else [])
        && measurementID == (if id.Some? then id.value else old(measurementID))
    {
      ghost var ids := api.measurementIDs.arrived;
      var warning := ProtoWarning(reply);
      if warning.Some? {
        var _ := api.Handle(api.warnings, warning.value);
      }
      assert api.measurementIDs.arrived == ids;
      ghost var warnings := api.warnings.arrived;
      var id := ProtoNewID(reply, measurementID);
      if id.Some? {
        var _ := api.Handle(api.measurementIDs, id.value);
        measurementID := id.value;
      }
      assert api.warnings.arrived == warnings;
      assert api.measurementIDs.arrived == ids + (if id.Some? then [id.value] else []);
    }

    /** A 200 reply that decoded: warning, first ID, then the result, read
        with the ID the stream has by then. An unreadable chunk number throws
        after the warning and the ID went out. */
    method HandleReply(reply: SubscribeResults, sample: (int, int) -> real) returns (thrown: Option<Exception>)
      requires Valid()
      modifies this`measurementID, this`chunksOutstanding, api`measurementClosed, api`measurementStatus
      modifies api.measurementIDs, api.results, api.warnings
      ensures Valid()
      ensures var w := ProtoWarning(reply);
        api.warnings.arrived == old(api.warnings.arrived) + (if w.Some? then [w.value] else [])
      ensures var id := ProtoNewID(reply, old(measurementID));
        && api.measurementIDs.arrived == old(api.measurementIDs.arrived) + (if id.Some? then [id.value] else [])
        && measurementID == (if id.Some? then id.value else old(measurementID))
      ensures var result := ProtoResult(reply, measurementID, sample);
        && (thrown.None? <==> result.Success?)
        && (thrown.Some? ==> chunksOutstanding == old(chunksOutstanding) && api.results.arrived == old(api.results.arrived))
        && (thrown.None? ==>
              api.results.arrived == old(api.results.arrived) + (if |result.value.signalData| > 0 then [result.value] else [])
              && chunksOutstanding == old(chunksOutstanding) - 1)
      ensures thrown.None? && lastChunkSent && chunksOutstanding == 0 ==>
        api.measurementClosed && api.measurementStatus == Status.Of(Status.Ok)
      ensures !(thrown.None? && lastChunkSent && chunksOutstanding == 0) ==>
        api.measurementClosed == old(api.measurementClosed) && api.measurementStatus == old(api.measurementStatus)
    {
      HandleHeader(reply);
      var result := ProtoResult(reply, measurementID, sample);
      if result.Failure? {
        return Some(result.error);
      }
      ghost var id := measurementID;
      ghost var ids := api.measurementIDs.arrived;
      ghost var warnings := api.warnings.arrived;
      Deliver(result.value);
      assert measurementID == id && api.measurementIDs.arrived == ids && api.warnings.arrived == warnings;
      thrown := None;
    }

    /** `handleStreamResponse` with the body taken as everything after the
        13-byte header (the source passes the same range as
        `MeasurementStreamWebSocket` for a failed reply). A failed reply closes the
        measurement with the decoded error; an undecodable 200 reply closes it
        with INTERNAL_ERROR. */
    method HandleStreamResponse(message: string, parse: string -> Option<SubscribeResults>,
                                errorFields: string -> Option<seq<string>>, sample: (int, int) -> real)
      returns (thrown: Option<Exception>)
      requires Valid() && |message| >= Framing.PayloadOffset
      modifies this`measurementID, this`chunksOutstanding, api`measurementClosed, api`measurementStatus
      modifies api.measurementIDs, api.results, api.warnings
      ensures Valid()
      ensures message[10..13] != "200" ==>
        thrown.None? && chunksOutstanding == old(chunksOutstanding) && measurementID == old(measurementID)
        && api.measurementClosed
        && api.measurementStatus == WebSocketProto.DecodeError(message[10..13], errorFields(ReplyBody(message)))
      ensures message[10..13] == "200" && parse(ReplyBody(message)).None? ==>
        thrown.None? && api.measurementClosed && api.measurementStatus == DecodeFailed
        && chunksOutstanding == old(chunksOutstanding)
      ensures message[10..13] == "200" && parse(ReplyBody(message)).Some? ==>
        var reply := parse(ReplyBody(message)).value;
        var w := ProtoWarning(reply);
        var id := ProtoNewID(reply, old(measurementID));
        var result := ProtoResult(reply, measurementID, sample);
        && api.warnings.arrived == old(api.warnings.arrived) + (if w.Some? then [w.value] else [])
        && api.measurementIDs.arrived == old(api.measurementIDs.arrived) + (if id.Some? then [id.value] else [])
        && measurementID == (if id.Some? then id.value else old(measurementID))
        && (thrown.None? <==> result.Success?)
        && (thrown.Some? ==> api.results.arrived == old(api.results.arrived))
        && (thrown.None? ==>
              api.results.arrived == old(api.results.arrived) + (if |result.value.signalData| > 0 then [result.value] else [])
              && chunksOutstanding == old(chunksOutstanding) - 1)
      ensures thrown.Some? ==> chunksOutstanding == old(chunksOutstanding)
    {
      var statusCode := message[10..13];
      var body := ReplyBody(message);
      if statusCode != "200" {
        var status := WebSocketProto.DecodeWebSocketError(statusCode, errorFields(body));
        var _ := api.CloseMeasurement(status);
        return None;
      }
      var response := parse(body);
      if response.None? {
        var _ := api.CloseMeasurement(DecodeFailed);
        return None;
      }
      thrown := HandleReply(response.value, sample);
    }
  }
}
