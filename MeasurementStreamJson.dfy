/** The measurement stream over the JSON WebSocket transport
    (api-cpp-websocket-json/src/MeasurementStreamJsonWebSocket.cpp).

    The transport calls are replaced by their outcomes, given as parameters:
    the status `sendMessageJson` returns and, for the create call, the reply
    body. The JSON parser, the serializer (`dump`) and the float arithmetic on
    channel samples are function parameters. */
module MeasurementStreamJson {
  import opened Wrappers
  import Text
  import Json
  import OrderedKeys
  import Status
  import Config
  import Framing
  import WebSocketConnection
  import API = MeasurementStreamAPI
  import opened MeasurementStreams

  // ---------------------------------------------------------------------------
  // Reading replies

  /** `v[name]` on a `const` value: the member when `v` is an object holding
      it; otherwise nlohmann throws (not an object) or the behaviour is
      undefined (missing key), both modelled as a `type_error`. */
  function Member(v: Json.Json, name: string): (r: Result<Json.Json, Exception>)
    ensures r.Success? <==> Json.Contains(v, name)
    ensures r.Success? ==> r.value == Json.At(v, name)
  {
    if Json.Contains(v, name) then Success(Json.At(v, name)) else Failure(TypeError)
  }

  /** `j[name].get<std::string>()` (or the conversion to `std::string`) on a
      mutable value: a missing member reads as null, which does not convert. */
  function StringMember(j: Json.Json, name: string): (r: Result<string, Exception>)
    ensures r.Success? <==> Json.Contains(j, name) && Json.At(j, name).JStr?
    ensures r.Success? ==> r.value == Json.At(j, name).s
  {
    if Json.Contains(j, name) then
      match Json.AsString(Json.At(j, name))
      case Some(s) => Success(s)
      case None => Failure(TypeError)
    else Failure(TypeError)
  }

  /** The warning made of one entry of `Error.Errors`. */
  function ItemWarning(item: (string, Json.Json), dump: Json.Json -> string): (r: Result<API.MeasurementWarning, Exception>)
    ensures r.Success? <==> Json.Contains(item.1, "msgs")
    ensures r.Success? ==> r.value.warningCode == -1 && r.value.timestampMS == 0
  {
    var msgs :- Member(item.1, "msgs");
    Success(API.MeasurementWarning(-1, item.0 + ": " + dump(msgs), 0))
  }

  /** The warnings of all entries, or the first entry's failure. */
  function ItemWarnings(items: seq<(string, Json.Json)>, dump: Json.Json -> string)
    : (r: Result<seq<API.MeasurementWarning>, Exception>)
    ensures r.Success? <==> forall i :: 0 <= i < |items| ==> ItemWarning(items[i], dump).Success?
    ensures r.Success? ==> |r.value| == |items|
  {
    if |items| == 0 then Success([])
    else
      var init :- ItemWarnings(items[..|items| - 1], dump);
      var last :- ItemWarning(items[|items| - 1], dump);
      Success(init + [last])
  }

  /** One more readable entry adds its warning at the end. */
  lemma ItemWarningsSnoc(items: seq<(string, Json.Json)>, dump: Json.Json -> string, i: nat)
    requires i < |items| && ItemWarnings(items[..i], dump).Success? && ItemWarning(items[i], dump).Success?
    ensures ItemWarnings(items[..i + 1], dump)
         == Success(ItemWarnings(items[..i], dump).value + [ItemWarning(items[i], dump).value])
  {
    assert items[..i + 1][..i] == items[..i];
  }

  /** The i-th warning is the one made of the i-th entry. */
  lemma {:induction false} ItemWarningsInOrder(items: seq<(string, Json.Json)>, dump: Json.Json -> string)
    requires ItemWarnings(items, dump).Success?
    ensures forall i :: 0 <= i < |items| ==> ItemWarnings(items, dump).value[i] == ItemWarning(items[i], dump).value
  {
    if |items| > 0 {
      var init := items[..|items| - 1];
      ItemWarningsInOrder(init, dump);
      assert forall i :: 0 <= i < |init| ==> init[i] == items[i];
    }
  }

  /** The index of the first entry without `msgs`, or the number of entries
      when every entry has one: the loop over the entries stops there. */
  function FirstFailing(items: seq<(string, Json.Json)>, dump: Json.Json -> string): (k: nat)
    ensures k <= |items|
    ensures forall i :: 0 <= i < k ==> ItemWarning(items[i], dump).Success?
    ensures k < |items| ==> ItemWarning(items[k], dump).Failure?
    ensures ItemWarnings(items[..k], dump).Success?
  {
    if |items| == 0 then 0
    else if ItemWarning(items[0], dump).Failure? then 0
    else
      var k := 1 + FirstFailing(items[1..], dump);
      assert forall i :: 1 <= i < k ==> items[i] == items[1..][i - 1];
      assert forall i :: 0 <= i < k ==> items[..k][i] == items[i];
      k
  }

  /** When the entries before `i` all have `msgs` and entry `i` does not, the
      first failing entry is `i`. */
  lemma FirstFailingAt(items: seq<(string, Json.Json)>, dump: Json.Json -> string, i: nat)
    requires i < |items| && ItemWarnings(items[..i], dump).Success? && ItemWarning(items[i], dump).Failure?
    ensures FirstFailing(items, dump) == i
  {
    assert forall j :: 0 <= j < i ==> items[..i][j] == items[j];
  }

  /** Every entry has `msgs` exactly when none fails. */
  lemma FirstFailingNone(items: seq<(string, Json.Json)>, dump: Json.Json -> string)
    ensures FirstFailing(items, dump) == |items| <==> ItemWarnings(items, dump).Success?
  {
  }

  /** The entries to warn about: those of `Error.Errors` when the reply has
      an `Error` whose `Code` is not "OK"; none when there is no `Error`. */
  function ErrorItems(j: Json.Json): (r: Result<seq<(string, Json.Json)>, Exception>)
    ensures !Json.Contains(j, "Error") ==> r == Success([])
    ensures (Json.Contains(j, "Error") && Json.Contains(Json.At(j, "Error"), "Code")
            && Json.At(Json.At(j, "Error"), "Code") == Json.JStr("OK")) ==> r == Success([])
  {
    if Json.Contains(j, "Error") then
      var error := Json.At(j, "Error");
      var code :- Member(error, "Code");
      if !code.JStr? then Failure(TypeError)
      else if code.s == "OK" then Success([])
      else
        var errors :- Member(error, "Errors");
        Success(Json.Items(errors))
    else Success([])
  }

  /** `Multiplier`, 1 when absent. */
  function Multiplier(j: Json.Json): (r: Result<int, Exception>)
    ensures !Json.Contains(j, "Multiplier") ==> r == Success(1)
  {
    if Json.Contains(j, "Multiplier") then
      match Json.AsI32(Json.At(j, "Multiplier"))
      case Some(m) => Success(m)
      case None => Failure(TypeError)
    else Success(1)
  }

  /** One channel's samples: `Channel` must be a string and `Data` an array
      of integers, each handed to `sample` with the multiplier. */
  function ChannelSamples(signal: Json.Json, multiplier: int, sample: (int, int) -> real): (r: Result<seq<real>, Exception>)
    ensures r.Success? ==> Json.Contains(signal, "Data") && Json.At(signal, "Data").JArr?
                           && |r.value| == |Json.At(signal, "Data").items|
  {
    var channel :- Member(signal, "Channel");
    if !channel.JStr? then Failure(TypeError)
    else
      var data :- Member(signal, "Data");
      if !data.JArr? then Failure(TypeError)
      else if exists i :: 0 <= i < |data.items| && Json.AsI32(data.items[i]).None? then Failure(TypeError)
      else Success(seq(|data.items|, i requires 0 <= i < |data.items| => sample(Json.AsI32(data.items[i]).value, multiplier)))
  }

  /** The signal data of all channels, keyed by signal name. */
  function SignalData(items: seq<(string, Json.Json)>, multiplier: int, sample: (int, int) -> real)
    : (r: Result<map<string, seq<real>>, Exception>)
    ensures r.Success? ==> forall i :: 0 <= i < |items| ==> items[i].0 in r.value
    ensures r.Success? ==> forall k :: k in r.value ==> exists i :: 0 <= i < |items| && items[i].0 == k
  {
    if |items| == 0 then Success(map[])
    else
      var init :- SignalData(items[..|items| - 1], multiplier, sample);
      var last := items[|items| - 1];
      var samples :- ChannelSamples(last.1, multiplier, sample);
      assert forall i :: 0 <= i < |items| - 1 ==> items[..|items| - 1][i] == items[i];
      Success(init[last.0 := samples])
  }

  /** `Channels`, read through a mutable reference: absent reads as null. */
  function ChannelItems(j: Json.Json): seq<(string, Json.Json)>
  {
    if Json.Contains(j, "Channels") then Json.Items(Json.At(j, "Channels")) else []
  }

  /** What a decoded 200 reply hands to the client. */
  datatype Decoded = Decoded(warnings: seq<API.MeasurementWarning>, newID: Option<string>, result: API.MeasurementResult)

  /** The result a reply carries, read with the ID the stream has by then. */
  function ReplyResult(j: Json.Json, measurementID: string, sample: (int, int) -> real)
    : (r: Result<API.MeasurementResult, Exception>)
    ensures r.Success? ==> r.value.faceID == "1" && StringMember(j, "MeasurementDataID").Success?
    ensures r.Success? ==> ChunkNumber(StringMember(j, "MeasurementDataID").value, measurementID).Success?
  {
    var multiplier :- Multiplier(j);
    var dataID :- StringMember(j, "MeasurementDataID");
    var chunk :- ChunkNumber(dataID, measurementID);
    var signals :- SignalData(ChannelItems(j), multiplier, sample);
    Success(API.MeasurementResult(Text.ToUint64(chunk), "1", signals, 0, 0))
  }

  /** The ID a reply hands over: read only while the stream has none. */
  function IDStage(j: Json.Json, measurementID: string): (r: Result<Option<string>, Exception>)
    ensures measurementID != "" || !Json.Contains(j, "ID") ==> r == Success(None)
    ensures measurementID == "" && Json.Contains(j, "ID") ==>
      (r.Success? <==> StringMember(j, "ID").Success?)
      && (r.Success? ==> r.value == Some(StringMember(j, "ID").value))
  {
    if Json.Contains(j, "ID") && measurementID == "" then
      var id :- StringMember(j, "ID");
      Success(Some(id))
    else Success(None)
  }

  /** What follows the warnings: the ID, then the result read with the ID
      the stream has by then. */
  function Rest(j: Json.Json, measurementID: string, sample: (int, int) -> real)
    : (r: Result<(Option<string>, API.MeasurementResult), Exception>)
  {
    var newID :- IDStage(j, measurementID);
    var result :- ReplyResult(j, if newID.Some? then newID.value else measurementID, sample);
    Success((newID, result))
  }

  /** Once the ID stage succeeds, what follows is the result stage, read
      with the ID the stream has after it. */
  lemma RestStages(j: Json.Json, measurementID: string, sample: (int, int) -> real)
    requires IDStage(j, measurementID).Success?
    ensures var newID := IDStage(j, measurementID).value;
      var result := ReplyResult(j, if newID.Some? then newID.value else measurementID, sample);
      && (Rest(j, measurementID, sample).Success? <==> result.Success?)
      && (result.Success? ==> Rest(j, measurementID, sample).value == (newID, result.value))
  {
  }

  /** A decoded 200 reply, read in the source's order; the first conversion
      that throws ends it. */
  function Reply(j: Json.Json, measurementID: string, dump: Json.Json -> string, sample: (int, int) -> real)
    : (r: Result<Decoded, Exception>)
    ensures r.Success? && measurementID != "" ==> r.value.newID == None
    ensures r.Success? && measurementID == "" && Json.Contains(j, "ID") ==>
              StringMember(j, "ID").Success? && r.value.newID == Some(StringMember(j, "ID").value)
    ensures r.Success? ==> r.value.result.faceID == "1"
    ensures r.Success? ==> StringMember(j, "MeasurementDataID").Success?
    ensures r.Success? ==> ErrorItems(j).Success? && ItemWarnings(ErrorItems(j).value, dump) == Success(r.value.warnings)
  {
    var items :- ErrorItems(j);
    var warnings :- ItemWarnings(items, dump);
    var rest :- Rest(j, measurementID, sample);
    Success(Decoded(warnings, rest.0, rest.1))
  }

  /** A reply's chunk number is the one the server put after
      "<measurementID>:". */
  lemma ReplyChunkOrder(j: Json.Json, measurementID: string, n: nat, dump: Json.Json -> string, sample: (int, int) -> real)
    requires measurementID != "" && n <= Text.IntMax
    requires StringMember(j, "MeasurementDataID") == Success(measurementID + ":" + Text.IntToString(n))
    requires Reply(j, measurementID, dump, sample).Success?
    ensures Reply(j, measurementID, dump, sample).value.result.chunkOrder == n
  {
    ChunkNumberRoundTrip(measurementID, n);
  }

  // ---------------------------------------------------------------------------
  // The stream

  /** The body of the create request: the optional properties that apply to
      this transport, and the study. */
  function CreateRequest(studyID: string, properties: map<CreateProperty, string>): (r: Json.Json)
    ensures r.JObj? && Json.Contains(r, "StudyID") && Json.At(r, "StudyID") == Json.JStr(studyID)
    ensures Json.Contains(r, "UserProfileID") <==> UserProfileID in properties
    ensures UserProfileID in properties ==> Json.At(r, "UserProfileID") == Json.JStr(properties[UserProfileID])
    ensures Json.Contains(r, "PartnerID") <==> PartnerID in properties
    ensures PartnerID in properties ==> Json.At(r, "PartnerID") == Json.JStr(properties[PartnerID])
    ensures Json.Contains(r, "Resolution") <==> Resolution in properties
    ensures Resolution in properties ==> Json.At(r, "Resolution") == Json.JInt(ResolutionValue(properties[Resolution]))
  {
    var withProfile := if UserProfileID in properties then Json.Set(Json.JNull, "UserProfileID", Json.JStr(properties[UserProfileID])) else Json.JNull;
    var withPartner := if PartnerID in properties then Json.Set(withProfile, "PartnerID", Json.JStr(properties[PartnerID])) else withProfile;
    var withResolution := if Resolution in properties then Json.Set(withPartner, "Resolution", Json.JInt(ResolutionValue(properties[Resolution]))) else withPartner;
    Json.Set(withResolution, "StudyID", Json.JStr(studyID))
  }

  /** The create request has no member besides the study and the three
      properties this transport sends. */
  lemma CreateRequestKeys(studyID: string, properties: map<CreateProperty, string>)
    ensures forall k :: Json.Contains(CreateRequest(studyID, properties), k) ==>
      k in {"StudyID", "UserProfileID", "PartnerID", "Resolution"}
  {
  }

  class JsonStream {
    const api: API.Stream
    var streamOpen: bool
    var measurementID: string
    var chunkOrder: nat
    var isFirstChunk: bool
    var writerClosedStream: bool
    var lastChunkSent: bool
    var chunksOutstanding: int
    var requestID: string

    ghost predicate Valid()
      reads this, api, api.measurementIDs, api.results, api.metrics, api.warnings
    {
      api.Valid()
    }

    /** The state `initialize` sets. */
    ghost predicate Initial()
      reads this
    {
      !streamOpen && measurementID == "" && chunkOrder == 0 && isFirstChunk
      && !writerClosedStream && !lastChunkSent && chunksOutstanding == 0
    }

    constructor()
      ensures Valid() && Initial() && fresh(api)
      ensures !api.measurementClosed && api.measurementStatus == Status.Of(Status.Ok)
    {
      api := new API.Stream();
      streamOpen := false;
      measurementID := "";
      chunkOrder := 0;
      isFirstChunk := true;
      writerClosedStream := false;
      lastChunkSent := false;
      chunksOutstanding := 0;
      requestID := "";
    }

    /** `closeStream`: the measurement closes with OK. */
    method CloseStream() returns (r: Status.CloudStatus)
      modifies api`measurementClosed, api`measurementStatus
      ensures api.measurementClosed && api.measurementStatus == Status.Of(Status.Ok) && r == Status.Of(Status.Ok)
    {
      r := api.CloseMeasurement(Status.Of(Status.Ok));
    }

    /** `setupStream`. `created` and `createResponse` are the outcome of the
        create call, `subscribed` that of the subscription; `sent` lists the
        request bodies handed to the transport. */
    method SetupStream(config: Config.CloudConfig, studyID: string, properties: map<CreateProperty, string>,
                       c: WebSocketConnection.Connection, created: Status.CloudStatus, createResponse: Json.Json,
                       subscribed: Status.CloudStatus)
      returns (r: Result<Status.CloudStatus, Exception>, sent: seq<Json.Json>)
      modifies this`streamOpen, this`measurementID, this`requestID, c`streams
      modifies api`measurementClosed, api`measurementStatus
      ensures SetupGuard(old(streamOpen), studyID, config, false).Some? ==>
        r == Success(SetupGuard(old(streamOpen), studyID, config, false).value) && sent == []
        && streamOpen == old(streamOpen) && c.streams == old(c.streams)
        && measurementID == old(measurementID) && requestID == old(requestID)
        && api.measurementClosed == old(api.measurementClosed) && api.measurementStatus == old(api.measurementStatus)
      ensures SetupGuard(old(streamOpen), studyID, config, false).None? ==>
        |sent| >= 1 && sent[0] == CreateRequest(studyID, properties)
      ensures SetupGuard(old(streamOpen), studyID, config, false).None?
              && !(created.IsOk() && StringMember(createResponse, "ID").Success?) ==>
        sent == [CreateRequest(studyID, properties)]
        && (if created.IsOk() then r.Failure? else r == Success(created))
        && streamOpen == old(streamOpen) && c.streams == old(c.streams)
        && measurementID == old(measurementID) && requestID == old(requestID)
        && api.measurementClosed == old(api.measurementClosed) && api.measurementStatus == old(api.measurementStatus)
      ensures SetupGuard(old(streamOpen), studyID, config, false).None?
              && created.IsOk() && StringMember(createResponse, "ID").Success? ==>
        sent == [CreateRequest(studyID, properties), Json.JObj(map["RequestID" := Json.JStr(StreamRequestID)])]
        && measurementID == StringMember(createResponse, "ID").value
        && requestID == StreamRequestID && requestID in c.streams
      ensures SetupGuard(old(streamOpen), studyID, config, false).None?
              && created.IsOk() && StringMember(createResponse, "ID").Success? && !subscribed.IsOk() ==>
        r == Success(subscribed) && !streamOpen
        && api.measurementClosed && api.measurementStatus == Status.Of(Status.Ok)
      ensures r == Success(Status.Of(Status.Ok)) <==>
        SetupGuard(old(streamOpen), studyID, config, false).None? && created.IsOk()
        && StringMember(createResponse, "ID").Success? && subscribed.IsOk()
      ensures r == Success(Status.Of(Status.Ok)) ==>
        streamOpen && requestID == StreamRequestID && requestID in c.streams
        && measurementID == StringMember(createResponse, "ID").value
      ensures r.Success? && !r.value.IsOk() && !old(streamOpen) ==> !streamOpen
    {
      sent := [];
      var guard := SetupGuard(streamOpen, studyID, config, false);
      if guard.Some? {
        return Success(guard.value), sent;
      }
      var create := CreateRequest(studyID, properties);
      sent := [create];
      if !created.IsOk() {
        return Success(created), sent;
      }
      var id := StringMember(createResponse, "ID");
      if id.Failure? {
        return Failure(id.error), sent;
      }
      measurementID := id.value;
      requestID := StreamRequestID;
      sent := [create, Json.JObj(map["RequestID" := Json.JStr(requestID)])];
      c.RegisterStream(requestID);
      if !subscribed.IsOk() {
        var _ := CloseStream();
        return Success(subscribed), sent;
      }
      streamOpen := true;
      r := Success(Status.Of(Status.Ok));
    }

    /** `sendChunk`. `sendResult` is what the transport returns for the data
        request; `request` is the request handed to it, if any. */
    method SendChunk(chunk: seq<int>, isLastChunk: bool, sendResult: Status.CloudStatus)
      returns (r: Status.CloudStatus, request: Option<DataRequest>)
      modifies this`isFirstChunk, this`lastChunkSent, this`chunksOutstanding
      modifies api`measurementClosed, api`measurementStatus
      ensures old(api.measurementClosed) ==>
        r == old(api.measurementStatus) && request == None && chunksOutstanding == old(chunksOutstanding)
        && isFirstChunk == old(isFirstChunk) && lastChunkSent == old(lastChunkSent)
        && api.measurementStatus == old(api.measurementStatus)
      ensures !old(api.measurementClosed) ==>
        request.Some? && request.value.payload == chunk && request.value.measurementID == measurementID
      ensures !old(api.measurementClosed) && isLastChunk ==>
        request.value.action == LastProcess && lastChunkSent && isFirstChunk == old(isFirstChunk)
      ensures !old(api.measurementClosed) && !isLastChunk ==> lastChunkSent == old(lastChunkSent) && !isFirstChunk
      ensures !old(api.measurementClosed) && !isLastChunk && old(isFirstChunk) ==> request.value.action == FirstProcess
      ensures !old(api.measurementClosed) && !isLastChunk && !old(isFirstChunk) ==> request.value.action == ChunkProcess
      ensures !old(api.measurementClosed) && sendResult.IsOk() ==>
        r == Status.Of(Status.Ok) && chunksOutstanding == old(chunksOutstanding) + 1
        && !api.measurementClosed && api.measurementStatus == old(api.measurementStatus)
      ensures !old(api.measurementClosed) && !sendResult.IsOk() ==>
        r == sendResult && chunksOutstanding == old(chunksOutstanding)
        && api.measurementClosed && api.measurementStatus == Status.Of(Status.Ok)
    {
      var closed, status := api.IsMeasurementClosed(Status.Of(Status.Ok));
      if closed {
        return status, None;
      }
      var action;
      if !isLastChunk {
        if isFirstChunk {
          action := FirstProcess;
          isFirstChunk := false;
        } else {
          action := ChunkProcess;
        }
      } else {
        action := LastProcess;
        lastChunkSent := true;
      }
      request := Some(DataRequest(measurementID, action, chunk));
      if !sendResult.IsOk() {
        var _ := CloseStream();
        return sendResult, request;
      }
      if isLastChunk {
        lastChunkSent := true;
      }
      chunksOutstanding := chunksOutstanding + 1;
      r := Status.Of(Status.Ok);
    }

    /** `reset` only rearms the first-chunk flag. */
    method Reset() returns (r: Status.CloudStatus)
      modifies this`isFirstChunk
      ensures isFirstChunk && r == Status.Of(Status.Ok)
    {
      isFirstChunk := true;
      r := Status.Of(Status.Ok);
    }

    /** `cancel`: the close status of a closed measurement, otherwise OK. */
    method Cancel() returns (r: Status.CloudStatus)
      ensures api.measurementClosed ==> r == api.measurementStatus
      ensures !api.measurementClosed ==> r == Status.Of(Status.Ok)
    {
      var closed;
      closed, r := api.IsMeasurementClosed(Status.Of(Status.Ok));
    }

    /** Hands the warnings of `items` to the client one at a time; an entry
        without `msgs` throws, after the entries before it were handed over. */
    method HandleWarnings(items: seq<(string, Json.Json)>, dump: Json.Json -> string) returns (thrown: Option<Exception>)
      requires Valid()
      modifies api.warnings
      ensures Valid()
      ensures api.measurementIDs.arrived == old(api.measurementIDs.arrived)
      ensures thrown.None? <==> ItemWarnings(items, dump).Success?
      ensures thrown.None? ==> api.warnings.arrived == old(api.warnings.arrived) + ItemWarnings(items, dump).value
      ensures thrown.Some? ==>
        FirstFailing(items, dump) < |items|
        && api.warnings.arrived == old(api.warnings.arrived) + ItemWarnings(items[..FirstFailing(items, dump)], dump).value
    {
      var q := api.warnings;
      ghost var start := q.arrived;
      var i := 0;
      while i < |items|
        invariant 0 <= i <= |items| && q.Valid()
        invariant ItemWarnings(items[..i], dump).Success?
        invariant q.arrived == start + ItemWarnings(items[..i], dump).value
      {
        var warning := ItemWarning(items[i], dump);
        if warning.Failure? {
          FirstFailingAt(items, dump, i);
          return Some(warning.error);
        }
        ghost var before := ItemWarnings(items[..i], dump).value;
        ItemWarningsSnoc(items, dump, i);
        var _ := api.Handle(q, warning.value);
        Text.Associative(start, before, [warning.value]);
        i := i + 1;
      }
      assert items[..i] == items;
      thrown := None;
    }

    /** The end of a decoded reply: a result with signal data goes to the
        client, the reply is counted off, and the stream closes with OK once
        the last chunk was sent and every chunk is answered. */
    method Deliver(result: API.MeasurementResult)
      requires Valid()
      modifies this`chunksOutstanding, api`measurementClosed, api`measurementStatus, api.results
      ensures Valid()
      ensures api.results.arrived == old(api.results.arrived) + (if |result.signalData| > 0 then [result] else [])
      ensures chunksOutstanding == old(chunksOutstanding) - 1
      ensures lastChunkSent && chunksOutstanding == 0 ==>
        api.measurementClosed && api.measurementStatus == Status.Of(Status.Ok)
      ensures !(lastChunkSent && chunksOutstanding == 0) ==>
        api.measurementClosed == old(api.measurementClosed) && api.measurementStatus == old(api.measurementStatus)
    {
      if |result.signalData| > 0 {
        var _ := api.Handle(api.results, result);
      }
      chunksOutstanding := chunksOutstanding - 1;
      if lastChunkSent && chunksOutstanding == 0 {
        var _ := CloseStream();
      }
    }

    /** The ID stage: the first ID to arrive goes to the client and becomes
        the stream's. */
    method HandleID(j: Json.Json) returns (thrown: Option<Exception>)
      requires api.measurementIDs.Valid()
      modifies this`measurementID, api.measurementIDs
      ensures api.measurementIDs.Valid()
      ensures thrown.None? <==> IDStage(j, old(measurementID)).Success?
      ensures thrown.None? ==>
        var newID := IDStage(j, old(measurementID)).value;
        && api.measurementIDs.arrived == old(api.measurementIDs.arrived) + (if newID.Some? then [newID.value] else [])
        && measurementID == (if newID.Some? then newID.value else old(measurementID))
      ensures thrown.Some? ==>
        api.measurementIDs.arrived == old(api.measurementIDs.arrived) && measurementID == old(measurementID)
    {
      thrown := None;
      if Json.Contains(j, "ID") && measurementID == "" {
        var id := StringMember(j, "ID");
        if id.Failure? {
          return Some(id.error);
        }
        var _ := api.Handle(api.measurementIDs, id.value);
        measurementID := id.value;
      }
    }

    /** The stages after the warnings. */
    method HandleRest(j: Json.Json, sample: (int, int) -> real) returns (thrown: Option<Exception>)
      requires Valid()
      modifies this`measurementID, this`chunksOutstanding, api`measurementClosed, api`measurementStatus
      modifies api.measurementIDs, api.results
      ensures Valid()
      ensures IDStage(j, old(measurementID)).Failure? ==>
        thrown.Some? && api.measurementIDs.arrived == old(api.measurementIDs.arrived) && measurementID == old(measurementID)
      ensures IDStage(j, old(measurementID)).Success? ==>
        var newID := IDStage(j, old(measurementID)).value;
        && api.measurementIDs.arrived == old(api.measurementIDs.arrived) + (if newID.Some? then [newID.value] else [])
        && measurementID == (if newID.Some? then newID.value else old(measurementID))
      ensures thrown.None? <==> IDStage(j, old(measurementID)).Success? && ReplyResult(j, measurementID, sample).Success?
      ensures thrown.None? ==>
        var result := ReplyResult(j, measurementID, sample).value;
        && api.results.arrived == old(api.results.arrived) + (if |result.signalData| > 0 then [result] else [])
        && chunksOutstanding == old(chunksOutstanding) - 1
      ensures thrown.None? && lastChunkSent && chunksOutstanding == 0 ==>
        api.measurementClosed && api.measurementStatus == Status.Of(Status.Ok)
      ensures thrown.None? && !(lastChunkSent && chunksOutstanding == 0) ==>
        api.measurementClosed == old(api.measurementClosed) && api.measurementStatus == old(api.measurementStatus)
      ensures thrown.Some? ==> chunksOutstanding == old(chunksOutstanding) && api.results.arrived == old(api.results.arrived)
      ensures api.warnings.arrived == old(api.warnings.arrived)
    {
      thrown := HandleID(j);
      if thrown.Some? {
        return;
      }
      thrown := HandleResult(j, sample);
    }

    /** The result stage: the result read with the stream's ID is delivered. */
    method HandleResult(j: Json.Json, sample: (int, int) -> real) returns (thrown: Option<Exception>)
      requires Valid()
      modifies this`chunksOutstanding, api`measurementClosed, api`measurementStatus, api.results
      ensures Valid()
      ensures thrown.None? <==> ReplyResult(j, measurementID, sample).Success?
      ensures thrown.None? ==>
        var result := ReplyResult(j, measurementID, sample).value;
        && api.results.arrived == old(api.results.arrived) + (if |result.signalData| > 0 then [result] else [])
        && chunksOutstanding == old(chunksOutstanding) - 1
      ensures thrown.None? && lastChunkSent && chunksOutstanding == 0 ==>
        api.measurementClosed && api.measurementStatus == Status.Of(Status.Ok)
      ensures thrown.None? && !(lastChunkSent && chunksOutstanding == 0) ==>
        api.measurementClosed == old(api.measurementClosed) && api.measurementStatus == old(api.measurementStatus)
      ensures thrown.Some? ==> chunksOutstanding == old(chunksOutstanding) && api.results.arrived == old(api.results.arrived)
      ensures api.measurementIDs.arrived == old(api.measurementIDs.arrived) && api.warnings.arrived == old(api.warnings.arrived)
    {
      var result := ReplyResult(j, measurementID, sample);
      if result.Failure? {
        return Some(result.error);
      }
      Deliver(result.value);
      thrown := None;
    }

    /** A 200 reply that decoded: warnings, then the ID the first time one
        arrives, then the result. A conversion that throws ends it, after
        whatever was handed to the client before it. */
    method HandleReply(j: Json.Json, dump: Json.Json -> string, sample: (int, int) -> real)
      returns (thrown: Option<Exception>)
      requires Valid()
      modifies this`measurementID, this`chunksOutstanding, api`measurementClosed, api`measurementStatus
      modifies api.measurementIDs, api.results, api.warnings
      ensures Valid()
      ensures thrown.None? <==> Reply(j, old(measurementID), dump, sample).Success?
      ensures thrown.None? ==>
        var d := Reply(j, old(measurementID), dump, sample).value;
        && api.warnings.arrived == old(api.warnings.arrived) + d.warnings
        && api.measurementIDs.arrived == old(api.measurementIDs.arrived) + (if d.newID.Some? then [d.newID.value] else [])
        && measurementID == (if d.newID.Some? then d.newID.value else old(measurementID))
        && api.results.arrived == old(api.results.arrived) + (if |d.result.signalData| > 0 then [d.result] else [])
        && chunksOutstanding == old(chunksOutstanding) - 1
      ensures thrown.None? && lastChunkSent && chunksOutstanding == 0 ==>
        api.measurementClosed && api.measurementStatus == Status.Of(Status.Ok)
      ensures thrown.None? && !(lastChunkSent && chunksOutstanding == 0) ==>
        api.measurementClosed == old(api.measurementClosed) && api.measurementStatus == old(api.measurementStatus)
      ensures thrown.Some? ==> chunksOutstanding == old(chunksOutstanding) && api.results.arrived == old(api.results.arrived)
      ensures ErrorItems(j).Failure? ==>
        api.warnings.arrived == old(api.warnings.arrived)
        && api.measurementIDs.arrived == old(api.measurementIDs.arrived) && measurementID == old(measurementID)
      ensures ErrorItems(j).Success? ==>
        var items := ErrorItems(j).value;
        api.warnings.arrived == old(api.warnings.arrived) + ItemWarnings(items[..FirstFailing(items, dump)], dump).value
      ensures ErrorItems(j).Success? && ItemWarnings(ErrorItems(j).value, dump).Failure? ==>
        api.measurementIDs.arrived == old(api.measurementIDs.arrived) && measurementID == old(measurementID)
      ensures ErrorItems(j).Success? && ItemWarnings(ErrorItems(j).value, dump).Success? && IDStage(j, old(measurementID)).Failure? ==>
        api.measurementIDs.arrived == old(api.measurementIDs.arrived) && measurementID == old(measurementID)
      ensures ErrorItems(j).Success? && ItemWarnings(ErrorItems(j).value, dump).Success? && IDStage(j, old(measurementID)).Success? ==>
        var newID := IDStage(j, old(measurementID)).value;
        && api.measurementIDs.arrived == old(api.measurementIDs.arrived) + (if newID.Some? then [newID.value] else [])
        && measurementID == (if newID.Some? then newID.value else old(measurementID))
    {
      var items := ErrorItems(j);
      if items.Failure? {
        return Some(items.error);
      }
      thrown := HandleEntries(items.value, j, dump, sample);
      FirstFailingNone(items.value, dump);
      assert items.value[..|items.value|] == items.value;
      if ItemWarnings(items.value, dump).Success? && IDStage(j, old(measurementID)).Success? {
        RestStages(j, old(measurementID), sample);
      }
    }

    /** The entries of a reply's "Error", then the stages after them. */
    method HandleEntries(items: seq<(string, Json.Json)>, j: Json.Json, dump: Json.Json -> string, sample: (int, int) -> real)
      returns (thrown: Option<Exception>)
      requires Valid()
      modifies this`measurementID, this`chunksOutstanding, api`measurementClosed, api`measurementStatus
      modifies api.measurementIDs, api.results, api.warnings
      ensures Valid()
      ensures api.warnings.arrived == old(api.warnings.arrived) + ItemWarnings(items[..FirstFailing(items, dump)], dump).value
      ensures thrown.Some? ==> chunksOutstanding == old(chunksOutstanding) && api.results.arrived == old(api.results.arrived)
      ensures ItemWarnings(items, dump).Failure? ==>
        thrown.Some? && api.measurementIDs.arrived == old(api.measurementIDs.arrived) && measurementID == old(measurementID)
      ensures ItemWarnings(items, dump).Success? && IDStage(j, old(measurementID)).Failure? ==>
        thrown.Some? && api.measurementIDs.arrived == old(api.measurementIDs.arrived) && measurementID == old(measurementID)
      ensures ItemWarnings(items, dump).Success? && IDStage(j, old(measurementID)).Success? ==>
        var newID := IDStage(j, old(measurementID)).value;
        && api.measurementIDs.arrived == old(api.measurementIDs.arrived) + (if newID.Some? then [newID.value] else [])
        && measurementID == (if newID.Some? then newID.value else old(measurementID))
      ensures thrown.None? <==>
        ItemWarnings(items, dump).Success? && IDStage(j, old(measurementID)).Success? && ReplyResult(j, measurementID, sample).Success?
      ensures thrown.None? ==>
        var result := ReplyResult(j, measurementID, sample).value;
        && api.results.arrived == old(api.results.arrived) + (if |result.signalData| > 0 then [result] else [])
        && chunksOutstanding == old(chunksOutstanding) - 1
      ensures thrown.None? && lastChunkSent && chunksOutstanding == 0 ==>
        api.measurementClosed && api.measurementStatus == Status.Of(Status.Ok)
      ensures thrown.None? && !(lastChunkSent && chunksOutstanding == 0) ==>
        api.measurementClosed == old(api.measurementClosed) && api.measurementStatus == old(api.measurementStatus)
    {
      FirstFailingNone(items, dump);
      thrown := HandleWarnings(items, dump);
      if thrown.Some? {
        return;
      }
      assert items[..|items|] == items;
      thrown := HandleRest(j, sample);
    }

    /** `handleStreamResponse` for a message of at least 13 bytes (the source
        reads the status at offset 10 unchecked). A failed reply closes the
        measurement with INTERNAL_ERROR unless its `Code` is not a string,
        which throws; an undecodable 200 reply closes it too. */
    method HandleStreamResponse(message: string, parse: string -> Option<Json.Json>,
                                dump: Json.Json -> string, sample: (int, int) -> real)
      returns (thrown: Option<Exception>)
      requires Valid() && |message| >= Framing.PayloadOffset
      modifies this`measurementID, this`chunksOutstanding, api`measurementClosed, api`measurementStatus
      modifies api.measurementIDs, api.results, api.warnings
      ensures Valid()
      ensures message[10..13] != "200" ==> chunksOutstanding == old(chunksOutstanding) && measurementID == old(measurementID)
      ensures message[10..13] != "200" && thrown.None? ==>
        api.measurementClosed && api.measurementStatus == Status.Of(Status.InternalError)
      ensures message[10..13] != "200" ==>
        (thrown.Some? <==> parse(ReplyBody(message)).Some? && StringMember(parse(ReplyBody(message)).value, "Code").Failure?
                           && Json.Contains(parse(ReplyBody(message)).value, "Code"))
      ensures message[10..13] == "200" && parse(ReplyBody(message)).None? ==>
        thrown.None? && api.measurementClosed && api.measurementStatus == DecodeFailed
        && chunksOutstanding == old(chunksOutstanding)
      ensures message[10..13] == "200" && parse(ReplyBody(message)).Some? ==>
        (thrown.None? <==> Reply(parse(ReplyBody(message)).value, old(measurementID), dump, sample).Success?)
      ensures message[10..13] == "200" && parse(ReplyBody(message)).Some? && thrown.None? ==>
        chunksOutstanding == old(chunksOutstanding) - 1
        && api.results.arrived == old(api.results.arrived) + (var d := Reply(parse(ReplyBody(message)).value, old(measurementID), dump, sample).value;
                                                              if |d.result.signalData| > 0 then [d.result] else [])
      ensures thrown.Some? ==> chunksOutstanding == old(chunksOutstanding)
    {
      var statusCode := message[10..13];
      var response := parse(ReplyBody(message));
      if statusCode != "200" {
        if response.Some? && Json.Contains(response.value, "Code") && !Json.At(response.value, "Code").JStr? {
          return Some(TypeError);
        }
        var _ := api.CloseMeasurement(Status.Of(Status.InternalError));
        return None;
      }
      if response.None? {
        var _ := api.CloseMeasurement(DecodeFailed);
        return None;
      }
      thrown := HandleReply(response.value, dump, sample);
    }
  }
}
