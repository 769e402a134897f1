/** The measurement stream over gRPC (api-cpp-grpc/src/MeasurementStreamGRPC.cpp):
    one bi-directional call per measurement, with the study sent first and
    the chunks after it, numbered in send order. Only one write may be in
    flight; the others wait in a FIFO queue that the reader thread drains,
    one request per completed write.

    The completion-queue events of `setupStream` are parameters; the reader
    thread is modelled by its WriteDone step and by `handleReadResponse`. */
module MeasurementStreamGRPC {
  import opened Wrappers
  import Text
  import Status
  import Config
  import API = MeasurementStreamAPI
  import opened MeasurementStreams

  /** `dfx::action::v1::PayloadAction`, as far as the client uses it. */
  datatype PayloadAction = Process | First | Last

  /** `StreamRequest`: the study setting that opens the call, or a chunk. */
  datatype StreamRequest =
    | Setting(studyID: string)
    | Chunk(action: PayloadAction, chunkOrder: Text.U16, sessionID: string, payload: seq<int>)

  /** What `CompletionQueue::AsyncNext` reports. */
  datatype NextStatus = Timeout | GotEvent | Shutdown

  /** The action of a chunk: LAST for the last, otherwise FIRST for the
      first, otherwise PROCESS. */
  function ChunkAction(isFirstChunk: bool, isLastChunk: bool): (r: PayloadAction)
    ensures r == Last <==> isLastChunk
    ensures r == First <==> isFirstChunk && !isLastChunk
    ensures r == Process <==> !isFirstChunk && !isLastChunk
  {
    if isLastChunk then Last else if isFirstChunk then First else Process
  }

  /** `chunkOrder++` on a `uint16_t`. */
  function NextChunkOrder(chunkOrder: Text.U16): (r: Text.U16)
    ensures chunkOrder < 0xFFFF ==> r == chunkOrder + 1
    ensures chunkOrder == 0xFFFF ==> r == 0
  {
    (chunkOrder + 1) % 0x1_0000
  }

  /** A server reply on the stream; `submittedMS` is the `submitted`
      timestamp in milliseconds, 0 when absent. */
  datatype StreamResponse = StreamResponse(submittedMS: int, body: ResponseBody)

  datatype ResponseBody =
    | SettingReply(measurementID: string)
    | ChunkResult(faceID: string, frameEndMS: int, chunkOrder: nat, signals: seq<(string, seq<real>)>)
    | MetricReply(uploadRate: real)
    | InternalErrorReply(code: int, message: string)
    | NoBody

  /** The signal data of a chunk result: `emplace` keeps the first of two
      signals with the same name. */
  function SignalMap(signals: seq<(string, seq<real>)>): (r: map<string, seq<real>>)
    ensures forall i :: 0 <= i < |signals| ==> signals[i].0 in r
    ensures forall k :: k in r ==> exists i :: FirstWith(signals, k, i) && signals[i].1 == r[k]
  {
    if |signals| == 0 then map[]
    else
      var rest := SignalMap(signals[1..]);
      var r := rest[signals[0].0 := signals[0].1];
      assert FirstWith(signals, signals[0].0, 0);
      assert forall k :: k in rest && k != signals[0].0 ==> exists i :: FirstWith(signals, k, i) && signals[i].1 == r[k] by {
        forall k | k in rest && k != signals[0].0
          ensures exists i :: FirstWith(signals, k, i) && signals[i].1 == r[k]
        {
          var i :| FirstWith(signals[1..], k, i) && signals[1..][i].1 == rest[k];
          assert FirstWith(signals, k, i + 1);
        }
      }
      r
  }

  /** `signals[i]` is the first signal named `k`. */
  ghost predicate FirstWith(signals: seq<(string, seq<real>)>, k: string, i: int)
  {
    0 <= i < |signals| && signals[i].0 == k && forall j :: 0 <= j < i ==> signals[j].0 != k
  }

  class GrpcStream {
    const api: API.Stream
    /** Whether `grpcChannel` is set: the stream has been set up. */
    var channelOpen: bool
    var measurementID: string
    var chunkOrder: Text.U16
    var isFirstChunk: bool
    var isLastChunk: bool
    var writerClosedStream: bool
    var sendingRequest: bool
    var queuedRequests: seq<StreamRequest>
    /** The requests handed to `Write`, in order. */
    var written: seq<StreamRequest>
    /** The reader thread's `writesDoneSent`. */
    var writesDoneSent: bool
    /** Every chunk passed to `sendAsyncRequest`, in order. */
    ghost var submitted: seq<StreamRequest>
    /** The part of `written` that went through `sendAsyncRequest`. */
    ghost var writtenChunks: seq<StreamRequest>

    /** The write queue is empty whenever no write is in flight, and the
        chunks written followed by the chunks queued are exactly the chunks
        submitted, in order. */
    ghost predicate Valid()
      reads this, api, api.measurementIDs, api.results, api.metrics, api.warnings
    {
      && api.Valid()
      && (!sendingRequest ==> queuedRequests == [])
      && writtenChunks + queuedRequests == submitted
    }

    /** The state `initialize` sets. */
    ghost predicate Initial()
      reads this
    {
      !channelOpen && measurementID == "" && chunkOrder == 0 && isFirstChunk && !isLastChunk && !writerClosedStream
    }

    constructor()
      ensures Valid() && Initial() && fresh(api)
      ensures !api.measurementClosed && api.measurementStatus == Status.Of(Status.Ok)
      ensures !sendingRequest && queuedRequests == [] && written == [] && !writesDoneSent
    {
      api := new API.Stream();
      channelOpen := false;
      measurementID := "";
      chunkOrder := 0;
      isFirstChunk := true;
      isLastChunk := false;
      writerClosedStream := false;
      sendingRequest := false;
      queuedRequests := [];
      written := [];
      writesDoneSent := false;
      submitted := [];
      writtenChunks := [];
    }

    /** `initialize`: the write queue and the in-flight flag are left as
        they are. */
    method Initialize()
      modifies this`channelOpen, this`measurementID, this`chunkOrder, this`isFirstChunk, this`isLastChunk,
               this`writerClosedStream
      ensures Initial()
    {
      channelOpen := false;
      measurementID := "";
      chunkOrder := 0;
      isFirstChunk := true;
      isLastChunk := false;
      writerClosedStream := false;
    }

    /** `closeStream(status)`: a closed measurement keeps and reports its
        status; otherwise it closes with the given one. */
    method CloseStream(status: Status.CloudStatus) returns (r: Status.CloudStatus)
      modifies api`measurementClosed, api`measurementStatus
      ensures old(api.measurementClosed) ==> r == old(api.measurementStatus) && api.measurementStatus == r
      ensures !old(api.measurementClosed) ==> r == status && api.measurementStatus == status
      ensures api.measurementClosed
    {
      var closed;
      closed, r := api.IsMeasurementClosed(status);
      if closed {
        return r;
      }
      r := api.CloseMeasurement(status);
    }

    /** `setupStream`. `started` and `studySent` are what the completion
        queue reports for the start of the call and for the study write, and
        `stillValid` whether the call's error string is still empty. The
        channel is set as soon as the checks pass, so a failed setup still
        needs a `reset`. */
    method SetupStream(config: Config.CloudConfig, studyID: string,
                       started: NextStatus, studySent: NextStatus, stillValid: bool)
      returns (r: Status.CloudStatus)
      modifies this`channelOpen, this`written, api`measurementClosed, api`measurementStatus
      ensures SetupGuard(old(channelOpen), studyID, config, true).Some? ==>
        r == SetupGuard(old(channelOpen), studyID, config, true).value
        && channelOpen == old(channelOpen) && written == old(written)
      ensures SetupGuard(old(channelOpen), studyID, config, true).None? ==> channelOpen
      ensures SetupGuard(old(channelOpen), studyID, config, true).None? && started == GotEvent ==>
        written == old(written) + [Setting(studyID)]
      ensures SetupGuard(old(channelOpen), studyID, config, true).None? && started == Timeout ==>
        r == Status.WithMessage(Status.Timeout, "Timeout on stream setup")
      ensures SetupGuard(old(channelOpen), studyID, config, true).None? && started == Shutdown ==>
        r == Status.WithMessage(Status.TransportClosed, "Shutdown on stream setup")
      ensures SetupGuard(old(channelOpen), studyID, config, true).None? && started == GotEvent && studySent == Timeout ==>
        r == Status.WithMessage(Status.Timeout, "Timeout on sending study id")
      ensures SetupGuard(old(channelOpen), studyID, config, true).None? && started == GotEvent && studySent == Shutdown ==>
        r == Status.WithMessage(Status.TransportClosed, "Shutdown on stream during study initialization")
      ensures (SetupGuard(old(channelOpen), studyID, config, true).None? && started == GotEvent && studySent == GotEvent
               && stillValid) ==> r == Status.Of(Status.Ok)
      ensures !old(api.measurementClosed) && r.IsOk() ==>
        SetupGuard(old(channelOpen), studyID, config, true).None? && started == GotEvent && studySent == GotEvent && stillValid
      ensures SetupGuard(old(channelOpen), studyID, config, true).None? && started == GotEvent && studySent == GotEvent
              && !stillValid && !old(api.measurementClosed) ==>
        r == Status.WithMessage(Status.InternalError, "Received unexpected event") && api.measurementClosed
    {
      var guard := SetupGuard(channelOpen, studyID, config, true);
      if guard.Some? {
        return guard.value;
      }
      channelOpen := true;
      match started {
        case Timeout => return Status.WithMessage(Status.Timeout, "Timeout on stream setup");
        case Shutdown => return Status.WithMessage(Status.TransportClosed, "Shutdown on stream setup");
        case GotEvent =>
      }
      written := written + [Setting(studyID)];
      match studySent {
        case Timeout => return Status.WithMessage(Status.Timeout, "Timeout on sending study id");
        case Shutdown => return Status.WithMessage(Status.TransportClosed, "Shutdown on stream during study initialization");
        case GotEvent =>
      }
      if stillValid {
        return Status.Of(Status.Ok);
      }
      r := CloseStream(Status.WithMessage(Status.InternalError, "Received unexpected event"));
    }

    /** `sendAsyncRequest`: written at once when no write is in flight,
        queued behind the others otherwise. */
    method SendAsyncRequest(request: StreamRequest)
      requires Valid()
      modifies this`sendingRequest, this`written, this`queuedRequests, this`submitted, this`writtenChunks
      ensures Valid()
      ensures submitted == old(submitted) + [request] && sendingRequest
      ensures measurementID == old(measurementID) && isFirstChunk == old(isFirstChunk) && isLastChunk == old(isLastChunk)
      ensures chunkOrder == old(chunkOrder)
      ensures !old(sendingRequest) ==> written == old(written) + [request] && queuedRequests == []
      ensures old(sendingRequest) ==> written == old(written) && queuedRequests == old(queuedRequests) + [request]
    {
      submitted := submitted + [request];
      if !sendingRequest {
        sendingRequest := true;
        written := written + [request];
        writtenChunks := writtenChunks + [request];
      } else {
        queuedRequests := queuedRequests + [request];
      }
    }

    /** `sendChunk`. A stream without a measurement ID yet would wait for
        one (`Blocked`); otherwise the chunk is numbered, given its action
        and submitted. */
    method SendChunk(chunk: seq<int>, isLast: bool) returns (r: API.Completion)
      requires Valid()
      modifies this`isFirstChunk, this`isLastChunk, this`chunkOrder
      modifies this`sendingRequest, this`written, this`queuedRequests, this`submitted, this`writtenChunks
      ensures Valid()
      ensures measurementID == old(measurementID) && api.measurementClosed == old(api.measurementClosed)
      ensures old(api.measurementClosed) ==>
        r == API.Completed(api.measurementStatus) && submitted == old(submitted) && chunkOrder == old(chunkOrder)
      ensures !old(api.measurementClosed) && old(measurementID) == "" ==>
        r == API.Blocked && submitted == old(submitted) && chunkOrder == old(chunkOrder)
      ensures !old(api.measurementClosed) && old(measurementID) != "" ==>
        r == API.Completed(Status.Of(Status.Ok))
        && submitted == old(submitted) + [Chunk(ChunkAction(old(isFirstChunk), isLast), old(chunkOrder), measurementID, chunk)]
        && chunkOrder == NextChunkOrder(old(chunkOrder))
        && !isFirstChunk && isLastChunk == (old(isLastChunk) || isLast)
    {
      var closed, status := api.IsMeasurementClosed(Status.Of(Status.Ok));
      if closed {
        return API.Completed(status);
      }
      if measurementID == "" {
        return API.Blocked;
      }
      SubmitChunk(chunk, isLast);
      r := API.Completed(Status.Of(Status.Ok));
    }

    /** The part of `sendChunk` after the waits: the chunk gets its action
        and the next number and is submitted. */
    method SubmitChunk(chunk: seq<int>, isLast: bool)
      requires Valid()
      modifies this`isFirstChunk, this`isLastChunk, this`chunkOrder
      modifies this`sendingRequest, this`written, this`queuedRequests, this`submitted, this`writtenChunks
      ensures Valid()
      ensures measurementID == old(measurementID)
      ensures submitted == old(submitted) + [Chunk(ChunkAction(old(isFirstChunk), isLast), old(chunkOrder), measurementID, chunk)]
      ensures chunkOrder == NextChunkOrder(old(chunkOrder))
      ensures !isFirstChunk && isLastChunk == (old(isLastChunk) || isLast)
    {
      var action := Process;
      var first, last := isFirstChunk, isLastChunk;
      if first {
        action := First;
        first := false;
      }
      if isLast {
        action := Last;
        last := isLast;
      }
      var request := Chunk(action, chunkOrder, measurementID, chunk);
      assert action == ChunkAction(old(isFirstChunk), isLast);
      isFirstChunk, isLastChunk, chunkOrder := first, last, NextChunkOrder(chunkOrder);
      SendAsyncRequest(request);
    }

    /** The reader thread's step for a completed write: the next queued
        request is written; with none queued the stream goes idle and, after
        the last chunk, tells the server it is done writing. Nothing is
        written once that was sent. */
    method WriteDone()
      requires Valid()
      modifies this`sendingRequest, this`written, this`queuedRequests, this`writesDoneSent, this`writtenChunks
      ensures Valid()
      ensures old(writesDoneSent) ==>
        written == old(written) && queuedRequests == old(queuedRequests) && sendingRequest == old(sendingRequest)
        && writesDoneSent
      ensures !old(writesDoneSent) && old(queuedRequests) != [] ==>
        written == old(written) + [old(queuedRequests)[0]] && queuedRequests == old(queuedRequests)[1..]
        && sendingRequest == old(sendingRequest) && !writesDoneSent
      ensures !old(writesDoneSent) && old(queuedRequests) == [] ==>
        written == old(written) && !sendingRequest && writesDoneSent == isLastChunk
    {
      if !writesDoneSent {
        if queuedRequests != [] {
          var front := queuedRequests[0];
          assert queuedRequests == [front] + queuedRequests[1..];
          written := written + [front];
          writtenChunks := writtenChunks + [front];
          queuedRequests := queuedRequests[1..];
        } else {
          sendingRequest := false;
          if isLastChunk {
            writesDoneSent := true;
          }
        }
      }
    }

    /** `cancel`: the close status of a closed measurement, otherwise OK
        (the out-of-band cancel changes no state here). */
    method Cancel() returns (r: Status.CloudStatus)
      ensures api.measurementClosed ==> r == api.measurementStatus
      ensures !api.measurementClosed ==> r == Status.Of(Status.Ok)
    {
      var closed;
      closed, r := api.IsMeasurementClosed(Status.Of(Status.Ok));
    }

    /** `reset`: cancel, close with OK (a closed measurement keeps its
        status, which is returned), and start over from `initialize`. */
    method Reset() returns (r: Status.CloudStatus)
      modifies this`channelOpen, this`measurementID, this`chunkOrder, this`isFirstChunk, this`isLastChunk,
               this`writerClosedStream, api`measurementClosed, api`measurementStatus
      ensures Initial() && api.measurementClosed
      ensures old(api.measurementClosed) ==> r == old(api.measurementStatus)
      ensures !old(api.measurementClosed) ==> r == Status.Of(Status.Ok)
    {
      var _ := Cancel();
      r := CloseStream(Status.Of(Status.Ok));
      Initialize();
    }

    /** `handleReadResponse`: a setting reply sets and hands over the
        measurement ID (every time), a chunk result goes to the results, a
        metric to the metrics and an internal error to the warnings. */
    method HandleReadResponse(response: StreamResponse)
      requires Valid()
      modifies this`measurementID, api.measurementIDs, api.results, api.metrics, api.warnings
      ensures Valid()
      ensures measurementID == (if response.body.SettingReply? then response.body.measurementID else old(measurementID))
      ensures api.measurementIDs.arrived == old(api.measurementIDs.arrived)
        + (if response.body.SettingReply? then [response.body.measurementID] else [])
      ensures api.results.arrived == old(api.results.arrived) + ChunkResults(response)
      ensures api.metrics.arrived == old(api.metrics.arrived)
        + (if response.body.MetricReply? then [API.MeasurementMetric(response.body.uploadRate)] else [])
      ensures api.warnings.arrived == old(api.warnings.arrived) + Warnings(response)
    {
      match response.body {
        case SettingReply(id) =>
          measurementID := id;
          HandleQueued(api.measurementIDs, id);
        case ChunkResult(faceID, frameEndMS, order, signals) =>
          HandleQueued(api.results, API.MeasurementResult(order, faceID, SignalMap(signals), frameEndMS, response.submittedMS));
        case MetricReply(rate) =>
          HandleQueued(api.metrics, API.MeasurementMetric(rate));
        case InternalErrorReply(code, message) =>
          HandleQueued(api.warnings, API.MeasurementWarning(code, message, response.submittedMS));
        case NoBody =>
      }
    }

    /** `handle` on one of the four queues: only that queue receives the
        value, and the others are as they were. */
    method HandleQueued<T>(q: API.ResultQueue<T>, value: T)
      requires Valid()
      requires q == api.measurementIDs || q == api.results || q == api.metrics || q == api.warnings
      modifies q
      ensures Valid()
      ensures q.arrived == old(q.arrived) + [value]
      ensures q != api.measurementIDs ==> api.measurementIDs.arrived == old(api.measurementIDs.arrived)
      ensures q != api.results ==> api.results.arrived == old(api.results.arrived)
      ensures q != api.metrics ==> api.metrics.arrived == old(api.metrics.arrived)
      ensures q != api.warnings ==> api.warnings.arrived == old(api.warnings.arrived)
    {
      var _ := api.Handle(q, value);
    }
  }

  /** The result a response carries: a chunk result's, with the response's
      timestamp. */
  function ChunkResults(response: StreamResponse): (r: seq<API.MeasurementResult>)
    ensures |r| == (if response.body.ChunkResult? then 1 else 0)
    ensures response.body.ChunkResult? ==>
      r[0].chunkOrder == response.body.chunkOrder && r[0].timestampMS == response.submittedMS
      && r[0].signalData.Keys == set i | 0 <= i < |response.body.signals| :: response.body.signals[i].0
  {
    match response.body
    case ChunkResult(faceID, frameEndMS, order, signals) =>
      [API.MeasurementResult(order, faceID, SignalMap(signals), frameEndMS, response.submittedMS)]
    case _ => []
  }

  /** The warning a response carries: an internal error's code and message,
      which do not close the stream. */
  function Warnings(response: StreamResponse): (r: seq<API.MeasurementWarning>)
    ensures |r| == (if response.body.InternalErrorReply? then 1 else 0)
  {
    match response.body
    case InternalErrorReply(code, message) => [API.MeasurementWarning(code, message, response.submittedMS)]
    case _ => []
  }

  /** Three chunks sent on a fresh stream that has its measurement ID are
      numbered 0, 1 and 2 and carry FIRST, PROCESS and LAST. */
  method ChunksInSendOrder(s: GrpcStream, a: seq<int>, b: seq<int>, c: seq<int>)
    requires s.Valid() && s.chunkOrder == 0 && s.isFirstChunk && !s.isLastChunk && s.measurementID != ""
    requires !s.api.measurementClosed && s.submitted == []
    modifies s
    ensures s.submitted == [Chunk(First, 0, s.measurementID, a), Chunk(Process, 1, s.measurementID, b), Chunk(Last, 2, s.measurementID, c)]
  {
    ghost var id := s.measurementID;
    var _ := s.SendChunk(a, false);
    assert s.submitted == [Chunk(First, 0, id, a)] && s.chunkOrder == 1 && !s.isFirstChunk && !s.isLastChunk;
    var _ := s.SendChunk(b, false);
    assert s.submitted == [Chunk(First, 0, id, a), Chunk(Process, 1, id, b)] && s.chunkOrder == 2;
    var _ := s.SendChunk(c, true);
  }
}
