/** The transport-independent half of a measurement stream
    (api-cpp/src/MeasurementStreamAPI.cpp): one queue per kind of message the
    server streams back, each drained either by a registered callback or by a
    caller polling for it, and the close-once status the transports set.

    A callback is modelled by whether one is registered and by the sequence
    of values it has been handed so far, which is all a caller can observe of
    it. The lock and the condition variables serialise the methods; the model
    is the serialised run. */
module MeasurementStreamAPI {
  import opened Wrappers
  import Status

  /** `MeasurementResult`; the signal samples are kept as reals. */
  datatype MeasurementResult = MeasurementResult(
    chunkOrder: nat,
    faceID: string,
    signalData: map<string, seq<real>>,
    frameEndTimestampMS: int,
    timestampMS: int)

  datatype MeasurementMetric = MeasurementMetric(uploadRate: real)

  datatype MeasurementWarning = MeasurementWarning(warningCode: int, warningMessage: string, timestampMS: int)

  /** One of the four `std::deque`s with the callback that may drain it. */
  class ResultQueue<T> {
    /** The undelivered values, oldest first. */
    var queue: seq<T>
    var hasCallback: bool
    /** Every value handed to a callback, in the order handed over. */
    var delivered: seq<T>
    /** Every value taken by a poll, in the order taken. */
    var taken: seq<T>
    /** Every value the stream received for this queue, in arrival order. */
    ghost var arrived: seq<T>

    /** Nothing waits while a callback is registered, the waiting values are
        the latest arrivals in arrival order, and every arrival is accounted
        for exactly once. */
    ghost predicate Valid()
      reads this
    {
      && (hasCallback ==> queue == [])
      && |queue| <= |arrived|
      && queue == arrived[|arrived| - |queue|..]
      && multiset(arrived) == multiset(delivered) + multiset(taken) + multiset(queue)
    }

    constructor()
      ensures Valid()
      ensures queue == [] && !hasCallback && delivered == [] && taken == [] && arrived == []
    {
      queue := [];
      hasCallback := false;
      delivered := [];
      taken := [];
      arrived := [];
    }
  }

  /** What `waitForCompletion` does. */
  datatype Completion =
    | Completed(status: Status.CloudStatus)
    /** Waits until another thread closes the measurement. */
    | Blocked

  class Stream {
    var measurementClosed: bool
    var measurementStatus: Status.CloudStatus
    const measurementIDs: ResultQueue<string>
    const results: ResultQueue<MeasurementResult>
    const metrics: ResultQueue<MeasurementMetric>
    const warnings: ResultQueue<MeasurementWarning>

    /** The four queues are four different objects, so handling a value on
        one leaves the others as they were. */
    ghost predicate Separate()
    {
      && (measurementIDs as object) != (results as object)
      && (measurementIDs as object) != (metrics as object)
      && (measurementIDs as object) != (warnings as object)
      && (results as object) != (metrics as object)
      && (results as object) != (warnings as object)
      && (metrics as object) != (warnings as object)
    }

    /** Every queue keeps its invariant. */
    ghost predicate Valid()
      reads this, measurementIDs, results, metrics, warnings
    {
      Separate() && measurementIDs.Valid() && results.Valid() && metrics.Valid() && warnings.Valid()
    }

    /** A new stream is open with status OK and nothing queued. */
    constructor()
      ensures !measurementClosed && measurementStatus == Status.Of(Status.Ok)
      ensures fresh(measurementIDs) && fresh(results) && fresh(metrics) && fresh(warnings)
      ensures Valid()
      ensures measurementIDs.queue == [] && results.queue == [] && metrics.queue == [] && warnings.queue == []
      ensures !measurementIDs.hasCallback && !results.hasCallback && !metrics.hasCallback && !warnings.hasCallback
    {
      measurementClosed := false;
      measurementStatus := Status.Of(Status.Ok);
      measurementIDs := new ResultQueue();
      results := new ResultQueue();
      metrics := new ResultQueue();
      warnings := new ResultQueue();
    }

    /** `handle`: a value goes straight to the callback when there is one,
        otherwise to the back of the queue. The stream's status is returned. */
    method Handle<T>(q: ResultQueue<T>, result: T) returns (s: Status.CloudStatus)
      requires q.Valid()
      modifies q
      ensures q.Valid()
      ensures q.arrived == old(q.arrived) + [result]
      ensures q.hasCallback == old(q.hasCallback) && q.taken == old(q.taken)
      ensures old(q.hasCallback) ==> q.delivered == old(q.delivered) + [result] && q.queue == old(q.queue)
      ensures !old(q.hasCallback) ==> q.queue == old(q.queue) + [result] && q.delivered == old(q.delivered)
      ensures s == measurementStatus
    {
      q.arrived := q.arrived + [result];
      if q.hasCallback {
        q.delivered := q.delivered + [result];
      } else {
        q.queue := q.queue + [result];
      }
      s := measurementStatus;
    }

    /** `setCallbackVariable`: registering a callback hands it everything
        queued, oldest first, and empties the queue; clearing the callback
        leaves the queue alone. */
    method SetCallbackVariable<T>(q: ResultQueue<T>, callback: bool) returns (s: Status.CloudStatus)
      requires q.Valid()
      modifies q
      ensures q.Valid()
      ensures q.hasCallback == callback
      ensures q.arrived == old(q.arrived) && q.taken == old(q.taken)
      ensures callback ==> q.delivered == old(q.delivered) + old(q.queue) && q.queue == []
      ensures !callback ==> q.queue == old(q.queue) && q.delivered == old(q.delivered)
      ensures s == measurementStatus
    {
      q.hasCallback := callback;
      if q.hasCallback {
        var i := 0;
        while i < |q.queue|
          invariant 0 <= i <= |q.queue|
          invariant q.queue == old(q.queue) && q.arrived == old(q.arrived) && q.taken == old(q.taken)
          invariant q.hasCallback == callback
          invariant q.delivered == old(q.delivered) + q.queue[..i]
        {
          q.delivered := q.delivered + [q.queue[i]];
          i := i + 1;
        }
        assert q.queue[..i] == q.queue;
        assert multiset(q.delivered) == multiset(old(q.delivered)) + multiset(q.queue);
        q.queue := [];
      }
      s := measurementStatus;
    }

    /** `waitForQueuedData` without another thread to wake it: the oldest
        queued value with OK, or TIMEOUT with the out-parameter untouched
        (`None`) when nothing is queued, whatever the timeout. */
    method WaitForQueuedData<T>(q: ResultQueue<T>, timeoutMillis: int) returns (s: Status.CloudStatus, result: Option<T>)
      requires q.Valid()
      modifies q
      ensures q.Valid()
      ensures q.arrived == old(q.arrived) && q.hasCallback == old(q.hasCallback) && q.delivered == old(q.delivered)
      ensures old(q.queue) != [] ==> s == Status.Of(Status.Ok) && result == Some(old(q.queue)[0])
      ensures old(q.queue) != [] ==> q.queue == old(q.queue)[1..] && q.taken == old(q.taken) + [old(q.queue)[0]]
      ensures old(q.queue) == [] ==> s == Status.Of(Status.Timeout) && result == None
      ensures old(q.queue) == [] ==> q.queue == [] && q.taken == old(q.taken)
    {
      if q.queue == [] {
        // Whether the timer has run out (timeout <= 0) or the wait on the
        // condition variable ends unnotified, the answer is TIMEOUT.
        return Status.Of(Status.Timeout), None;
      }
      var front := q.queue[0];
      assert q.queue == [front] + q.queue[1..];
      q.queue := q.queue[1..];
      q.taken := q.taken + [front];
      return Status.Of(Status.Ok), Some(front);
    }

    /** `waitForCompletion`: a closed measurement reports its status; an open
        one waits for the close, or times out at once for a negative timeout. */
    method WaitForCompletion(timeoutMillis: int) returns (r: Completion)
      ensures measurementClosed ==> r == Completed(measurementStatus)
      ensures !measurementClosed && timeoutMillis < 0 ==> r == Completed(Status.Of(Status.Timeout))
      ensures !measurementClosed && timeoutMillis >= 0 ==> r == Blocked
    {
      if !measurementClosed {
        if timeoutMillis >= 0 {
          return Blocked;
        } else {
          return Completed(Status.Of(Status.Timeout));
        }
      }
      return Completed(measurementStatus);
    }

    /** `isMeasurementClosed`: the caller's status is overwritten only when
        the measurement is closed. */
    method IsMeasurementClosed(status: Status.CloudStatus) returns (closed: bool, reported: Status.CloudStatus)
      ensures closed == measurementClosed
      ensures closed ==> reported == measurementStatus
      ensures !closed ==> reported == status
    {
      closed := measurementClosed;
      reported := if measurementClosed then measurementStatus else status;
    }

    /** `closeMeasurement`: the measurement is closed with the given status,
        which is also returned. A later close replaces the status. */
    method CloseMeasurement(status: Status.CloudStatus) returns (r: Status.CloudStatus)
      modifies this`measurementClosed, this`measurementStatus
      ensures measurementClosed && measurementStatus == status && r == status
    {
      measurementClosed := true;
      measurementStatus := status;
      r := measurementStatus;
    }
  }

  /** A close is observed: the measurement reports closed with the status it
      was closed with, whatever the caller passed in. */
  method CloseIsObserved(stream: Stream, status: Status.CloudStatus, callerStatus: Status.CloudStatus)
    returns (closed: bool, reported: Status.CloudStatus)
    modifies stream
    ensures closed && reported == status
  {
    var _ := stream.CloseMeasurement(status);
    closed, reported := stream.IsMeasurementClosed(callerStatus);
  }

  /** Values handled while no callback is registered come out of polls in
      the order they arrived. */
  method FifoDelivery(stream: Stream, q: ResultQueue<string>, first: string, second: string)
    returns (a: Option<string>, b: Option<string>)
    requires q.Valid() && q.queue == [] && !q.hasCallback
    modifies q
    ensures a == Some(first) && b == Some(second)
    ensures q.queue == []
  {
    var _ := stream.Handle(q, first);
    var _ := stream.Handle(q, second);
    var s1;
    s1, a := stream.WaitForQueuedData(q, 0);
    var s2;
    s2, b := stream.WaitForQueuedData(q, 0);
  }
}
