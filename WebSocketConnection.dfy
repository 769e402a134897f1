/** The request bookkeeping the JSON and protobuf WebSocket transports share
    (`CloudWebSocketJson` and `CloudWebSocket` hold the same fields and run the
    same code for it): the transaction counter, the requests waiting for a
    reply, the replies not yet collected, the registered measurement streams,
    and whether the socket has closed and why.

    A request is split at the point where the calling thread blocks:
    `Send` is everything up to the wait, `Collect` everything after it. The
    socket thread's side is `HandleEvent`. */
module WebSocketConnection {
  import opened Wrappers
  import Text
  import Status
  import Framing
  import WebSocket

  /** How far a request got before the calling thread would block. */
  datatype SendStart =
    | Sent(requestID: string, frame: string)
    | Refused(status: Status.CloudStatus)

  class Connection {
    var lastTransactionID: int
    var closed: bool
    var closedReason: string
    /** Requests sent and still waiting for their reply. */
    var pending: set<string>
    /** Replies that arrived for a pending request, by request ID. */
    var responses: map<string, string>
    /** Stream IDs with a registered measurement stream. */
    var streams: set<string>

    ghost predicate Valid()
      reads this
    {
      lastTransactionID >= 1
    }

    constructor()
      ensures Valid()
      ensures lastTransactionID == 1 && closed && closedReason == ""
      ensures pending == {} && responses == map[] && streams == {}
    {
      lastTransactionID := 1;
      closed := true;
      closedReason := "";
      pending := {};
      responses := map[];
      streams := {};
    }

    /** Hands out the next request ID for `actionID`. */
    method GetRequestID(actionID: nat) returns (requestID: string)
      requires Valid()
      modifies this`lastTransactionID
      ensures Valid()
      ensures var t := Framing.NextTransaction(old(lastTransactionID));
        requestID == Framing.RequestID(actionID, t.id) && lastTransactionID == t.next
    {
      var nextID := lastTransactionID;
      lastTransactionID := lastTransactionID + 1;
      if nextID > Framing.MaxTransactionID {
        lastTransactionID := 2;
        nextID := 1;
      }
      var action := if actionID < Framing.MaxActionID then actionID else Framing.MaxActionID;
      requestID := Text.DecimalPadded(action, 4) + Text.DecimalPadded(nextID, 6);
    }

    method RegisterStream(streamID: string)
      modifies this`streams
      ensures streams == old(streams) + {streamID}
    {
      streams := streams + {streamID};
    }

    method DeregisterStream(streamID: string)
      modifies this`streams
      ensures streams == old(streams) - {streamID}
    {
      if streamID in streams {
        streams := streams - {streamID};
      }
    }

    /** Routes one incoming message. The result names the registered stream that
        receives it (its `handleStreamResponse`), if any. The first ten bytes are
        read as the request ID without a length check, so a message must have them. */
    method HandleMessageEvent(data: Option<string>) returns (forwardTo: Option<string>)
      requires data.Some? ==> |data.value| >= Framing.RequestIDLength
      modifies this`pending, this`responses
      ensures data.None? ==>
        forwardTo == None && pending == old(pending) && responses == old(responses)
      ensures data.Some? ==>
        var id := data.value[..Framing.RequestIDLength];
        if Framing.IsStreamID(id) then
          pending == old(pending) && responses == old(responses)
          && forwardTo == (if id in streams then Some(id) else None)
        else
          forwardTo == None
          && (id in old(pending) ==>
                pending == old(pending) - {id} && responses == old(responses)[id := data.value])
          && (id !in old(pending) ==> pending == old(pending) && responses == old(responses))
    {
      forwardTo := None;
      if data.Some? {
        var id := data.value[..Framing.RequestIDLength];
        if !Framing.IsStreamID(id) {
          if id in pending {
            pending := pending - {id};
            responses := responses[id := data.value];
          }
        } else if id in streams {
          forwardTo := Some(id);
        }
      }
    }

    /** The socket thread's handler for every event. */
    method HandleEvent(event: WebSocket.Event) returns (forwardTo: Option<string>)
      requires event.Message? && event.data.Some? ==> |event.data.value| >= Framing.RequestIDLength
      modifies this`closed, this`closedReason, this`pending, this`responses
      ensures event.ErrorEvent? ==>
        closed && closedReason == event.message && pending == {} && responses == map[] && forwardTo == None
      ensures event.ClosedEvent? ==>
        closed && closedReason == "received closed" && pending == {} && responses == map[] && forwardTo == None
      ensures event.OpenEvent? || event.Listen? || event.Connection? ==>
        closed == old(closed) && closedReason == old(closedReason)
        && pending == old(pending) && responses == old(responses) && forwardTo == None
      ensures event.Message? ==> closed == old(closed) && closedReason == old(closedReason)
    {
      forwardTo := None;
      match event {
        case ErrorEvent(_, message) =>
          closedReason := message;
          closed := true;
          responses := map[];
          pending := {};
        case OpenEvent =>
        case Listen =>
        case Connection =>
        case Message(data, _) =>
          forwardTo := HandleMessageEvent(data);
        case ClosedEvent =>
          closedReason := "received closed";
          closed := true;
          responses := map[];
          pending := {};
      }
    }

    /** A request up to the wait: the request ID is drawn first (so the counter
        advances even when the socket is not open); a socket that is not open
        refuses with the closing reason and leaves `pending` alone; otherwise
        the frame is sent and the request becomes pending. */
    method Send(wsCode: nat, payload: string, socketState: WebSocket.State) returns (r: SendStart)
      requires Valid()
      modifies this`lastTransactionID, this`pending
      ensures Valid()
      ensures lastTransactionID == Framing.NextTransaction(old(lastTransactionID)).next
      ensures socketState != WebSocket.Open ==>
        r == Refused(Status.WithMessage(Status.TransportClosed, old(closedReason))) && pending == old(pending)
      ensures socketState == WebSocket.Open ==>
        r.Sent? && r.requestID == Framing.RequestID(wsCode, Framing.NextTransaction(old(lastTransactionID)).id)
        && r.frame == Framing.Frame(wsCode, r.requestID, payload)
        && pending == old(pending) + {r.requestID}
    {
      var requestID := GetRequestID(wsCode);
      if socketState != WebSocket.Open {
        r := Refused(Status.WithMessage(Status.TransportClosed, closedReason));
        return;
      }
      var strRequest := Framing.Frame(wsCode, requestID, payload);
      pending := pending + {requestID};
      r := Sent(requestID, strRequest);
    }

    /** A request after the wake-up: a closed connection reports the closing
        reason; a missing reply is an internal error; otherwise the reply is
        taken out of `responses` and split into status and payload. */
    method Collect(requestID: string) returns (r: Result<Framing.Response, Status.CloudStatus>)
      modifies this`responses
      ensures closed ==>
        r == Failure(Status.WithMessage(Status.TransportClosed, closedReason)) && responses == old(responses)
      ensures !closed && requestID !in old(responses) ==>
        r == Failure(Status.Of(Status.InternalError)) && responses == old(responses)
      ensures !closed && requestID in old(responses) ==>
        r == Framing.SplitResponse(old(responses)[requestID]) && responses == old(responses) - {requestID}
    {
      if closed {
        return Failure(Status.WithMessage(Status.TransportClosed, closedReason));
      }
      if requestID !in responses {
        return Failure(Status.Of(Status.InternalError));
      }
      var message := responses[requestID];
      responses := responses - {requestID};
      r := Framing.SplitResponse(message);
    }
  }

  /** The server answers a pending request: the reply frame carries the request
      ID, which is not a stream ID, so the reply is stored for that request,
      where it splits back into the status and payload sent. */
  method Answer(c: Connection, requestID: string, wsCode: nat, n: nat, status: string, reply: string)
    requires requestID == Framing.RequestID(wsCode, n)
    requires n <= Framing.MaxTransactionID && |status| == Framing.StatusLength
    requires requestID in c.pending
    modifies c`pending, c`responses
    ensures c.responses == old(c.responses)[requestID := Framing.ResponseFrame(requestID, status, reply)]
    ensures c.pending == old(c.pending) - {requestID}
    ensures requestID in c.responses
    ensures Framing.SplitResponse(c.responses[requestID]) == Success(Framing.Response(status, reply))
  {
    Framing.ReplyRoutesToRequest(wsCode, n, status, reply);
    var forwardTo := c.HandleMessageEvent(Some(Framing.ResponseFrame(requestID, status, reply)));
  }

  /** A request the socket accepted is answered by the reply routed to it: once the
      reply carrying its ID arrives, collecting returns that reply's status and payload. */
  method Exchange(c: Connection, wsCode: nat, payload: string, status: string, reply: string)
      returns (sent: SendStart, result: Result<Framing.Response, Status.CloudStatus>)
    requires c.Valid() && !c.closed && |status| == Framing.StatusLength
    modifies c
    ensures sent.Sent? && result == Success(Framing.Response(status, reply))
  {
    var n := Framing.NextTransaction(c.lastTransactionID).id;
    sent := c.Send(wsCode, payload, WebSocket.Open);
    Answer(c, sent.requestID, wsCode, n, status, reply);
    ghost var stored := c.responses[sent.requestID];
    assert Framing.SplitResponse(stored) == Success(Framing.Response(status, reply));
    assert !c.closed;
    result := c.Collect(sent.requestID);
  }
}
