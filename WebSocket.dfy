/** The transport-independent WebSocket front: its connection state, the
    events it reports, and how events reach the client — through the
    callback once one is installed, or queued until the client installs one
    or polls for them. The library-specific socket (opening, sending, the
    service thread) is not part of this model. */
module WebSocket {
  import opened Wrappers

  datatype State = Created | Connecting | Open | Closing | Closed

  /** An event from the socket: the error and message events carry their payloads.
      A message whose data pointer is null has `data == None`. */
  datatype Event =
    | ErrorEvent(code: int, message: string)
    | OpenEvent
    | Listen
    | Connection
    | Message(data: Option<string>, isText: bool)
    | ClosedEvent

  /** The status a socket call reports. */
  datatype CallStatus = CallOk | CallFailure | CallTimeout

  const LogError: nat := 1
  const LogWarning: nat := 2
  const LogDebug: nat := 3
  const LogTrace: nat := 4

  /** Size of the formatting buffer behind `log`, including the terminating NUL. */
  const LogBufferSize: nat := 2048

  class Socket {
    var state: State
    /** Events that arrived while no callback was installed, oldest first. */
    var pendingEvents: seq<Event>
    var hasCallback: bool
    /** Every event the client has been given so far, by its callback or by
        polling, in the order it got them. */
    var received: seq<Event>
    /** Every event the socket thread has reported, in arrival order. */
    ghost var notified: seq<Event>

    /** No event is lost, duplicated or reordered: what the client has had,
        followed by what is queued, is what arrived; and nothing waits in the
        queue while a callback is installed. */
    ghost predicate Valid()
      reads this
    {
      && received + pendingEvents == notified
      && (hasCallback ==> pendingEvents == [])
    }

    constructor()
      ensures Valid()
      ensures state == Created && pendingEvents == [] && !hasCallback && received == [] && notified == []
    {
      state := Created;
      pendingEvents := [];
      hasCallback := false;
      received := [];
      notified := [];
    }

    method SetState(s: State)
      modifies this`state
      ensures state == s
    {
      state := s;
    }

    method GetState() returns (s: State)
      ensures s == state
    {
      s := state;
    }

    /** Called from the socket thread for every event. */
    method NotifyClient(e: Event)
      requires Valid()
      modifies this`pendingEvents, this`received, this`notified
      ensures Valid() && notified == old(notified) + [e]
      ensures hasCallback ==> received == old(received) + [e] && pendingEvents == old(pendingEvents)
      ensures !hasCallback ==> pendingEvents == old(pendingEvents) + [e] && received == old(received)
    {
      notified := notified + [e];
      if hasCallback {
        received := received + [e];
      } else {
        pendingEvents := pendingEvents + [e];
      }
    }

    /** Installs (or, with `callback == false`, removes) the client's callback;
        installing one first replays the queued events in arrival order. */
    method SetEventCallback(callback: bool)
      requires Valid()
      modifies this`hasCallback, this`pendingEvents, this`received
      ensures Valid() && notified == old(notified)
      ensures hasCallback == callback
      ensures callback ==> received == old(received) + old(pendingEvents) && pendingEvents == []
      ensures !callback ==> received == old(received) && pendingEvents == old(pendingEvents)
    {
      hasCallback := callback;
      if callback {
        var i := 0;
        while i < |pendingEvents|
          invariant 0 <= i <= |pendingEvents|
          invariant hasCallback == callback
          invariant pendingEvents == old(pendingEvents)
          invariant received == old(received) + pendingEvents[..i]
        {
          received := received + [pendingEvents[i]];
          i := i + 1;
        }
        pendingEvents := [];
      }
    }

    /** Polls for an event: takes the oldest queued one if there is one. The
        status is always `CallOk`; `None` means the caller's event is left as it was. */
    method GetEvent() returns (status: CallStatus, event: Option<Event>)
      requires Valid()
      modifies this`pendingEvents, this`received
      ensures Valid() && notified == old(notified)
      ensures status == CallOk
      ensures old(pendingEvents) == [] ==> event == None && pendingEvents == [] && received == old(received)
      ensures old(pendingEvents) != [] ==>
        event == Some(old(pendingEvents)[0]) && pendingEvents == old(pendingEvents)[1..]
        && received == old(received) + [event.value]
    {
      status := CallOk;
      if pendingEvents == [] {
        event := None;
      } else {
        event := Some(pendingEvents[0]);
        received := received + [pendingEvents[0]];
        pendingEvents := pendingEvents[1..];
      }
    }
  }

  /** Whether `log` passes a message at `level` on to the log callback. */
  predicate LogEmits(logLevel: nat, level: nat, hasLogCallback: bool)
  {
    logLevel >= level && hasLogCallback
  }

  /** A configured level lets through every message at that level or below, and nothing above. */
  lemma LogLevelsNest(logLevel: nat, level: nat, other: nat)
    requires LogEmits(logLevel, level, true)
    ensures other <= level ==> LogEmits(logLevel, other, true)
    ensures LogEmits(other, level, true) <== other >= logLevel
    ensures !LogEmits(logLevel, level, false)
  {
  }

  /** What `vsnprintf` leaves in the 2048-byte buffer: the formatted text, cut to 2047 characters. */
  function LogText(formatted: string): (r: string)
    ensures |r| <= LogBufferSize - 1
    ensures |r| <= |formatted| && r == formatted[..|r|]
    ensures |formatted| < LogBufferSize ==> r == formatted
  {
    if |formatted| < LogBufferSize then formatted else formatted[..LogBufferSize - 1]
  }
}
