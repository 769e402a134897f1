/** The wire format shared by the JSON and protobuf WebSocket transports.

    A request frame is a 4-digit action number, a 10-character request ID
    and the payload. The request ID repeats the action in its first four
    digits and carries a 6-digit transaction counter that wraps from 999999
    back to 1. A response frame is the 10-character request ID, a 3-character
    HTTP-like status and the payload from offset 13. */
module Framing {
  import opened Wrappers
  import Text
  import Status

  const RequestIDLength: nat := 10
  const StatusLength: nat := 3
  const PayloadOffset: nat := 13
  const MaxTransactionID: nat := 999999
  const MaxActionID: nat := 9999

  /** One call of the transaction counter: the number handed out and the counter left behind. */
  datatype Tick = Tick(id: nat, next: int)

  /** `nextID = lastTransactionID++`, wrapping to 1 (and leaving 2) past 999999. */
  function NextTransaction(last: int): (t: Tick)
    requires last >= 1
    ensures 1 <= t.id <= MaxTransactionID
    ensures t.next == t.id + 1
    ensures last <= MaxTransactionID ==> t.id == last
    ensures last > MaxTransactionID ==> t.id == 1
  {
    if last > MaxTransactionID then Tick(1, 2) else Tick(last, last + 1)
  }

  /** Counting on by one wraps to 0 after 999998. */
  lemma ModStep(m: nat)
    ensures (m + 1) % MaxTransactionID == if m % MaxTransactionID == MaxTransactionID - 1 then 0 else m % MaxTransactionID + 1
  {
    if m % MaxTransactionID == MaxTransactionID - 1 {
      assert (m + 1) % MaxTransactionID == 0;
    } else {
      assert (m + 1) % MaxTransactionID == m % MaxTransactionID + 1;
    }
  }

  /** The counter after `n` requests on a connection that started at 1. */
  ghost function CounterAfter(n: nat): (last: int)
    ensures last >= 1
  {
    if n == 0 then 1 else NextTransaction(CounterAfter(n - 1)).next
  }

  lemma {:induction false} CounterCycle(n: nat)
    ensures CounterAfter(n) == if n == 0 then 1 else (n - 1) % MaxTransactionID + 2
  {
    if n > 1 {
      CounterCycle(n - 1);
      ModStep(n - 2);
    }
  }

  /** The n-th request (from 0) of a connection gets transaction number n mod 999999 + 1:
      the numbers run 1, 2, …, 999999, 1, 2, … and never repeat within 999999 requests. */
  lemma IssuedTransactionIDs(n: nat)
    ensures NextTransaction(CounterAfter(n)).id == n % MaxTransactionID + 1
  {
    CounterCycle(n);
    if n > 0 {
      ModStep(n - 1);
    }
  }

  function Min(a: int, b: int): int { if a < b then a else b }

  lemma PowersOfTen()
    ensures Text.Pow(10, 4) == 10000 && Text.Pow(10, 6) == 1000000
  {
    assert Text.Pow(10, 2) == 100;
    assert Text.Pow(10, 4) == 10000;
  }

  /** `fmt::format("{:04}{:06}", min(actionID, 9999), nextID)`. */
  function RequestID(actionID: nat, id: nat): string
  {
    Text.DecimalPadded(Min(actionID, MaxActionID), 4) + Text.DecimalPadded(id, 6)
  }

  /** Cutting a concatenation of digit strings at the seam. */
  lemma DigitPair(a: string, b: string, x: nat, y: nat)
    requires |a| == 4 && |b| == 6 && Text.AllDigits(a) && Text.AllDigits(b)
    requires Text.ParseDecimal(a) == x && Text.ParseDecimal(b) == y
    ensures |a + b| == RequestIDLength && Text.AllDigits(a + b)
    ensures (a + b)[..4] == a && (a + b)[4..] == b
  {
  }

  /** A request ID is ten digits: the (clamped) action, then the transaction number. */
  lemma RequestIDFormat(actionID: nat, id: nat)
    requires id <= MaxTransactionID
    ensures var r := RequestID(actionID, id);
      |r| == RequestIDLength && Text.AllDigits(r) && Text.AllDigits(r[..4]) && Text.AllDigits(r[4..])
      && Text.ParseDecimal(r[..4]) == Min(actionID, MaxActionID)
      && Text.ParseDecimal(r[4..]) == id
  {
    PowersOfTen();
    var n := Min(actionID, MaxActionID);
    Text.DecimalPaddedRoundTrip(n, 4);
    Text.DecimalPaddedRoundTrip(id, 6);
    DigitPair(Text.DecimalPadded(n, 4), Text.DecimalPadded(id, 6), n, id);
  }

  /** Different actions or transaction numbers give different request IDs. */
  lemma RequestIDInjective(a1: nat, i1: nat, a2: nat, i2: nat)
    requires a1 <= MaxActionID && a2 <= MaxActionID
    requires i1 <= MaxTransactionID && i2 <= MaxTransactionID
    requires RequestID(a1, i1) == RequestID(a2, i2)
    ensures a1 == a2 && i1 == i2
  {
    RequestIDFormat(a1, i1);
    RequestIDFormat(a2, i2);
  }

  /** An action above 9999 is clamped: its request ID starts with "9999". */
  lemma RequestIDClamps(actionID: nat, id: nat)
    requires actionID > MaxActionID && id <= MaxTransactionID
    ensures RequestID(actionID, id) == RequestID(MaxActionID, id)
    ensures RequestID(actionID, id)[..4] == "9999"
  {
    assert Text.NatToString(9999) == "9999" by {
      assert Text.Digits(9, 10) == "9";
      assert Text.Digits(99, 10) == "99";
      assert Text.Digits(999, 10) == "999";
    }
  }

  /** `actionID + requestID + requestString`: the bytes sent for one request. */
  function Frame(wsCode: nat, requestID: string, payload: string): string
  {
    Text.DecimalPadded(wsCode, 4) + requestID + payload
  }

  /** How the server splits a request frame: action, request ID, payload. */
  function Unframe(f: string): Option<(nat, string, string)>
  {
    if |f| < 4 + RequestIDLength || !Text.AllDigits(f[..4]) then None
    else Some((Text.ParseDecimal(f[..4]), f[4..4 + RequestIDLength], f[4 + RequestIDLength..]))
  }

  lemma Pieces(a: string, b: string, c: string)
    ensures (a + b + c)[..|a|] == a && (a + b + c)[|a|..|a| + |b|] == b && (a + b + c)[|a| + |b|..] == c
  {
  }

  /** A frame built from a route code that fits in four digits and a 10-character ID
      splits back into exactly its parts. */
  lemma FrameRoundTrip(wsCode: nat, requestID: string, payload: string)
    requires wsCode <= MaxActionID && |requestID| == RequestIDLength
    ensures Unframe(Frame(wsCode, requestID, payload)) == Some((wsCode, requestID, payload))
  {
    PowersOfTen();
    Text.DecimalPaddedRoundTrip(wsCode, 4);
    Pieces(Text.DecimalPadded(wsCode, 4), requestID, payload);
  }

  /** In a frame the request ID's first four digits repeat the action number. */
  lemma FrameRepeatsAction(wsCode: nat, id: nat, payload: string)
    requires wsCode <= MaxActionID && id <= MaxTransactionID
    ensures var f := Frame(wsCode, RequestID(wsCode, id), payload);
      |f| >= 8 && f[..4] == f[4..8]
  {
    PowersOfTen();
    Text.DecimalPaddedRoundTrip(wsCode, 4);
    Text.DecimalPaddedRoundTrip(id, 6);
    assert Min(wsCode, MaxActionID) == wsCode;
    PrefixRepeated(Text.DecimalPadded(wsCode, 4), Text.DecimalPadded(id, 6), payload);
  }

  lemma PrefixRepeated(a: string, b: string, p: string)
    requires |a| == 4
    ensures var f := a + (a + b) + p; |f| >= 8 && f[..4] == f[4..8]
  {
    var f := a + (a + b) + p;
    assert f[..4] == a;
    assert f[4..8] == a;
  }

  /** A response after the request ID: the 3-character status and the payload. */
  datatype Response = Response(status: string, payload: string)

  /** The checks and cuts the transports make on a stored response. */
  function SplitResponse(message: string): (r: Result<Response, Status.CloudStatus>)
    ensures r.Failure? <==> |message| < PayloadOffset
    ensures r.Failure? ==> r.error.code == Status.InternalError
    ensures r.Success? ==>
      |r.value.status| == StatusLength && message == message[..RequestIDLength] + r.value.status + r.value.payload
  {
    if |message| < PayloadOffset then
      Failure(Status.WithMessage(Status.InternalError,
        "Response message was too small: " + Text.NatToString(|message|)))
    else
      Success(Response(message[RequestIDLength..PayloadOffset], message[PayloadOffset..]))
  }

  /** What the server sends back for a request. */
  function ResponseFrame(requestID: string, status: string, payload: string): string
  {
    requestID + status + payload
  }

  /** The status and payload come back out of a response frame unchanged. */
  lemma ResponseRoundTrip(requestID: string, status: string, payload: string)
    requires |requestID| == RequestIDLength && |status| == StatusLength
    ensures SplitResponse(ResponseFrame(requestID, status, payload)) == Success(Response(status, payload))
    ensures ResponseFrame(requestID, status, payload)[..RequestIDLength] == requestID
  {
    var m := requestID + status + payload;
    assert m[RequestIDLength..PayloadOffset] == status;
    assert m[PayloadOffset..] == payload;
    assert m[..RequestIDLength] == requestID;
  }

  /** The server's reply to a generated request ID is routed back to that request:
      its first ten characters are the ID, which is not a stream ID, and its
      status and payload come out unchanged. */
  lemma ReplyRoutesToRequest(wsCode: nat, id: nat, status: string, payload: string)
    requires id <= MaxTransactionID && |status| == StatusLength
    ensures var requestID := RequestID(wsCode, id);
      var m := ResponseFrame(requestID, status, payload);
      |m| >= RequestIDLength && m[..RequestIDLength] == requestID && !IsStreamID(requestID)
      && SplitResponse(m) == Success(Response(status, payload))
  {
    RequestIDFormat(wsCode, id);
    RequestIDNotStream(wsCode, id);
    ResponseRoundTrip(RequestID(wsCode, id), status, payload);
  }

  predicate OccursAt(s: string, pat: string, i: nat)
  {
    i + |pat| <= |s| && s[i..i + |pat|] == pat
  }

  /** The last position at or before `i` where `pat` occurs. */
  function LastAtOrBefore(s: string, pat: string, i: nat): (r: Option<nat>)
    ensures r.Some? ==> r.value <= i && OccursAt(s, pat, r.value)
    ensures forall j :: (if r.Some? then r.value < j else 0 <= j) && j <= i ==> !OccursAt(s, pat, j)
  {
    if OccursAt(s, pat, i) then Some(i)
    else if i == 0 then None
    else LastAtOrBefore(s, pat, i - 1)
  }

  /** `std::string::rfind`: the last position where `pat` occurs. */
  function RFind(s: string, pat: string): (r: Option<nat>)
    ensures r.Some? ==> OccursAt(s, pat, r.value)
    ensures forall j :: (if r.Some? then r.value < j else 0 <= j) ==> !OccursAt(s, pat, j)
  {
    if |pat| > |s| then None else LastAtOrBefore(s, pat, |s| - |pat|)
  }

  /** The transports' stream test `requestID.rfind("STRM") == 0`. */
  predicate IsStreamID(requestID: string)
  {
    RFind(requestID, "STRM") == Some(0)
  }

  /** A stream ID starts with "STRM"; it is the last occurrence that counts, so a
      second "STRM" later in the ID makes it an ordinary request ID. */
  lemma StreamIDMeaning(requestID: string)
    ensures IsStreamID(requestID) <==>
      OccursAt(requestID, "STRM", 0) && forall j :: 0 < j ==> !OccursAt(requestID, "STRM", j)
  {
  }

  /** Request IDs the counter generates are never mistaken for stream IDs. */
  lemma RequestIDNotStream(actionID: nat, id: nat)
    requires id <= MaxTransactionID
    ensures !IsStreamID(RequestID(actionID, id))
  {
    RequestIDFormat(actionID, id);
    NoStreamInDigits(RequestID(actionID, id));
  }

  lemma NoStreamInDigits(r: string)
    requires |r| >= 1 && Text.IsDigit(r[0])
    ensures !IsStreamID(r)
  {
    assert r[0] != "STRM"[0];
  }
}
