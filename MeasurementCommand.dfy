/** What `dfxcli measure create` keeps of a measurement's stream
    (tool-dfxcli/src/MeasurementCommand.cpp): results regrouped by face and
    signal, metrics and warnings in arrival order, and the JSON document
    written to the output file. Floats are kept as reals. */
module MeasurementCommand {
  import opened Wrappers
  import Text
  import Json
  import OrderedKeys
  import API = MeasurementStreamAPI

  /** `MeasurementData::ResultData`: one entry per result that carried the
      signal, in three parallel vectors. */
  datatype ResultData = ResultData(frameEndTimestamps: seq<nat>, timestamps: seq<nat>, data: seq<seq<real>>)

  const NoResults := ResultData([], [], [])

  /** The three vectors have one entry per saved result. */
  predicate Aligned(d: ResultData)
  {
    |d.frameEndTimestamps| == |d.timestamps| == |d.data|
  }

  /** Every face's every signal is aligned. */
  predicate AllAligned(resultData: map<string, map<string, ResultData>>)
  {
    forall f, s :: f in resultData && s in resultData[f] ==> Aligned(resultData[f][s])
  }

  /** One result's entry pushed onto a signal's vectors; the `int64`
      timestamps are stored as `uint64`. */
  function Appended(d: ResultData, result: API.MeasurementResult, values: seq<real>): (r: ResultData)
    ensures |r.data| == |d.data| + 1 && r.data[|d.data|] == values && r.data[..|d.data|] == d.data
    ensures Aligned(d) ==> Aligned(r)
  {
    ResultData(d.frameEndTimestamps + [Text.ToUint64(result.frameEndTimestampMS)],
               d.timestamps + [Text.ToUint64(result.timestampMS)],
               d.data + [values])
  }

  /** The entry a signal has in `signals`, an empty one if it has none. */
  function EntryOf(signals: map<string, ResultData>, s: string): ResultData
  {
    if s in signals then signals[s] else NoResults
  }

  /** A face's signals after the signals `keys` of `result` were saved, one
      after the other (a key the result has no signal for saves nothing). */
  function SavedSignals(signals: map<string, ResultData>, result: API.MeasurementResult, keys: seq<string>)
    : map<string, ResultData>
  {
    if keys == [] then signals
    else
      var k := keys[|keys| - 1];
      var before := SavedSignals(signals, result, keys[..|keys| - 1]);
      if k in result.signalData then before[k := Appended(EntryOf(before, k), result, result.signalData[k])]
      else before
  }

  /** Saving one more signal is one more step of the fold. */
  lemma SavedSignalsSnoc(signals: map<string, ResultData>, result: API.MeasurementResult, keys: seq<string>, k: string)
    requires k in result.signalData
    ensures var before := SavedSignals(signals, result, keys);
      SavedSignals(signals, result, keys + [k]) == before[k := Appended(EntryOf(before, k), result, result.signalData[k])]
  {
    assert (keys + [k])[..|keys|] == keys;
  }

  /** Saving distinct signals gives each of them exactly one more entry and
      leaves the face's other signals alone. */
  lemma {:induction false} SavedSignalsMeaning(signals: map<string, ResultData>, result: API.MeasurementResult, keys: seq<string>)
    requires forall k :: k in keys ==> k in result.signalData
    requires forall i, j :: 0 <= i < j < |keys| ==> keys[i] != keys[j]
    ensures forall s :: s in SavedSignals(signals, result, keys) <==> s in signals || s in keys
    ensures forall s :: s in signals && s !in keys ==> SavedSignals(signals, result, keys)[s] == signals[s]
    ensures forall s :: s in keys ==>
      SavedSignals(signals, result, keys)[s] == Appended(EntryOf(signals, s), result, result.signalData[s])
  {
    if keys != [] {
      var n := |keys| - 1;
      var k := keys[n];
      var front := keys[..n];
      SavedSignalsMeaning(signals, result, front);
      assert k !in front;
      assert keys == front + [k];
      forall s | s in keys
        ensures SavedSignals(signals, result, keys)[s] == Appended(EntryOf(signals, s), result, result.signalData[s])
      {
        if s != k {
          var i :| 0 <= i < |keys| && keys[i] == s;
          assert front[i] == s;
        }
      }
    }
  }

  /** The signals saved so far for a face, none for a new one. */
  function FaceOf(resultData: map<string, map<string, ResultData>>, faceID: string): map<string, ResultData>
  {
    if faceID in resultData then resultData[faceID] else map[]
  }

  /** A face's signals once a result is saved into it: each of the result's
      signals has one more entry, ending in the signal's values (created
      empty if missing), and the face's other signals are untouched. */
  function NewFace(signals: map<string, ResultData>, result: API.MeasurementResult): (r: map<string, ResultData>)
    ensures forall s :: s in r <==> s in signals || s in result.signalData
    ensures forall s :: s in signals && s !in result.signalData ==> r[s] == signals[s]
    ensures forall s :: s in result.signalData ==>
      |r[s].data| == |EntryOf(signals, s).data| + 1
      && r[s].data[|EntryOf(signals, s).data|] == result.signalData[s]
      && r[s].data[..|EntryOf(signals, s).data|] == EntryOf(signals, s).data
  {
    map s | s in signals.Keys + result.signalData.Keys ::
      if s in result.signalData then Appended(EntryOf(signals, s), result, result.signalData[s]) else signals[s]
  }

  /** Saving the result's signals one after the other, in any order that
      visits each once, gives the same face. */
  lemma FoldIsNewFace(signals: map<string, ResultData>, result: API.MeasurementResult, keys: seq<string>)
    requires forall k :: k in keys <==> k in result.signalData
    requires forall i, j :: 0 <= i < j < |keys| ==> keys[i] != keys[j]
    ensures SavedSignals(signals, result, keys) == NewFace(signals, result)
  {
    SavedSignalsMeaning(signals, result, keys);
  }

  /** `saveResultData` as a function of the old data: the result is saved
      into its face, which is created if missing; every other face is
      untouched. */
  function SaveResult(resultData: map<string, map<string, ResultData>>, result: API.MeasurementResult)
    : (r: map<string, map<string, ResultData>>)
    ensures r.Keys == resultData.Keys + {result.faceID}
    ensures forall f :: f in resultData && f != result.faceID ==> r[f] == resultData[f]
    ensures r[result.faceID] == NewFace(FaceOf(resultData, result.faceID), result)
  {
    resultData[result.faceID := NewFace(FaceOf(resultData, result.faceID), result)]
  }

  /** Saving a result keeps every signal's three vectors the same length. */
  lemma SaveResultAligned(resultData: map<string, map<string, ResultData>>, result: API.MeasurementResult)
    requires AllAligned(resultData)
    ensures AllAligned(SaveResult(resultData, result))
  {
    var face := FaceOf(resultData, result.faceID);
    var r := SaveResult(resultData, result);
    forall f, s | f in r && s in r[f]
      ensures Aligned(r[f][s])
    {
      if f == result.faceID && s in result.signalData {
        assert Aligned(EntryOf(face, s));
      }
    }
  }

  /** Keys a `std::map` iterator visits are distinct. */
  lemma SortedDistinct(ks: seq<string>)
    requires OrderedKeys.StrictlySorted(ks)
    ensures forall i, j :: 0 <= i < j < |ks| ==> ks[i] != ks[j]
  {
    forall i, j | 0 <= i < j < |ks|
      ensures ks[i] != ks[j]
    {
      OrderedKeys.LessAsymmetric(ks[i], ks[j]);
    }
  }

  /** The three `push_back`s of `saveResultData` on one signal's entry. */
  method PushEntry(entry: ResultData, result: API.MeasurementResult, values: seq<real>) returns (r: ResultData)
    ensures r == Appended(entry, result, values)
  {
    r := entry;
    r := r.(frameEndTimestamps := r.frameEndTimestamps + [Text.ToUint64(result.frameEndTimestampMS)]);
    r := r.(timestamps := r.timestamps + [Text.ToUint64(result.timestampMS)]);
    r := r.(data := r.data + [values]);
  }

  /** The order a `std::map` iterator visits the result's signals: each key
      once. */
  method SignalOrder(signalData: map<string, seq<real>>) returns (keys: seq<string>)
    ensures forall k :: k in keys <==> k in signalData
    ensures forall i, j :: 0 <= i < j < |keys| ==> keys[i] != keys[j]
  {
    keys := OrderedKeys.SortedKeys(signalData);
    SortedDistinct(keys);
  }

  /** `MeasurementData`. */
  class MeasurementData {
    var metrics: seq<real>
    var warnings: seq<API.MeasurementWarning>
    /** Face ID, then signal ID. */
    var resultData: map<string, map<string, ResultData>>

    constructor()
      ensures metrics == [] && warnings == [] && resultData == map[]
    {
      metrics := [];
      warnings := [];
      resultData := map[];
    }

    /** `saveMetricData`: the upload rate is appended. */
    method SaveMetricData(metric: API.MeasurementMetric)
      modifies this`metrics
      ensures metrics == old(metrics) + [metric.uploadRate]
    {
      metrics := metrics + [metric.uploadRate];
    }

    /** `saveWarningData`: the warning is appended. */
    method SaveWarningData(warning: API.MeasurementWarning)
      modifies this`warnings
      ensures warnings == old(warnings) + [warning]
    {
      warnings := warnings + [warning];
    }

    /** `saveResultData`: the face's entry is created if missing, then each
        signal of the result, in key order, gets its entry created if
        missing and one value pushed onto each of its three vectors. */
    method SaveResultData(result: API.MeasurementResult)
      modifies this`resultData
      ensures resultData == SaveResult(old(resultData), result)
    {
      if result.faceID !in resultData {
        resultData := resultData[result.faceID := map[]];
      }
      var keys := SignalOrder(result.signalData);
      var results := SaveSignals(resultData[result.faceID], result, keys);
      resultData := resultData[result.faceID := results];
    }
  }

  /** The loop of `saveResultData` over the result's signals, in key order,
      on the face's signals `results` (a reference into the face map in the
      source): each signal's entry is created if missing and gets one value
      pushed onto each of its three vectors. */
  method SaveSignals(results: map<string, ResultData>, result: API.MeasurementResult, keys: seq<string>)
    returns (r: map<string, ResultData>)
    requires forall k :: k in keys <==> k in result.signalData
    requires forall i, j :: 0 <= i < j < |keys| ==> keys[i] != keys[j]
    ensures r == NewFace(results, result)
  {
    r := results;
    var i := 0;
    while i < |keys|
      invariant 0 <= i <= |keys|
      invariant r == SavedSignals(results, result, keys[..i])
    {
      var k := keys[i];
      var entry := if k in r then r[k] else NoResults;
      assert entry == EntryOf(r, k);
      entry := PushEntry(entry, result, result.signalData[k]);
      assert keys[..i + 1] == keys[..i] + [k];
      SavedSignalsSnoc(results, result, keys[..i], k);
      r := r[k := entry];
      i := i + 1;
    }
    assert keys[..i] == keys;
    FoldIsNewFace(results, result, keys);
  }

  // ---------------------------------------------------------------------------
  // to_json

  /** Every saved value of the signal is a single sample. */
  predicate Scalar(data: seq<seq<real>>)
  {
    forall i :: 0 <= i < |data| ==> |data[i]| == 1
  }

  function FloatArray(values: seq<real>): (j: Json.Json)
  {
    Json.JArr(seq(|values|, i requires 0 <= i < |values| => Json.JFloat(values[i])))
  }

  function IntArray(values: seq<int>): (j: Json.Json)
  {
    Json.JArr(seq(|values|, i requires 0 <= i < |values| => Json.JInt(values[i])))
  }

  /** A signal's "data": the samples themselves when every saved value is a
      single sample, otherwise one array per saved value. */
  function DataJson(data: seq<seq<real>>): (j: Json.Json)
    ensures j.JArr? && |j.items| == |data|
    ensures Scalar(data) ==> forall i :: 0 <= i < |data| ==> j.items[i] == Json.JFloat(data[i][0])
    ensures !Scalar(data) ==> forall i :: 0 <= i < |data| ==> j.items[i] == FloatArray(data[i])
  {
    if Scalar(data) then FloatArray(seq(|data|, i requires 0 <= i < |data| => data[i][0]))
    else Json.JArr(seq(|data|, i requires 0 <= i < |data| => FloatArray(data[i])))
  }

  /** A "data" array holds plain numbers exactly when every saved value was
      a single sample (an empty array is both). */
  lemma DataFlatIffScalar(data: seq<seq<real>>)
    requires data != []
    ensures DataJson(data).items[0].JFloat? <==> Scalar(data)
  {
    if !Scalar(data) {
      assert DataJson(data).items[0] == FloatArray(data[0]);
    }
  }

  /** The loop of `to_json` that decides between the two forms of "data". */
  method BuildData(data: seq<seq<real>>) returns (j: Json.Json)
    ensures j == DataJson(data)
  {
    var values: seq<real> := [];
    var isScalar := true;
    var i := 0;
    while i < |data|
      invariant 0 <= i <= |data|
      invariant isScalar <==> Scalar(data[..i])
      invariant isScalar ==> values == seq(i, n requires 0 <= n < i => data[n][0])
    {
      assert data[..i + 1] == data[..i] + [data[i]];
      if |data[i]| == 1 {
        values := values + [data[i][0]];
      } else {
        isScalar := false;
      }
      i := i + 1;
    }
    assert data[..i] == data;
    if isScalar {
      j := FloatArray(values);
    } else {
      j := Json.JArr(seq(|data|, n requires 0 <= n < |data| => FloatArray(data[n])));
    }
  }

  /** One signal: its data, timestamps and frame-end timestamps. */
  function SignalJson(d: ResultData): (j: Json.Json)
    ensures j.JObj? && j.fields.Keys == {"data", "timestamp", "frameEndTimestamp"}
    ensures j.fields["data"] == DataJson(d.data)
    ensures j.fields["timestamp"] == IntArray(d.timestamps) && j.fields["frameEndTimestamp"] == IntArray(d.frameEndTimestamps)
  {
    Json.JObj(map["data" := DataJson(d.data), "timestamp" := IntArray(d.timestamps),
                  "frameEndTimestamp" := IntArray(d.frameEndTimestamps)])
  }

  /** One face: an object of its signals, or null when it has none (the
      face's `json` is never written then). */
  function FaceJson(signals: map<string, ResultData>): (j: Json.Json)
    ensures j.JNull? <==> signals == map[]
    ensures j.JObj? ==> j.fields.Keys == signals.Keys
    ensures j.JObj? ==> forall s :: s in signals ==> j.fields[s] == SignalJson(signals[s])
  {
    if signals == map[] then Json.JNull
    else Json.JObj(map s | s in signals :: SignalJson(signals[s]))
  }

  function WarningJson(w: API.MeasurementWarning): Json.Json
  {
    Json.JObj(map["timestamp" := Json.JInt(w.timestampMS), "code" := Json.JInt(w.warningCode),
                  "message" := Json.JStr(w.warningMessage)])
  }

  /** `to_json(MeasurementData)`: one member per face, then "metrics" and
      "warnings" when there are any (overwriting a face of that name). A
      document with nothing to write stays null. */
  function ToJson(resultData: map<string, map<string, ResultData>>, metrics: seq<real>,
                  warnings: seq<API.MeasurementWarning>): (j: Json.Json)
    ensures j.JNull? <==> resultData == map[] && metrics == [] && warnings == []
    ensures Json.Contains(j, "metrics") <==> metrics != [] || "metrics" in resultData
    ensures metrics != [] ==> Json.At(j, "metrics") == FloatArray(metrics)
    ensures Json.Contains(j, "warnings") <==> warnings != [] || "warnings" in resultData
    ensures warnings != [] ==> Json.At(j, "warnings").JArr? && |Json.At(j, "warnings").items| == |warnings|
    ensures warnings != [] ==> forall i :: 0 <= i < |warnings| ==> Json.At(j, "warnings").items[i] == WarningJson(warnings[i])
    ensures forall f :: f in resultData && f != "metrics" && f != "warnings" ==>
      Json.Contains(j, f) && Json.At(j, f) == FaceJson(resultData[f])
    ensures forall f :: Json.Contains(j, f) ==> f in resultData || f == "metrics" || f == "warnings"
  {
    var faces := if resultData == map[] then Json.JNull else Json.JObj(map f | f in resultData :: FaceJson(resultData[f]));
    var withMetrics := if metrics != [] then Json.Set(faces, "metrics", FloatArray(metrics)) else faces;
    if warnings != [] then
      Json.Set(withMetrics, "warnings", Json.JArr(seq(|warnings|, i requires 0 <= i < |warnings| => WarningJson(warnings[i]))))
    else withMetrics
  }

  /** Aligned data gives every signal's three JSON arrays the same length. */
  lemma {:induction false} AlignedJson(resultData: map<string, map<string, ResultData>>, metrics: seq<real>,
                                       warnings: seq<API.MeasurementWarning>, f: string, s: string)
    requires AllAligned(resultData) && f in resultData && s in resultData[f]
    requires f != "metrics" && f != "warnings"
    ensures var signal := Json.At(Json.At(ToJson(resultData, metrics, warnings), f), s);
      |signal.fields["data"].items| == |signal.fields["timestamp"].items| == |signal.fields["frameEndTimestamp"].items|
  {
    assert Aligned(resultData[f][s]);
  }
}
