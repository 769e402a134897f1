/** The transport-independent base classes of the entity APIs
    (api-cpp/src/DeviceAPI.cpp, OrganizationAPI.cpp, MeasurementAPI.cpp,
    SignalAPI.cpp): every operation a transport does not override reports
    UNIMPLEMENTED_FEATURE, and `retrieveMultiple` is a polyfill over
    `retrieve` that is all or nothing.

    The four polyfills are the same code over `Device`, `Organization`,
    `Measurement` and `Signal`; the model is generic in the entity. The
    transport's `retrieve` is a parameter that gives the status and the
    entity it filled in for one ID. */
module EntityAPI {
  import opened Wrappers
  import Status

  /** What each base-class operation returns unless a transport overrides it. */
  const Unimplemented: Status.CloudStatus := Status.Of(Status.UnimplementedFeature)

  /** The base-class `retrieve`: UNIMPLEMENTED_FEATURE, with the entity left
      as the caller default-constructed it. */
  function DefaultRetrieve<T>(blank: T): (retrieve: string -> (Status.CloudStatus, T))
    ensures forall id :: retrieve(id).0 == Unimplemented && !retrieve(id).0.IsOk()
  {
    id => (Unimplemented, blank)
  }

  /** The entities `retrieve` gives for `ids`, in order, or the status of the
      first ID it fails on. */
  function RetrieveAll<T>(ids: seq<string>, retrieve: string -> (Status.CloudStatus, T))
    : (r: Result<seq<T>, Status.CloudStatus>)
    ensures r.Success? ==> |r.value| == |ids|
    ensures r.Failure? ==> !r.error.IsOk()
  {
    if ids == [] then Success([])
    else if !retrieve(ids[0]).0.IsOk() then Failure(retrieve(ids[0]).0)
    else
      var rest :- RetrieveAll(ids[1..], retrieve);
      Success([retrieve(ids[0]).1] + rest)
  }

  /** When every ID retrieves, the result is each ID's entity in input order. */
  lemma {:induction false} AllRetrieved<T>(ids: seq<string>, retrieve: string -> (Status.CloudStatus, T))
    requires forall i :: 0 <= i < |ids| ==> retrieve(ids[i]).0.IsOk()
    ensures RetrieveAll(ids, retrieve).Success?
    ensures forall i :: 0 <= i < |ids| ==> RetrieveAll(ids, retrieve).value[i] == retrieve(ids[i]).1
  {
    if ids != [] {
      assert forall i :: 0 <= i < |ids[1..]| ==> retrieve(ids[1..][i]).0 == retrieve(ids[i + 1]).0;
      AllRetrieved(ids[1..], retrieve);
      var rest := RetrieveAll(ids[1..], retrieve).value;
      assert RetrieveAll(ids, retrieve).value == [retrieve(ids[0]).1] + rest;
      forall i | 1 <= i < |ids|
        ensures RetrieveAll(ids, retrieve).value[i] == retrieve(ids[i]).1
      {
        assert ids[1..][i - 1] == ids[i];
      }
    }
  }

  /** The first ID `retrieve` fails on decides the outcome: its status is
      the error, whatever the IDs after it would give. */
  lemma {:induction false} FirstFailureWins<T>(ids: seq<string>, retrieve: string -> (Status.CloudStatus, T), k: nat)
    requires k < |ids| && !retrieve(ids[k]).0.IsOk()
    requires forall i :: 0 <= i < k ==> retrieve(ids[i]).0.IsOk()
    ensures RetrieveAll(ids, retrieve) == Failure(retrieve(ids[k]).0)
  {
    if k > 0 {
      assert ids[1..][k - 1] == ids[k];
      forall i | 0 <= i < k - 1
        ensures retrieve(ids[1..][i]).0.IsOk()
      {
        assert ids[1..][i] == ids[i + 1];
      }
      FirstFailureWins(ids[1..], retrieve, k - 1);
    }
  }

  /** The outcome is a success exactly when every ID retrieves. */
  lemma {:induction false} RetrieveAllSucceedsIff<T>(ids: seq<string>, retrieve: string -> (Status.CloudStatus, T))
    ensures RetrieveAll(ids, retrieve).Success? <==> forall i :: 0 <= i < |ids| ==> retrieve(ids[i]).0.IsOk()
  {
    if ids != [] {
      assert forall i :: 0 <= i < |ids[1..]| ==> ids[1..][i] == ids[i + 1];
      RetrieveAllSucceedsIff(ids[1..], retrieve);
    }
  }

  /** `retrieveMultiple`: the entities of all the IDs, in input order,
      appended to `items` with OK; or, at the first failed `retrieve`, its
      status with `items` as it was. */
  method RetrieveMultiple<T>(ids: seq<string>, retrieve: string -> (Status.CloudStatus, T), items: seq<T>)
    returns (r: Status.CloudStatus, result: seq<T>)
    ensures RetrieveAll(ids, retrieve).Success? ==>
      r == Status.Of(Status.Ok) && result == items + RetrieveAll(ids, retrieve).value
    ensures RetrieveAll(ids, retrieve).Failure? ==> r == RetrieveAll(ids, retrieve).error && result == items
  {
    var list: seq<T> := [];
    var i := 0;
    while i < |ids|
      invariant 0 <= i <= |ids| && |list| == i
      invariant forall j :: 0 <= j < i ==> retrieve(ids[j]).0.IsOk() && list[j] == retrieve(ids[j]).1
    {
      var status, entity := retrieve(ids[i]).0, retrieve(ids[i]).1;
      if !status.IsOk() {
        FirstFailureWins(ids, retrieve, i);
        return status, items;
      }
      list := list + [entity];
      i := i + 1;
    }
    AllRetrieved(ids, retrieve);
    assert list == RetrieveAll(ids, retrieve).value;
    return Status.Of(Status.Ok), items + list;
  }

  /** Over the base class's own `retrieve`, the polyfill reports
      UNIMPLEMENTED_FEATURE for any non-empty list and appends nothing; an
      empty list is OK without a single `retrieve`. */
  lemma {:induction false} PolyfillOverDefault<T>(ids: seq<string>, blank: T)
    ensures ids != [] ==> RetrieveAll(ids, DefaultRetrieve(blank)) == Failure(Unimplemented)
    ensures ids == [] ==> RetrieveAll(ids, DefaultRetrieve(blank)) == Success([])
  {
    if ids != [] {
      FirstFailureWins(ids, DefaultRetrieve(blank), 0);
    }
  }
}
