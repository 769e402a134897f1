/** The JSON field helpers every entity's `to_json` / `from_json` is built from
    (api-cpp/include/dfx/api/CloudTypes.hpp and api-cpp/src/CloudTypes.cpp).
    The C++ helpers write through a reference; here each returns the new value
    of the field it would write. A `get_to` that throws `type_error` is a
    `Failure`. */
module CloudTypes {
  import opened Wrappers
  import Json

  /** nlohmann's `type_error`, escaping from a conversion. */
  datatype TypeError = TypeError(key: string)

  /** `getValidField(j, name, field)`: `field` after the call, where `conv` is
      the `get_to` conversion for the field's type. */
  function GetValidField<T>(j: Json.Json, name: string, field: T, conv: Json.Json -> Option<T>): (r: Result<T, TypeError>)
    ensures !Json.Contains(j, name) || Json.At(j, name).JNull? ==> r == Success(field)
    ensures Json.Contains(j, name) && !Json.At(j, name).JNull? ==>
              (r.Success? <==> conv(Json.At(j, name)).Some?) &&
              (r.Success? ==> r.value == conv(Json.At(j, name)).value)
  {
    if Json.Contains(j, name) && !Json.At(j, name).JNull? then
      match conv(Json.At(j, name))
      case Some(v) => Success(v)
      case None => Failure(TypeError(name))
    else Success(field)
  }

  /** `setJSONFieldIfNotDefault(j, name, field)`: `j` after the call, where
      `empty` is `T{}` and `toJson` the conversion to JSON. */
  function SetJsonFieldIfNotDefault<T(==)>(j: Json.Json, name: string, field: T, empty: T, toJson: T -> Json.Json): (r: Json.Json)
    requires j.JNull? || j.JObj?
    ensures r.JNull? || r.JObj?
    ensures field == empty ==> r == j
    ensures field != empty ==> Json.Contains(r, name) && Json.At(r, name) == toJson(field)
    ensures forall k :: k != name ==> (Json.Contains(r, k) <==> Json.Contains(j, k))
    ensures forall k :: k != name && Json.Contains(j, k) ==> Json.At(r, k) == Json.At(j, k)
  {
    if field != empty then Json.Set(j, name, toJson(field)) else j
  }

  /** `jsonValidField(j, name, field)`: whether the key holds a non-null
      value, and `field` after the call. */
  function JsonValidField(j: Json.Json, name: string, field: Json.Json): (r: (bool, Json.Json))
    ensures !Json.Contains(j, name) ==> r == (false, field)
    ensures Json.Contains(j, name) ==> r.1 == Json.At(j, name) && (r.0 <==> !r.1.JNull?)
  {
    if Json.Contains(j, name) then (!Json.At(j, name).JNull?, Json.At(j, name)) else (false, field)
  }

  /** The text of an enum field read through `jsonValidField` and bound to a
      `const std::string&`: none when absent or null (the caller then uses
      UNKNOWN), and a non-string throws `type_error`. */
  function ReadEnumText(j: Json.Json, name: string): (r: Result<Option<string>, TypeError>)
    ensures !Json.Contains(j, name) || Json.At(j, name).JNull? ==> r == Success(None)
    ensures Json.Contains(j, name) && Json.At(j, name).JStr? ==> r == Success(Some(Json.At(j, name).s))
  {
    var (valid, field) := JsonValidField(j, name, Json.JNull);
    if !valid then Success(None)
    else if field.JStr? then Success(Some(field.s))
    else Failure(TypeError(name))
  }

  /** `getStringifedField(j, name, field)`: `field` after the call; `dump` is
      nlohmann's `json::dump()`. */
  function GetStringifiedField(j: Json.Json, name: string, field: string, dump: Json.Json -> string): (r: string)
    ensures !Json.Contains(j, name) || Json.At(j, name).JNull? ==> r == field
    ensures Json.Contains(j, name) && !Json.At(j, name).JNull? ==> r == dump(Json.At(j, name))
  {
    if Json.Contains(j, name) && !Json.At(j, name).JNull? then dump(Json.At(j, name)) else field
  }

  /** What `to_json` writes with `setJSONFieldIfNotDefault`, `from_json` reads
      back with `getValidField` into a default-initialised field, provided the
      conversions are inverse and a value never converts to JSON null. */
  lemma SetThenGet<T>(j: Json.Json, name: string, field: T, empty: T,
                          toJson: T -> Json.Json, conv: Json.Json -> Option<T>)
    requires j.JNull? || j.JObj?
    requires conv(toJson(field)) == Some(field) && !toJson(field).JNull?
    requires !Json.Contains(j, name)
    ensures GetValidField(SetJsonFieldIfNotDefault(j, name, field, empty, toJson), name, empty, conv) == Success(field)
  {
  }

  /** One `setJSONFieldIfNotDefault` (or guarded `j[name] = …`) step of a
      `to_json`: the key, the JSON the field converts to, and whether the
      field differs from its default, i.e. whether the step writes. */
  datatype Put = Put(name: string, value: Json.Json, write: bool)

  /** The guarded writes of a `to_json`, performed in order on `j`. */
  function PutAll(j: Json.Json, puts: seq<Put>): (r: Json.Json)
    requires j.JNull? || j.JObj?
    ensures r.JNull? || r.JObj?
    decreases |puts|
  {
    if puts == [] then j
    else PutAll(if puts[0].write then Json.Set(j, puts[0].name, puts[0].value) else j, puts[1..])
  }

  predicate DistinctNames(puts: seq<Put>)
  {
    forall a, b :: 0 <= a < b < |puts| ==> puts[a].name != puts[b].name
  }

  /** A key no step writes keeps what `j` had. */
  lemma {:induction false} PutAllOther(j: Json.Json, puts: seq<Put>, name: string)
    requires j.JNull? || j.JObj?
    requires forall a :: 0 <= a < |puts| ==> puts[a].name != name
    ensures Json.Contains(PutAll(j, puts), name) <==> Json.Contains(j, name)
    ensures Json.Contains(j, name) ==> Json.At(PutAll(j, puts), name) == Json.At(j, name)
    decreases |puts|
  {
    if puts != [] {
      var j' := if puts[0].write then Json.Set(j, puts[0].name, puts[0].value) else j;
      PutAllOther(j', puts[1..], name);
    }
  }

  /** With distinct keys, step `k` decides its key alone: present exactly
      when the field is not at its default (or `j` had it), holding the
      field's JSON when written. */
  lemma {:induction false} PutAllField(j: Json.Json, puts: seq<Put>, k: nat)
    requires j.JNull? || j.JObj?
    requires DistinctNames(puts) && k < |puts|
    ensures Json.Contains(PutAll(j, puts), puts[k].name) <==> puts[k].write || Json.Contains(j, puts[k].name)
    ensures puts[k].write ==> Json.At(PutAll(j, puts), puts[k].name) == puts[k].value
    ensures !puts[k].write && Json.Contains(j, puts[k].name) ==>
              Json.At(PutAll(j, puts), puts[k].name) == Json.At(j, puts[k].name)
    decreases |puts|
  {
    var j' := if puts[0].write then Json.Set(j, puts[0].name, puts[0].value) else j;
    if k == 0 {
      PutAllOther(j', puts[1..], puts[0].name);
    } else {
      assert puts[k].name != puts[0].name;
      PutAllField(j', puts[1..], k - 1);
    }
  }

  /** Reading step `k`'s key back from a `to_json` run on a value that did
      not have the key gives the field: its converted value when written, the
      default when not. */
  lemma ReadPut<T>(j: Json.Json, puts: seq<Put>, k: nat, default: T, conv: Json.Json -> Option<T>, field: T)
    requires j.JNull? || j.JObj?
    requires DistinctNames(puts) && k < |puts| && !Json.Contains(j, puts[k].name)
    requires puts[k].write ==> conv(puts[k].value) == Some(field) && !puts[k].value.JNull?
    requires !puts[k].write ==> field == default
    ensures GetValidField(PutAll(j, puts), puts[k].name, default, conv) == Success(field)
  {
    PutAllField(j, puts, k);
  }

  /** The same for a field read back with `getStringifedField` into an empty
      string: a written step must hold a non-null value whose dump is the field. */
  lemma ReadStringifiedPut(j: Json.Json, puts: seq<Put>, k: nat, dump: Json.Json -> string, field: string)
    requires j.JNull? || j.JObj?
    requires DistinctNames(puts) && k < |puts| && !Json.Contains(j, puts[k].name)
    requires puts[k].write ==> !puts[k].value.JNull? && dump(puts[k].value) == field
    requires !puts[k].write ==> field == ""
    ensures GetStringifiedField(PutAll(j, puts), puts[k].name, "", dump) == field
  {
    PutAllField(j, puts, k);
  }

  /** A `to_json` written as two runs of steps is the second run performed on
      the result of the first. */
  lemma {:induction false} PutAllAppend(j: Json.Json, a: seq<Put>, b: seq<Put>)
    requires j.JNull? || j.JObj?
    ensures PutAll(j, a + b) == PutAll(PutAll(j, a), b)
    decreases |a|
  {
    if a == [] {
      assert a + b == b;
    } else {
      var j' := if a[0].write then Json.Set(j, a[0].name, a[0].value) else j;
      assert (a + b)[0] == a[0] && (a + b)[1..] == a[1..] + b;
      PutAllAppend(j', a[1..], b);
    }
  }

  /** A `Put` step is exactly one `setJSONFieldIfNotDefault` call. */
  lemma PutIsSetIfNotDefault<T>(j: Json.Json, name: string, field: T, empty: T, toJson: T -> Json.Json)
    requires j.JNull? || j.JObj?
    ensures PutAll(j, [Put(name, toJson(field), field != empty)]) == SetJsonFieldIfNotDefault(j, name, field, empty, toJson)
  {
  }

  /** A `to_json` that writes nothing leaves the value null. */
  lemma {:induction false} PutAllNothing(j: Json.Json, puts: seq<Put>)
    requires j.JNull? || j.JObj?
    requires forall a :: 0 <= a < |puts| ==> !puts[a].write
    ensures PutAll(j, puts) == j
    decreases |puts|
  {
    if puts != [] { PutAllNothing(j, puts[1..]); }
  }

  /** `j` holds exactly what the steps `puts` wrote: it is null when no step
      writes, each step's key is present exactly when the step writes and then
      holds the step's value, and no other key is present. */
  ghost predicate Written(j: Json.Json, puts: seq<Put>)
  {
    && (j.JNull? <==> forall a :: 0 <= a < |puts| ==> !puts[a].write)
    && (forall a :: 0 <= a < |puts| ==> (Json.Contains(j, puts[a].name) <==> puts[a].write))
    && (forall a :: 0 <= a < |puts| && puts[a].write ==> Json.At(j, puts[a].name) == puts[a].value)
    && (forall name :: Json.Contains(j, name) ==> exists a :: 0 <= a < |puts| && puts[a].write && puts[a].name == name)
  }

  /** A key present after the steps was present before or written by one of them. */
  lemma {:induction false} PutAllKeys(j: Json.Json, puts: seq<Put>, name: string)
    requires j.JNull? || j.JObj?
    requires Json.Contains(PutAll(j, puts), name)
    ensures Json.Contains(j, name) || exists a :: 0 <= a < |puts| && puts[a].write && puts[a].name == name
    decreases |puts|
  {
    if puts != [] {
      var j' := if puts[0].write then Json.Set(j, puts[0].name, puts[0].value) else j;
      PutAllKeys(j', puts[1..], name);
      if !Json.Contains(j', name) {
        var a :| 0 <= a < |puts[1..]| && puts[1..][a].write && puts[1..][a].name == name;
        assert puts[a + 1] == puts[1..][a];
      } else if puts[0].write && puts[0].name == name {
      } else {
        assert Json.Contains(j, name);
      }
    }
  }

  /** A `to_json` with distinct keys, started from `json()`, holds exactly what
      its steps wrote. */
  lemma PutAllWritten(puts: seq<Put>)
    requires DistinctNames(puts)
    ensures Written(PutAll(Json.JNull, puts), puts)
  {
    var j := PutAll(Json.JNull, puts);
    forall a | 0 <= a < |puts|
      ensures Json.Contains(j, puts[a].name) <==> puts[a].write
      ensures puts[a].write ==> Json.At(j, puts[a].name) == puts[a].value
    {
      PutAllField(Json.JNull, puts, a);
    }
    forall name | Json.Contains(j, name)
      ensures exists a :: 0 <= a < |puts| && puts[a].write && puts[a].name == name
    {
      PutAllKeys(Json.JNull, puts, name);
    }
    if forall a :: 0 <= a < |puts| ==> !puts[a].write {
      PutAllNothing(Json.JNull, puts);
    }
  }

  /** No key of `a` is a key of `b`. */
  predicate Disjoint(a: seq<Put>, b: seq<Put>)
  {
    forall x, y :: 0 <= x < |a| && 0 <= y < |b| ==> a[x].name != b[y].name
  }

  /** Two runs with distinct keys and no key in common have distinct keys together. */
  lemma DistinctAppend(a: seq<Put>, b: seq<Put>)
    requires DistinctNames(a) && DistinctNames(b) && Disjoint(a, b)
    ensures DistinctNames(a + b)
  {
    forall x, y | 0 <= x < y < |a + b|
      ensures (a + b)[x].name != (a + b)[y].name
    {
      if y < |a| {
      } else if x < |a| {
        assert (a + b)[y] == b[y - |a|];
      } else {
        assert (a + b)[x] == b[x - |a|] && (a + b)[y] == b[y - |a|];
      }
    }
  }

  /** Runs each disjoint from `c` are disjoint from `c` together. */
  lemma DisjointAppend(a: seq<Put>, b: seq<Put>, c: seq<Put>)
    requires Disjoint(a, c) && Disjoint(b, c)
    ensures Disjoint(a + b, c)
  {
    forall x, y | 0 <= x < |a + b| && 0 <= y < |c|
      ensures (a + b)[x].name != c[y].name
    {
      if x >= |a| {
        assert (a + b)[x] == b[x - |a|];
      }
    }
  }
}
