/** The part of nlohmann::json the client relies on: a JSON value, key lookup,
    `j[name] = v` (which turns a null value into an object), and the typed
    conversions behind `get_to` that throw `type_error` on a mismatch
    (modelled as `None`). Objects are `std::map`s, so a Dafny `map` holds them
    and `OrderedKeys.SortedKeys` gives their iteration order. */
module Json {
  import opened Wrappers
  import Text
  import OrderedKeys

  datatype Json =
    | JNull
    | JBool(b: bool)
    | JInt(i: int)
    | JFloat(r: real)
    | JStr(s: string)
    | JArr(items: seq<Json>)
    | JObj(fields: map<string, Json>)

  /** nlohmann's `items()`: an object's members in key order, an array's
      elements keyed by their index, nothing for null, and one item keyed ""
      for any other value. */
  function Items(j: Json): (r: seq<(string, Json)>)
    ensures j.JObj? ==> |r| == |j.fields| && forall i :: 0 <= i < |r| ==> r[i].0 in j.fields && r[i].1 == j.fields[r[i].0]
    ensures j.JObj? ==> forall a, b :: 0 <= a < b < |r| ==> OrderedKeys.Less(r[a].0, r[b].0)
    ensures j.JArr? ==> |r| == |j.items| && forall i :: 0 <= i < |r| ==> r[i] == (Text.NatToString(i), j.items[i])
    ensures j.JNull? ==> r == []
    ensures !(j.JObj? || j.JArr? || j.JNull?) ==> r == [("", j)]
  {
    match j
    case JObj(fields) =>
      var ks := OrderedKeys.SortedKeys(fields);
      seq(|ks|, i requires 0 <= i < |ks| => (ks[i], fields[ks[i]]))
    case JArr(items) => seq(|items|, i requires 0 <= i < |items| => (Text.NatToString(i), items[i]))
    case JNull => []
    case _ => [("", j)]
  }

  /** `j.contains(name)`: false for anything that is not an object. */
  predicate Contains(j: Json, name: string)
  {
    j.JObj? && name in j.fields
  }

  function At(j: Json, name: string): Json
    requires Contains(j, name)
  {
    j.fields[name]
  }

  /** The members of an object; none for any other value. */
  function Fields(j: Json): map<string, Json>
  {
    if j.JObj? then j.fields else map[]
  }

  /** `j[name] = v` on a null or object value (the only kinds the client writes into). */
  function Set(j: Json, name: string, v: Json): (r: Json)
    requires j.JNull? || j.JObj?
    ensures r.JObj? && Contains(r, name) && At(r, name) == v
    ensures forall k :: k != name ==> (Contains(r, k) <==> Contains(j, k))
    ensures forall k :: k != name && Contains(j, k) ==> At(r, k) == At(j, k)
  {
    JObj(Fields(j)[name := v])
  }

  /** `get_to(std::string&)`: only a string converts. */
  function AsString(v: Json): Option<string>
  {
    if v.JStr? then Some(v.s) else None
  }

  /** `get_to(bool&)`: only a boolean converts. */
  function AsBool(v: Json): Option<bool>
  {
    if v.JBool? then Some(v.b) else None
  }

  /** Truncation toward zero, as a C++ floating-to-integer conversion does. */
  function Truncate(r: real): int
  {
    if r >= 0.0 then r.Floor else -((-r).Floor)
  }

  /** `get_to` into an unsigned field whose type has `modulus` values:
      numbers and booleans convert with a `static_cast`, which keeps the low bits. */
  function AsUnsigned(v: Json, modulus: nat): (r: Option<nat>)
    requires modulus > 0
    ensures r.Some? ==> r.value < modulus
    ensures v.JInt? && 0 <= v.i < modulus ==> r == Some(v.i)
  {
    match v
    case JInt(i) => Some(i % modulus)
    case JBool(b) => Some(if b then 1 % modulus else 0)
    case JFloat(r) => Some(Truncate(r) % modulus)
    case _ => None
  }

  function AsU16(v: Json): (r: Option<Text.U16>)
    ensures v.JInt? && 0 <= v.i < 0x1_0000 ==> r == Some(v.i)
  {
    match AsUnsigned(v, 0x1_0000)
    case Some(n) => Some(n)
    case None => None
  }

  function AsU32(v: Json): (r: Option<Text.U32>)
    ensures v.JInt? && 0 <= v.i < 0x1_0000_0000 ==> r == Some(v.i)
  {
    match AsUnsigned(v, 0x1_0000_0000)
    case Some(n) => Some(n)
    case None => None
  }

  function AsU64(v: Json): (r: Option<Text.U64>)
    ensures v.JInt? && 0 <= v.i < 0x1_0000_0000_0000_0000 ==> r == Some(v.i)
  {
    match AsUnsigned(v, 0x1_0000_0000_0000_0000)
    case Some(n) => Some(n)
    case None => None
  }

  /** `get_to` into a signed 64-bit field. */
  function AsI64(v: Json): (r: Option<int>)
    ensures v.JInt? && Text.LongMin <= v.i <= Text.LongMax ==> r == Some(v.i)
  {
    match AsUnsigned(v, 0x1_0000_0000_0000_0000)
    case Some(n) => Some(if n > Text.LongMax then n - 0x1_0000_0000_0000_0000 else n)
    case None => None
  }

  /** `get_to(int&)`. */
  function AsI32(v: Json): (r: Option<int>)
    ensures v.JInt? && Text.IntMin <= v.i <= Text.IntMax ==> r == Some(v.i)
  {
    match AsUnsigned(v, 0x1_0000_0000)
    case Some(n) => Some(if n > Text.IntMax then n - 0x1_0000_0000 else n)
    case None => None
  }

  function Str(s: string): Json { JStr(s) }

  function Int(i: int): Json { JInt(i) }

  /** `get_to(double&)`. */
  function AsReal(v: Json): Option<real>
  {
    match v
    case JInt(i) => Some(i as real)
    case JBool(b) => Some(if b then 1.0 else 0.0)
    case JFloat(r) => Some(r)
    case _ => None
  }

  /** A value built from an array of strings, as `json = std::vector<std::string>` does. */
  function StringArray(items: seq<string>): (r: Json)
    ensures r.JArr? && |r.items| == |items|
    ensures forall k :: 0 <= k < |items| ==> r.items[k] == JStr(items[k])
  {
    JArr(seq(|items|, k requires 0 <= k < |items| => JStr(items[k])))
  }
}
