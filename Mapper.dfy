/** The shape every `<Enum>Mapper` in the api-cpp/src type files shares: a
    `toString` map and a `toEnum` map, with `getEnum` falling back to the
    enum's UNKNOWN for a string it does not know and `getString` falling back
    to "UNKNOWN" for a value it does not know. */
module Mapper {

  /** `<Enum>Mapper::getEnum`: `toEnum.at(s)`, or `unknown` when `at` throws. */
  function GetEnum<E>(toEnum: map<string, E>, s: string, unknown: E): (r: E)
    ensures s in toEnum ==> r == toEnum[s]
    ensures s !in toEnum ==> r == unknown
  {
    if s in toEnum then toEnum[s] else unknown
  }

  /** `<Enum>Mapper::getString`: `toString.at(e)`, or "UNKNOWN" when `at` throws. */
  function GetString<E(==)>(toString: map<E, string>, e: E): (r: string)
    ensures e in toString ==> r == toString[e]
    ensures e !in toString ==> r == "UNKNOWN"
  {
    if e in toString then toString[e] else "UNKNOWN"
  }

  /** The two tables describe one bijection. */
  predicate Inverse<E(!new)>(toString: map<E, string>, toEnum: map<string, E>)
  {
    (forall e :: e in toString ==> toString[e] in toEnum && toEnum[toString[e]] == e) &&
    (forall s :: s in toEnum ==> toEnum[s] in toString && toString[toEnum[s]] == s)
  }

  /** With inverse tables, `getEnum(getString(e)) == e` for every mapped value
      and `getString(getEnum(s)) == s` for every mapped string. */
  lemma RoundTrip<E(!new)>(toString: map<E, string>, toEnum: map<string, E>, unknown: E, e: E, s: string)
    requires Inverse(toString, toEnum)
    ensures e in toString ==> GetEnum(toEnum, GetString(toString, e), unknown) == e
    ensures s in toEnum ==> GetString(toString, GetEnum(toEnum, s, unknown)) == s
  {
  }
}
