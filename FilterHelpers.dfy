/** Typed lookups in a list call's string filter map
    (api-cpp/include/dfx/api/types/FilterHelpers.hpp). `std::stoi` and
    `std::stol` throw on text that holds no number or a number out of range;
    those exceptions escape the helpers and are returned as a `Failure`. */
module FilterHelpers {
  import opened Wrappers
  import Text

  /** The exception `std::stoi` / `std::stol` let escape. */
  datatype ParseException = InvalidArgument | OutOfRange

  /** `getFilterBool`: only the exact text "true" reads as true. */
  function GetFilterBool<K(==)>(filters: map<K, string>, key: K, default: bool): (r: bool)
    ensures r <==> (key in filters && filters[key] == "true") || default
  {
    if key in filters && filters[key] == "true" then true else default
  }

  /** `getFilterString`. */
  function GetFilterString<K(==)>(filters: map<K, string>, key: K, default: string): (r: string)
    ensures key in filters ==> r == filters[key]
    ensures key !in filters ==> r == default
  {
    if key in filters then filters[key] else default
  }

  /** The lookup both integer helpers share: absent gives the default, a
      number that does not use up the whole text gives the default, and a
      parse exception escapes. */
  function Lookup<K(==)>(filters: map<K, string>, key: K, default: int, lo: int, hi: int): (r: Result<int, ParseException>)
  {
    if key !in filters then Success(default)
    else
      match Text.StringToLong(filters[key], lo, hi)
      case InvalidArgument => Failure(InvalidArgument)
      case OutOfRange => Failure(OutOfRange)
      case Parsed(v, consumed) => if consumed != |filters[key]| then Success(default) else Success(v)
  }

  /** `getFilterInt32`. */
  function GetFilterInt32<K(==)>(filters: map<K, string>, key: K, default: int): (r: Result<int, ParseException>)
    requires Text.IntMin <= default <= Text.IntMax
    ensures key !in filters ==> r == Success(default)
    ensures r.Success? ==> Text.IntMin <= r.value <= Text.IntMax
  {
    Lookup(filters, key, default, Text.IntMin, Text.IntMax)
  }

  /** `getFilterInt64` as written: `std::stol`'s result is stored in a 32-bit
      `int` before it is returned. With a 64-bit `long` (LP64: Linux, macOS),
      as modelled, only its low 32 bits survive; with a 32-bit `long` (LLP64:
      Windows) `std::stol` would instead throw `out_of_range` beyond the
      32-bit range, which is not modelled. */
  function GetFilterInt64(filters: map<string, string>, key: string, default: int): (r: Result<int, ParseException>)
    requires Text.LongMin <= default <= Text.LongMax
    ensures key !in filters ==> r == Success(default)
    ensures r.Success? ==> Text.IntMin <= r.value <= Text.IntMax || r.value == default
  {
    if key !in filters then Success(default)
    else
      match Text.Stol(filters[key])
      case InvalidArgument => Failure(InvalidArgument)
      case OutOfRange => Failure(OutOfRange)
      case Parsed(v, consumed) => if consumed != |filters[key]| then Success(default) else Success(Text.ToInt32(v))
  }

  /** `getFilterInt64` as evidently intended: the whole 64-bit value. */
  function GetFilterInt64Intended(filters: map<string, string>, key: string, default: int): (r: Result<int, ParseException>)
    requires Text.LongMin <= default <= Text.LongMax
    ensures key !in filters ==> r == Success(default)
    ensures r.Success? ==> Text.LongMin <= r.value <= Text.LongMax
  {
    Lookup(filters, key, default, Text.LongMin, Text.LongMax)
  }

  /** A filter written with `std::to_string` reads back as the same number. */
  lemma Int32RoundTrip(key: string, i: int, default: int)
    requires Text.IntMin <= i <= Text.IntMax && Text.IntMin <= default <= Text.IntMax
    ensures GetFilterInt32(map[key := Text.IntToString(i)], key, default) == Success(i)
  {
    Text.ParseIntToString(i, Text.IntMin, Text.IntMax);
  }

  lemma Int64IntendedRoundTrip(key: string, i: int, default: int)
    requires Text.LongMin <= i <= Text.LongMax && Text.LongMin <= default <= Text.LongMax
    ensures GetFilterInt64Intended(map[key := Text.IntToString(i)], key, default) == Success(i)
  {
    Text.ParseIntToString(i, Text.LongMin, Text.LongMax);
  }

  /** The truncation: the text of 2^31 comes back as -2^31, while the intended
      helper returns 2^31. */
  lemma Int64Truncates(key: string)
    ensures GetFilterInt64(map[key := Text.IntToString(0x8000_0000)], key, 0) == Success(-0x8000_0000)
    ensures GetFilterInt64Intended(map[key := Text.IntToString(0x8000_0000)], key, 0) == Success(0x8000_0000)
  {
    Text.ParseIntToString(0x8000_0000, Text.LongMin, Text.LongMax);
  }

  /** A number followed by anything that does not start with a digit gives
      the default rather than the number or an error. */
  lemma TrailingTextGivesDefault(key: string, i: nat, suffix: string, default: int)
    requires i <= Text.IntMax && Text.IntMin <= default <= Text.IntMax
    requires |suffix| > 0 && !Text.IsDigit(suffix[0])
    ensures GetFilterInt32(map[key := Text.NatToString(i) + suffix], key, default) == Success(default)
  {
    var d := Text.NatToString(i);
    var s := d + suffix;
    Text.ParseNatToString(i);
    assert Text.IsDigit(s[0]);
    assert s[0..|d|] == d;
    Text.DigitRunUpTo(s, 0, |d|);
  }
}
