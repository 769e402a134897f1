/** The client configuration (`CloudConfig`) and how it is loaded from a YAML
    file: path handling, the YAML node conversions the loader relies on, the
    layering of defaults, top level, context and service, and the text form
    printed by `operator<<`.

    The YAML document is what the parser hands back: a tree of `Node`s, or
    the message of the parse exception. Environment variables are passed in
    as what `std::getenv` finds, `None` when unset. */
module Config {
  import opened Wrappers
  import Text
  import Status

  datatype CloudConfig = CloudConfig(
    contextID: string,
    transportType: string,
    authEmail: string,
    authPassword: string,
    authOrg: string,
    license: string,
    serverHost: string,
    serverPort: Text.U16,
    studyID: string,
    rootCA: string,
    authToken: string,
    deviceToken: string,
    deviceID: string,
    timeoutMillis: Text.U16,
    listLimit: Text.U16,
    secure: bool,
    skipVerify: bool)

  // ---------------------------------------------------------------------------
  // Paths

  /** The character `k` places from the end of `s`. */
  function FromEnd(s: string, k: nat): char
    requires k < |s|
  {
    s[|s| - 1 - k]
  }

  /** `ends_with`: the characters are compared from the back. */
  function EndsWith(value: string, ending: string): (r: bool)
    ensures r <==> |ending| <= |value| && value[|value| - |ending|..] == ending
  {
    if |ending| > |value| then false
    else
      var same := forall k :: 0 <= k < |ending| ==> FromEnd(ending, k) == FromEnd(value, k);
      assert same ==> value[|value| - |ending|..] == ending by {
        if same {
          forall j | 0 <= j < |ending|
            ensures value[|value| - |ending|..][j] == ending[j]
          {
            assert FromEnd(ending, |ending| - 1 - j) == FromEnd(value, |ending| - 1 - j);
          }
        }
      }
      assert value[|value| - |ending|..] == ending ==> same by {
        if value[|value| - |ending|..] == ending {
          forall k | 0 <= k < |ending|
            ensures FromEnd(ending, k) == FromEnd(value, k)
          {
            assert value[|value| - |ending|..][|ending| - 1 - k] == ending[|ending| - 1 - k];
          }
        }
      }
      same
  }

  /** `expandHomeTilde`: a leading `~` is replaced by `$HOME`, or by `%USERPROFILE%`
      when `HOME` is empty; with both empty, and for every other path, the path is
      returned as given. `home` and `userProfile` are what `std::getenv` finds,
      `None` for an unset variable: on POSIX `getEnv` assigns the null pointer
      `getenv` then returns to a `std::string`, which is undefined behaviour, so
      the result is `None` whenever a variable the expansion reads is unset. The
      variables are read only for a path starting with `~`, and `USERPROFILE`
      only when `HOME` is set but empty. */
  function ExpandHomeTilde(filePath: string, home: Option<string>, userProfile: Option<string>): (r: Option<string>)
    ensures |filePath| == 0 || filePath[0] != '~' ==> r == Some(filePath)
    ensures |filePath| > 0 && filePath[0] == '~' ==>
      (r.None? <==> home.None? || (home.value == "" && userProfile.None?))
    ensures |filePath| > 0 && filePath[0] == '~' && r.Some? ==>
      var prefix := if home.value != "" then home.value else if userProfile.value != "" then userProfile.value else "~";
      r.value == prefix + filePath[1..]
  {
    if |filePath| > 0 && filePath[0] == '~' then
      match home
      case None => None
      case Some(h) =>
        if h != "" then Some(h + filePath[1..])
        else
          match userProfile
          case None => None
          case Some(u) => if u != "" then Some(u + filePath[1..]) else Some(filePath)
    else Some(filePath)
  }

  // ---------------------------------------------------------------------------
  // YAML nodes and the conversions `as<T>()` performs

  datatype Node =
    | Null
    | Scalar(text: string)
    | Sequence(items: seq<Node>)
    | Mapping(entries: map<string, Node>)

  /** A YAML exception the loader does not catch: a failed conversion, carrying
      the key being read; `BadSubscript`, thrown by `node[key]` on a scalar node;
      and `InvalidNode`, thrown by subscripting one of the key/value pairs that
      iterating a mapping yields, which is not a valid node itself. */
  datatype YamlError = BadConversion(key: string) | BadSubscript(key: string) | InvalidNode

  /** The node `node[key]` refers to when it tests true in `if (node[key])`:
      present only for a mapping holding the key. The non-const subscript the
      loader uses gives an undefined node, which tests false, for null and for a
      sequence (which it turns into a mapping first); on a scalar it throws
      `BadSubscript`, which the readers below check before they look up. */
  function Lookup(node: Node, key: string): (r: Option<Node>)
    ensures r.Some? <==> node.Mapping? && key in node.entries
  {
    if node.Mapping? && key in node.entries then Some(node.entries[key]) else None
  }

  /** What `for (auto&& item : node)` hands to the loop body that subscripts each
      item: a sequence's items in order, and nothing for a missing key, null or a
      scalar. Iterating a mapping yields key/value pairs, and subscripting one
      throws `InvalidNode`, so a non-empty mapping fails at its first item. */
  function Items(node: Option<Node>): (r: Result<seq<Node>, YamlError>)
    ensures r.Failure? <==> node.Some? && node.value.Mapping? && |node.value.entries| > 0
    ensures r.Failure? ==> r.error == InvalidNode
    ensures r.Success? && node.Some? && node.value.Sequence? ==> r.value == node.value.items
    ensures r.Success? && !(node.Some? && node.value.Sequence?) ==> r.value == []
  {
    if node.Some? && node.value.Sequence? then Success(node.value.items)
    else if node.Some? && node.value.Mapping? && |node.value.entries| > 0 then Failure(InvalidNode)
    else Success([])
  }

  /** The entries `node[key]` holds, as the loader's loops visit them; `node[key]`
      throws on a scalar. */
  function Children(node: Node, key: string): (r: Result<seq<Node>, YamlError>)
    ensures node.Scalar? ==> r == Failure(BadSubscript(key))
    ensures !node.Scalar? ==> r == Items(Lookup(node, key))
  {
    if node.Scalar? then Failure(BadSubscript(key)) else Items(Lookup(node, key))
  }

  /** `as<std::string>()`: a null node reads as "null", a scalar as its text. */
  function AsString(node: Node): (r: Option<string>)
    ensures r.Some? <==> node.Null? || node.Scalar?
    ensures node.Scalar? ==> r == Some(node.text)
  {
    match node
    case Null => Some("null")
    case Scalar(t) => Some(t)
    case _ => None
  }

  function LowerChar(c: char): char
  {
    if 'A' <= c <= 'Z' then (c as int + 32) as char else c
  }

  function Lower(s: string): (r: string)
    ensures |r| == |s|
  {
    seq(|s|, k requires 0 <= k < |s| => LowerChar(s[k]))
  }

  predicate IsLowerAscii(c: char) { 'a' <= c <= 'z' }
  predicate IsUpperAscii(c: char) { 'A' <= c <= 'Z' }

  /** yaml-cpp accepts a boolean word in lower case, in upper case, or capitalised. */
  predicate FlexibleCase(s: string)
  {
    || (forall k :: 0 <= k < |s| ==> !IsUpperAscii(s[k]))
    || (forall k :: 0 <= k < |s| ==> !IsLowerAscii(s[k]))
    || (|s| > 0 && !IsLowerAscii(s[0]) && forall k :: 1 <= k < |s| ==> !IsUpperAscii(s[k]))
  }

  /** `as<bool>()`: y/yes/true/on and n/no/false/off, case-flexible. */
  function AsBool(node: Node): (r: Option<bool>)
    ensures r.Some? ==> node.Scalar? && FlexibleCase(node.text)
    ensures r == Some(true) ==> Lower(node.text) in {"y", "yes", "true", "on"}
    ensures r == Some(false) ==> Lower(node.text) in {"n", "no", "false", "off"}
  {
    if !node.Scalar? || !FlexibleCase(node.text) then None
    else
      var w := Lower(node.text);
      if w == "y" || w == "yes" || w == "true" || w == "on" then Some(true)
      else if w == "n" || w == "no" || w == "false" || w == "off" then Some(false)
      else None
  }

  /** The value of `c` as a digit of `base` (up to 16, either case), if it is one. */
  function BaseDigit(c: char, base: nat): (r: Option<nat>)
    ensures r.Some? ==> r.value < base
  {
    var d: int := if '0' <= c <= '9' then c as int - '0' as int
                  else if 'a' <= c <= 'f' then c as int - 'a' as int + 10
                  else if 'A' <= c <= 'F' then c as int - 'A' as int + 10
                  else 16;
    if d < base then Some(d as nat) else None
  }

  /** The value of `s` read in `base`, most significant digit first; `None` when
      a character is not a digit of the base. */
  function ParseInBase(s: string, base: nat): Option<nat>
  {
    if s == [] then Some(0)
    else
      match (ParseInBase(s[..|s| - 1], base), BaseDigit(s[|s| - 1], base))
      case (Some(m), Some(d)) => Some(m * base + d)
      case _ => None
  }

  /** The digits after an optional sign, read as a stream whose base flags are
      cleared reads them: "0x" or "0X" then hexadecimal digits, a leading "0"
      then octal digits, and decimal digits otherwise. */
  function ParseMagnitude(s: string): Option<nat>
  {
    if |s| >= 2 && s[0] == '0' && (s[1] == 'x' || s[1] == 'X') then
      if |s| == 2 then None else ParseInBase(s[2..], 16)
    else if |s| >= 1 && s[0] == '0' then ParseInBase(s[1..], 8)
    else if |s| == 0 then None
    else ParseInBase(s, 10)
  }

  /** An integer with an optional sign and a base taken from its prefix, all of
      the text consumed. */
  function ParseSigned(s: string): (r: Option<int>)
    ensures r.Some? ==> |s| > 0
  {
    var negative := |s| > 0 && s[0] == '-';
    var digits := if |s| > 0 && (s[0] == '-' || s[0] == '+') then s[1..] else s;
    match ParseMagnitude(digits)
    case None => None
    case Some(m) =>
      var magnitude: int := m;
      Some(if negative then -magnitude else magnitude)
  }

  lemma DigitCharValue(d: nat, base: nat)
    requires d < base <= 16
    ensures BaseDigit(Text.DigitChar(d), base) == Some(d)
  {
    if d < 10 {
      assert Text.DigitChar(d) as int == '0' as int + d;
    } else {
      assert Text.DigitChar(d) as int == 'a' as int + d - 10;
    }
  }

  lemma QuotientRemainder(n: nat, base: nat) returns (q: nat, r: nat)
    requires 2 <= base <= n
    ensures q == n / base && r == n % base
    ensures q * base + r == n && q < n && r < base
  {
    q, r := n / base, n % base;
  }

  /** One more digit multiplies the value so far by the base and adds the digit. */
  lemma ParseSnoc(prefix: string, c: char, base: nat, m: nat, d: nat)
    requires ParseInBase(prefix, base) == Some(m) && BaseDigit(c, base) == Some(d)
    ensures ParseInBase(prefix + [c], base) == Some(m * base + d)
  {
    assert (prefix + [c])[..|prefix|] == prefix;
  }

  /** The digits `std::to_string` and the hexadecimal and octal formats write
      read back as the number. */
  lemma {:induction false} ReadDigits(n: nat, base: nat)
    requires 2 <= base <= 16
    ensures ParseInBase(Text.Digits(n, base), base) == Some(n)
    decreases n
  {
    var s := Text.Digits(n, base);
    if n < base {
      DigitCharValue(n, base);
      assert s[..0] == [];
      assert ParseInBase(s, base) == Some(0 * base + n);
    } else {
      var q, r := QuotientRemainder(n, base);
      ReadDigits(q, base);
      DigitCharValue(r, base);
      assert s == Text.Digits(q, base) + [Text.DigitChar(r)];
      ParseSnoc(Text.Digits(q, base), Text.DigitChar(r), base, q, r);
    }
  }

  /** Those digits start with a digit other than 0 unless the number is 0. */
  lemma {:induction false} LeadingDigit(n: nat, base: nat)
    requires 2 <= base <= 16 && n > 0
    ensures Text.Digits(n, base)[0] != '0'
    decreases n
  {
    if n < base {
      DigitCharValue(0, base);
      DigitCharValue(n, base);
    } else {
      LeadingDigit(n / base, base);
      assert Text.Digits(n, base)[0] == Text.Digits(n / base, base)[0];
    }
  }

  /** Those digits start with a digit of the base. */
  lemma {:induction false} FirstDigit(n: nat, base: nat)
    requires 2 <= base <= 16
    ensures BaseDigit(Text.Digits(n, base)[0], base).Some?
    decreases n
  {
    if n < base {
      DigitCharValue(n, base);
    } else {
      FirstDigit(n / base, base);
      assert Text.Digits(n, base)[0] == Text.Digits(n / base, base)[0];
    }
  }

  /** The decimal digits of a natural number read back as it: a leading digit
      other than 0 keeps them decimal, and "0" reads as 0. */
  lemma DecimalMagnitude(m: nat)
    ensures ParseMagnitude(Text.NatToString(m)) == Some(m)
    ensures Text.IsDigit(Text.NatToString(m)[0])
  {
    var d := Text.NatToString(m);
    Text.DigitsAreDigits(m);
    assert Text.IsDigit(d[0]);
    if m > 0 {
      ReadDigits(m, 10);
      LeadingDigit(m, 10);
      assert ParseMagnitude(d) == Some(m);
    } else {
      assert d == "0";
      assert ParseMagnitude(d) == ParseInBase([], 8);
    }
  }

  /** `std::to_string` of an integer reads back as that integer. */
  lemma DecimalReadsBack(i: int)
    ensures ParseSigned(Text.IntToString(i)) == Some(i)
  {
    var m: nat := if i < 0 then -i else i;
    var d := Text.NatToString(m);
    DecimalMagnitude(m);
    var t := Text.IntToString(i);
    if i < 0 {
      assert t == "-" + d && t[1..] == d;
    } else {
      assert t == d;
    }
  }

  /** A number written in hexadecimal after "0x" reads back as itself. */
  lemma HexReadsBack(n: nat)
    ensures ParseSigned("0x" + Text.Digits(n, 16)) == Some(n)
  {
    var t := "0x" + Text.Digits(n, 16);
    ReadDigits(n, 16);
    assert t[2..] == Text.Digits(n, 16);
    assert ParseMagnitude(t) == Some(n);
  }

  /** A number written in octal after a "0" reads back as itself. */
  lemma OctalReadsBack(n: nat)
    ensures ParseSigned("0" + Text.Digits(n, 8)) == Some(n)
  {
    var t := "0" + Text.Digits(n, 8);
    ReadDigits(n, 8);
    assert t[1..] == Text.Digits(n, 8);
    FirstDigit(n, 8);
    assert t[1] == Text.Digits(n, 8)[0];
    assert ParseMagnitude(t) == Some(n);
  }

  /** A leading 0 makes the digits octal and "0x" hexadecimal, so "0443" is 291
      and "0x1BB" is 443, and "08" is no number at all. */
  lemma PrefixChoosesBase()
    ensures ParseSigned("0443") == Some(291)
    ensures ParseSigned("0x1BB") == Some(443)
    ensures ParseSigned("08").None?
  {
    assert "0443"[1..] == "443";
    assert "443"[..2] == "44" && "44"[..1] == "4" && "4"[..0] == [];
    assert "0x1BB"[2..] == "1BB";
    assert "1BB"[..2] == "1B" && "1B"[..1] == "1" && "1"[..0] == [];
    assert "08"[1..] == "8" && "8"[..0] == [];
  }

  /** `as<int>()` (`unsigned == false`) and `as<uint16_t>()`: the value must fit
      the target type, and an unsigned target refuses a leading minus sign. */
  function AsInt(node: Node, lo: int, hi: int, unsigned: bool): (r: Option<int>)
    ensures r.Some? ==> node.Scalar? && |node.text| > 0 && lo <= r.value <= hi
    ensures r.Some? && unsigned ==> node.text[0] != '-'
  {
    if !node.Scalar? then None
    else if unsigned && |node.text| > 0 && node.text[0] == '-' then None
    else
      match ParseSigned(node.text)
      case None => None
      case Some(v) => if lo <= v <= hi then Some(v) else None
  }

  /** Reads `key` into a string setting: absent keeps `current`. */
  function ReadString(node: Node, key: string, current: string): (r: Result<string, YamlError>)
    ensures node.Scalar? ==> r == Failure(BadSubscript(key))
    ensures !node.Scalar? && Lookup(node, key).None? ==> r == Success(current)
    ensures Lookup(node, key).Some? ==>
      (r.Success? <==> AsString(Lookup(node, key).value).Some?)
      && (r.Success? ==> r.value == AsString(Lookup(node, key).value).value)
      && (r.Failure? ==> r.error == BadConversion(key))
  {
    if node.Scalar? then Failure(BadSubscript(key))
    else
      match Lookup(node, key)
      case None => Success(current)
      case Some(v) =>
        match AsString(v)
        case None => Failure(BadConversion(key))
        case Some(s) => Success(s)
  }

  function ReadBool(node: Node, key: string, current: bool): (r: Result<bool, YamlError>)
    ensures node.Scalar? ==> r == Failure(BadSubscript(key))
    ensures !node.Scalar? && Lookup(node, key).None? ==> r == Success(current)
    ensures Lookup(node, key).Some? ==>
      (r.Success? <==> AsBool(Lookup(node, key).value).Some?)
      && (r.Success? ==> r.value == AsBool(Lookup(node, key).value).value)
  {
    if node.Scalar? then Failure(BadSubscript(key))
    else
      match Lookup(node, key)
      case None => Success(current)
      case Some(v) =>
        match AsBool(v)
        case None => Failure(BadConversion(key))
        case Some(b) => Success(b)
  }

  /** Reads `key` as an `int` and stores it into a 16-bit field, which keeps the
      low 16 bits (so 65536 stores 0 and -1 stores 65535). */
  function ReadIntTo16(node: Node, key: string, current: Text.U16): (r: Result<Text.U16, YamlError>)
    ensures node.Scalar? ==> r == Failure(BadSubscript(key))
    ensures !node.Scalar? && Lookup(node, key).None? ==> r == Success(current)
    ensures Lookup(node, key).Some? ==>
      var v := AsInt(Lookup(node, key).value, Text.IntMin, Text.IntMax, false);
      (r.Success? <==> v.Some?) && (r.Success? ==> r.value == Text.ToUint16(v.value))
  {
    if node.Scalar? then Failure(BadSubscript(key))
    else
      match Lookup(node, key)
      case None => Success(current)
      case Some(v) =>
        match AsInt(v, Text.IntMin, Text.IntMax, false)
        case None => Failure(BadConversion(key))
        case Some(i) => Success(Text.ToUint16(i))
  }

  /** Reads `key` as a `uint16_t`: out-of-range values do not convert. */
  function ReadU16(node: Node, key: string, current: Text.U16): (r: Result<Text.U16, YamlError>)
    ensures node.Scalar? ==> r == Failure(BadSubscript(key))
    ensures !node.Scalar? && Lookup(node, key).None? ==> r == Success(current)
    ensures Lookup(node, key).Some? ==>
      var v := AsInt(Lookup(node, key).value, 0, 0xFFFF, true);
      (r.Success? <==> v.Some?) && (r.Success? ==> r.value == v.value)
  {
    if node.Scalar? then Failure(BadSubscript(key))
    else
      match Lookup(node, key)
      case None => Success(current)
      case Some(v) =>
        match AsInt(v, 0, 0xFFFF, true)
        case None => Failure(BadConversion(key))
        case Some(i) => Success(i)
  }

  // ---------------------------------------------------------------------------
  // Applying one node

  /** The seven account settings a context node can set, in the order of the fields. */
  function Account(c: CloudConfig): (string, string, string, string, string, string, string)
  {
    (c.authEmail, c.authPassword, c.authOrg, c.studyID, c.license, c.deviceToken, c.authToken)
  }

  /** The eight settings a service node can set. */
  function Service(c: CloudConfig): (string, Text.U16, bool, string, bool, string, Text.U16, Text.U16)
  {
    (c.serverHost, c.serverPort, c.secure, c.transportType, c.skipVerify, c.rootCA, c.timeoutMillis, c.listLimit)
  }

  /** Each account setting of `after` is the one of `before` with `node`'s key of
      that setting read over it: replaced when the key is present, kept when absent. */
  predicate AccountRead(before: CloudConfig, node: Node, after: CloudConfig)
  {
    && ReadString(node, "auth-email", before.authEmail) == Success(after.authEmail)
    && ReadString(node, "auth-password", before.authPassword) == Success(after.authPassword)
    && ReadString(node, "auth-org", before.authOrg) == Success(after.authOrg)
    && ReadString(node, "study-id", before.studyID) == Success(after.studyID)
    && ReadString(node, "license", before.license) == Success(after.license)
    && ReadString(node, "device-token", before.deviceToken) == Success(after.deviceToken)
    && ReadString(node, "auth-token", before.authToken) == Success(after.authToken)
  }

  /** Each service setting of `after` is the one of `before` with `node`'s key of
      that setting read over it. The transport type reads the legacy
      "transportType" first and "transport-type" over it; the root certificate
      reads the legacy branch (which takes its value from `legacyRootCAKey`)
      first and "root-ca" over it. */
  predicate ServiceRead(before: CloudConfig, node: Node, after: CloudConfig, legacyRootCAKey: string)
  {
    && ReadString(node, "host", before.serverHost) == Success(after.serverHost)
    && ReadIntTo16(node, "port", before.serverPort) == Success(after.serverPort)
    && ReadBool(node, "secure", before.secure) == Success(after.secure)
    && ReadBool(node, "skip-verify", before.skipVerify) == Success(after.skipVerify)
    && ReadIntTo16(node, "timeout", before.timeoutMillis) == Success(after.timeoutMillis)
    && ReadU16(node, "list-limit", before.listLimit) == Success(after.listLimit)
    && (var legacy := ReadString(node, "transportType", before.transportType);
        legacy.Success? && ReadString(node, "transport-type", legacy.value) == Success(after.transportType))
    && (var legacy := ReadLegacyRootCA(node, legacyRootCAKey, before.rootCA);
        legacy.Success? && ReadString(node, "root-ca", legacy.value) == Success(after.rootCA))
  }

  /** The keys `loadCloudConfigYAMLContextNode` reads, all as strings. */
  const ContextKeys: set<string> :=
    {"service", "auth-email", "auth-password", "auth-org", "study-id", "license", "device-token", "auth-token"}

  /** `loadCloudConfigYAMLContextNode`: the service name and the account settings.
      A key present in the node replaces the setting; an absent key keeps it; it
      throws exactly when the node is a scalar or one of its keys holds a value
      that is not a string. */
  function ContextNode(config: CloudConfig, service: string, node: Node): (r: Result<(CloudConfig, string), YamlError>)
    ensures r.Success? <==>
      !node.Scalar? && forall key | key in ContextKeys :: Lookup(node, key).None? || AsString(Lookup(node, key).value).Some?
    ensures r.Success? ==> AccountRead(config, node, r.value.0)
    ensures r.Success? ==>
      r.value.0.(authEmail := config.authEmail, authPassword := config.authPassword, authOrg := config.authOrg,
                 studyID := config.studyID, license := config.license, deviceToken := config.deviceToken,
                 authToken := config.authToken) == config
    ensures r.Success? ==> ReadString(node, "service", service) == Success(r.value.1)
  {
    var svc :- ReadString(node, "service", service);
    var email :- ReadString(node, "auth-email", config.authEmail);
    var password :- ReadString(node, "auth-password", config.authPassword);
    var org :- ReadString(node, "auth-org", config.authOrg);
    var study :- ReadString(node, "study-id", config.studyID);
    var license :- ReadString(node, "license", config.license);
    var deviceToken :- ReadString(node, "device-token", config.deviceToken);
    var authToken :- ReadString(node, "auth-token", config.authToken);
    Success((config.(authEmail := email, authPassword := password, authOrg := org, studyID := study,
                     license := license, deviceToken := deviceToken, authToken := authToken), svc))
  }

  /** Reads the legacy root-certificate key: when `rootCA` is present, the value
      is taken from `sourceKey`, which must then be present too. */
  function ReadLegacyRootCA(node: Node, sourceKey: string, current: string): (r: Result<string, YamlError>)
    ensures node.Scalar? ==> r == Failure(BadSubscript("rootCA"))
    ensures !node.Scalar? && Lookup(node, "rootCA").None? ==> r == Success(current)
    ensures Lookup(node, "rootCA").Some? ==>
      (r.Success? <==> Lookup(node, sourceKey).Some? && AsString(Lookup(node, sourceKey).value).Some?)
      && (r.Success? ==> r.value == AsString(Lookup(node, sourceKey).value).value)
      && (r.Failure? ==> r.error == BadConversion(sourceKey))
  {
    if node.Scalar? then Failure(BadSubscript("rootCA"))
    else if Lookup(node, "rootCA").None? then Success(current)
    else
      match Lookup(node, sourceKey)
      case None => Failure(BadConversion(sourceKey))
      case Some(v) =>
        match AsString(v)
        case None => Failure(BadConversion(sourceKey))
        case Some(s) => Success(s)
  }

  /** `loadCloudConfigYAMLServiceNode`, with the key its legacy `rootCA` branch
      reads as a parameter. The `verbose` key only changes the logger and never
      throws a conversion error, so its value is not read here; subscripting it
      is the first thing that throws on a scalar node. */
  function ServiceNodeReading(config: CloudConfig, node: Node, legacyRootCAKey: string): (r: Result<CloudConfig, YamlError>)
    ensures node.Scalar? ==> r == Failure(BadSubscript("verbose"))
    ensures r.Success? ==> ServiceRead(config, node, r.value, legacyRootCAKey)
    ensures r.Success? ==>
      r.value.(serverHost := config.serverHost, serverPort := config.serverPort, secure := config.secure,
               transportType := config.transportType, skipVerify := config.skipVerify, rootCA := config.rootCA,
               timeoutMillis := config.timeoutMillis, listLimit := config.listLimit) == config
  {
    if node.Scalar? then Failure(BadSubscript("verbose"))
    else
      var host :- ReadString(node, "host", config.serverHost);
      var port :- ReadIntTo16(node, "port", config.serverPort);
      var secure :- ReadBool(node, "secure", config.secure);
      var legacyTransport :- ReadString(node, "transportType", config.transportType);
      var transport :- ReadString(node, "transport-type", legacyTransport);
      var skip :- ReadBool(node, "skip-verify", config.skipVerify);
      var legacyRoot :- ReadLegacyRootCA(node, legacyRootCAKey, config.rootCA);
      var rootCA :- ReadString(node, "root-ca", legacyRoot);
      var timeout :- ReadIntTo16(node, "timeout", config.timeoutMillis);
      var limit :- ReadU16(node, "list-limit", config.listLimit);
      Success(config.(serverHost := host, serverPort := port, secure := secure, transportType := transport,
                      skipVerify := skip, rootCA := rootCA, timeoutMillis := timeout, listLimit := limit))
  }

  /** The service loader as written: its legacy branch tests for `rootCA` but
      reads `root-ca`, so the legacy key never supplies a value. */
  function ServiceNodeAsWritten(config: CloudConfig, node: Node): (r: Result<CloudConfig, YamlError>)
    ensures r.Success? ==> ServiceRead(config, node, r.value, "root-ca")
    ensures r.Success? && Lookup(node, "root-ca").None? ==> r.value.rootCA == config.rootCA
  {
    ServiceNodeReading(config, node, "root-ca")
  }

  /** A file using only the legacy `rootCA` key makes the loader as written throw,
      whatever else the node holds: it reads the absent `root-ca` key. */
  lemma LegacyRootCAThrows(config: CloudConfig, node: Node)
    requires Lookup(node, "rootCA").Some? && Lookup(node, "root-ca").None?
    ensures ServiceNodeAsWritten(config, node).Failure?
  {
    assert ReadLegacyRootCA(node, "root-ca", config.rootCA).Failure?;
  }

  /** The service loader as intended: the legacy `rootCA` key supplies the root
      certificate when `root-ca` is absent, and `root-ca` wins when both are present;
      "transport-type" likewise overrides the legacy "transportType". A key present
      in the node replaces the setting; an absent key keeps it. */
  function ServiceNode(config: CloudConfig, node: Node): (r: Result<CloudConfig, YamlError>)
    ensures r.Success? ==> ServiceRead(config, node, r.value, "rootCA")
    ensures r.Success? && Lookup(node, "root-ca").Some? ==>
      AsString(Lookup(node, "root-ca").value) == Some(r.value.rootCA)
    ensures r.Success? && Lookup(node, "root-ca").None? && Lookup(node, "rootCA").Some? ==>
      AsString(Lookup(node, "rootCA").value) == Some(r.value.rootCA)
    ensures r.Success? && Lookup(node, "root-ca").None? && Lookup(node, "rootCA").None? ==>
      r.value.rootCA == config.rootCA
    ensures r.Success? && Lookup(node, "transport-type").Some? ==>
      AsString(Lookup(node, "transport-type").value) == Some(r.value.transportType)
    ensures r.Success? && Lookup(node, "transport-type").None? && Lookup(node, "transportType").Some? ==>
      AsString(Lookup(node, "transportType").value) == Some(r.value.transportType)
    ensures r.Success? && Lookup(node, "transport-type").None? && Lookup(node, "transportType").None? ==>
      r.value.transportType == config.transportType
    ensures r.Success? ==>
      r.value.(serverHost := config.serverHost, serverPort := config.serverPort, secure := config.secure,
               transportType := config.transportType, skipVerify := config.skipVerify, rootCA := config.rootCA,
               timeoutMillis := config.timeoutMillis, listLimit := config.listLimit) == config
    ensures ServiceNodeAsWritten(config, node).Success? && Lookup(node, "rootCA").None? ==>
      r == ServiceNodeAsWritten(config, node)
  {
    ServiceNodeReading(config, node, "rootCA")
  }

  // ---------------------------------------------------------------------------
  // Loading a file

  const DefaultTimeoutMillis: nat := 10 * 1000
  const DefaultListLimit: nat := 25
  const DefaultPort: nat := 443

  /** The configuration with the four defaults `loadCloudConfigYAMLFile` sets first. */
  function WithDefaults(config: CloudConfig): CloudConfig
  {
    config.(timeoutMillis := DefaultTimeoutMillis, secure := true, listLimit := DefaultListLimit, serverPort := DefaultPort)
  }

  /** `item["name"].as<std::string>()`: a name that is missing or not a string
      throws, and so does subscripting a scalar item. */
  function NameOf(item: Node): (r: Result<string, YamlError>)
    ensures r.Success? <==> Lookup(item, "name").Some? && AsString(Lookup(item, "name").value).Some?
    ensures r.Success? ==> ReadString(item, "name", "") == Success(r.value)
    ensures item.Scalar? ==> r == Failure(BadSubscript("name"))
    ensures !item.Scalar? && r.Failure? ==> r.error == BadConversion("name")
  {
    if item.Scalar? then Failure(BadSubscript("name"))
    else if Lookup(item, "name").None? then Failure(BadConversion("name"))
    else ReadString(item, "name", "")
  }

  /** The first item whose "name" equals `name`; reading a name that is missing or
      not a string throws, and the search stops at the first match. */
  function FirstNamed(items: seq<Node>, name: string): (r: Result<Option<Node>, YamlError>)
    ensures r.Success? && r.value.Some? ==> r.value.value in items
    ensures r.Success? && r.value.Some? ==> ReadString(r.value.value, "name", "") == Success(name)
    ensures r.Success? && r.value.None? ==> forall k :: 0 <= k < |items| ==> ReadString(items[k], "name", "") != Success(name)
  {
    if |items| == 0 then Success(None)
    else
      var first :- NameOf(items[0]);
      if first == name then Success(Some(items[0]))
      else
        var rest :- FirstNamed(items[1..], name);
        assert forall k :: 1 <= k < |items| ==> items[k] == items[1..][k - 1];
        Success(rest)
  }

  /** What a successful load leaves: the configuration, and which context and
      service entries were layered over the top level. */
  datatype Loaded = Loaded(config: CloudConfig, context: Option<Node>, service: Option<Node>)

  /** Every key in `keys` is absent from `node`. */
  predicate NoneOf(node: Node, keys: set<string>)
  {
    forall key | key in keys :: Lookup(node, key).None?
  }

  /** A service node that does not name one of the four defaulted settings
      leaves it as it was. */
  lemma ServiceKeeps(before: CloudConfig, node: Node, after: CloudConfig, legacyRootCAKey: string)
    requires ServiceRead(before, node, after, legacyRootCAKey)
    ensures NoneOf(node, {"port"}) ==> after.serverPort == before.serverPort
    ensures NoneOf(node, {"timeout"}) ==> after.timeoutMillis == before.timeoutMillis
    ensures NoneOf(node, {"list-limit"}) ==> after.listLimit == before.listLimit
    ensures NoneOf(node, {"secure"}) ==> after.secure == before.secure
  {
    assert NoneOf(node, {"port"}) ==> Lookup(node, "port").None?;
    assert NoneOf(node, {"timeout"}) ==> Lookup(node, "timeout").None?;
    assert NoneOf(node, {"list-limit"}) ==> Lookup(node, "list-limit").None?;
    assert NoneOf(node, {"secure"}) ==> Lookup(node, "secure").None?;
  }

  /** The defaults, then the top level read as a context (giving the service name)
      and as a service: every setting the top level names overrides the caller's
      value or the default, and every other setting keeps it. */
  function TopLevel(config: CloudConfig, yaml: Node): (r: Result<(CloudConfig, string), YamlError>)
    ensures r.Success? ==> ReadString(yaml, "service", "") == Success(r.value.1)
    ensures r.Success? ==> AccountRead(config, yaml, r.value.0)
    ensures r.Success? ==> ServiceRead(WithDefaults(config), yaml, r.value.0, "rootCA")
    ensures r.Success? ==> r.value.0.contextID == config.contextID && r.value.0.deviceID == config.deviceID
    ensures r.Success? && NoneOf(yaml, {"port"}) ==> r.value.0.serverPort == DefaultPort
    ensures r.Success? && NoneOf(yaml, {"timeout"}) ==> r.value.0.timeoutMillis == DefaultTimeoutMillis
    ensures r.Success? && NoneOf(yaml, {"list-limit"}) ==> r.value.0.listLimit == DefaultListLimit
    ensures r.Success? && NoneOf(yaml, {"secure"}) ==> r.value.0.secure
  {
    var base := WithDefaults(config);
    var top :- ContextNode(base, "", yaml);
    var c :- ServiceNode(top.0, yaml);
    ServiceKeeps(top.0, yaml, c, "rootCA");
    Success((c, top.1))
  }

  /** Names the configuration after `contextID` and applies the first context entry
      of that name, which may name a different service; with no such entry the
      account settings and the service name stay as they are. */
  function ContextLayer(config: CloudConfig, yaml: Node, contextID: string, service: string)
    : (r: Result<(CloudConfig, Option<Node>, string), YamlError>)
    ensures r.Success? ==> Children(yaml, "contexts").Success?
    ensures r.Success? ==> r.value.0.contextID == contextID
    ensures r.Success? ==> Service(r.value.0) == Service(config) && r.value.0.deviceID == config.deviceID
    ensures r.Success? && r.value.1.None? ==>
      Account(r.value.0) == Account(config) && r.value.2 == service
      && forall k :: 0 <= k < |Children(yaml, "contexts").value| ==>
           ReadString(Children(yaml, "contexts").value[k], "name", "") != Success(contextID)
    ensures r.Success? && r.value.1.Some? ==>
      r.value.1.value in Children(yaml, "contexts").value
      && ReadString(r.value.1.value, "name", "") == Success(contextID)
      && AccountRead(config, r.value.1.value, r.value.0)
      && ReadString(r.value.1.value, "service", service) == Success(r.value.2)
  {
    var named := config.(contextID := contextID);
    var items :- Children(yaml, "contexts");
    var context :- FirstNamed(items, contextID);
    if context.Some? then
      var layered :- ContextNode(named, service, context.value);
      Success((layered.0, context, layered.1))
    else Success((named, None, service))
  }

  /** Applies the first service entry named `serviceID`, if the name is not empty;
      with no such entry nothing changes. */
  function ServiceLayer(config: CloudConfig, yaml: Node, serviceID: string): (r: Result<(CloudConfig, Option<Node>), YamlError>)
    ensures serviceID == "" ==> r == Success((config, None))
    ensures r.Success? && serviceID != "" ==> Children(yaml, "services").Success?
    ensures r.Success? ==> Account(r.value.0) == Account(config)
    ensures r.Success? ==> r.value.0.contextID == config.contextID && r.value.0.deviceID == config.deviceID
    ensures r.Success? && r.value.1.None? ==>
      r.value.0 == config
      && (serviceID != "" ==> forall k :: 0 <= k < |Children(yaml, "services").value| ==>
            ReadString(Children(yaml, "services").value[k], "name", "") != Success(serviceID))
    ensures r.Success? && r.value.1.Some? ==>
      r.value.1.value in Children(yaml, "services").value
      && ReadString(r.value.1.value, "name", "") == Success(serviceID)
      && ServiceRead(config, r.value.1.value, r.value.0, "rootCA")
  {
    if serviceID == "" then Success((config, None))
    else
      var items :- Children(yaml, "services");
      var service :- FirstNamed(items, serviceID);
      if service.Some? then
        var c :- ServiceNode(config, service.value);
        Success((c, service))
      else Success((config, None))
  }

  /** The service name the layers select: the context entry's "service" read over
      the top level's. */
  function SelectedService(topService: string, context: Option<Node>): string
  {
    if context.Some? && ReadString(context.value, "service", topService).Success? then
      ReadString(context.value, "service", topService).value
    else topService
  }

  /** The context and service layers over the top level's configuration `top`,
      whose service name is `topService`: the context entry overrides the
      account settings it names, the service entry the service settings it names. */
  function Layers(top: CloudConfig, topService: string, yaml: Node, contextID: string): (r: Result<Loaded, YamlError>)
    ensures r.Success? ==> r.value.config.contextID == contextID && r.value.config.deviceID == top.deviceID
    ensures r.Success? && r.value.context.Some? ==>
      Children(yaml, "contexts").Success? && r.value.context.value in Children(yaml, "contexts").value
      && ReadString(r.value.context.value, "name", "") == Success(contextID)
    ensures r.Success? && r.value.service.Some? ==>
      Children(yaml, "services").Success? && r.value.service.value in Children(yaml, "services").value
      && ReadString(r.value.service.value, "name", "") == Success(SelectedService(topService, r.value.context))
    ensures r.Success? && r.value.context.None? ==> Account(r.value.config) == Account(top)
    ensures r.Success? && r.value.context.Some? ==> AccountRead(top, r.value.context.value, r.value.config)
    ensures r.Success? && r.value.service.None? ==> Service(r.value.config) == Service(top)
    ensures r.Success? && r.value.service.Some? ==> ServiceRead(top, r.value.service.value, r.value.config, "rootCA")
  {
    var context :- ContextLayer(top, yaml, contextID, topService);
    assert context.2 == SelectedService(topService, context.1);
    var service :- ServiceLayer(context.0, yaml, context.2);
    Success(Loaded(service.0, context.1, service.1))
  }

  /** `loadCloudConfigYAMLFile` once the document is parsed: defaults, then the top
      level, then the selected context, then the service it (or the top level)
      names. The caller's context wins over the file's; the context entry
      overrides the account settings it names and the service entry the service
      settings it names, over what the top level gave; a setting no layer names
      keeps the caller's value or its default. */
  function LoadYaml(config: CloudConfig, yaml: Node): (r: Result<Loaded, YamlError>)
    ensures r.Success? && config.contextID != "" ==> r.value.config.contextID == config.contextID
    ensures r.Success? && config.contextID == "" ==> ReadString(yaml, "context", "") == Success(r.value.config.contextID)
    ensures r.Success? && r.value.config.contextID == "" ==> r.value.context.None? && r.value.service.None?
    ensures r.Success? ==> TopLevel(config, yaml).Success?
    ensures r.Success? ==> r.value.config.deviceID == config.deviceID
    ensures r.Success? && r.value.config.contextID == "" ==> r.value.config == TopLevel(config, yaml).value.0
    ensures r.Success? && r.value.config.contextID != "" ==>
      r == Layers(TopLevel(config, yaml).value.0, TopLevel(config, yaml).value.1, yaml, r.value.config.contextID)
    ensures r.Success? && NoneOf(yaml, {"port"}) && (r.value.service.None? || NoneOf(r.value.service.value, {"port"})) ==>
      r.value.config.serverPort == DefaultPort
    ensures r.Success? && NoneOf(yaml, {"timeout"}) && (r.value.service.None? || NoneOf(r.value.service.value, {"timeout"})) ==>
      r.value.config.timeoutMillis == DefaultTimeoutMillis
    ensures r.Success? && NoneOf(yaml, {"list-limit"}) && (r.value.service.None? || NoneOf(r.value.service.value, {"list-limit"})) ==>
      r.value.config.listLimit == DefaultListLimit
    ensures r.Success? && NoneOf(yaml, {"secure"}) && (r.value.service.None? || NoneOf(r.value.service.value, {"secure"})) ==>
      r.value.config.secure
  {
    var contextID :- if config.contextID != "" then Success(config.contextID)
                     else ReadString(yaml, "context", "");
    var top :- TopLevel(config, yaml);
    if contextID == "" then Success(Loaded(top.0, None, None))
    else
      var l :- Layers(top.0, top.1, yaml, contextID);
      if l.service.Some? then
        ServiceKeeps(top.0, l.service.value, l.config, "rootCA");
        Success(l)
      else Success(l)
  }

  /** The port is the service entry's when it names one, else the top level's
      when it names one, else the default: the last layer naming the key wins. */
  lemma PortLayering(config: CloudConfig, yaml: Node)
    requires LoadYaml(config, yaml).Success?
    ensures var l := LoadYaml(config, yaml).value;
      var fromService := l.service.Some? && Lookup(l.service.value, "port").Some?;
      && (fromService ==> ReadIntTo16(l.service.value, "port", 0) == Success(l.config.serverPort))
      && (!fromService && Lookup(yaml, "port").Some? ==> ReadIntTo16(yaml, "port", 0) == Success(l.config.serverPort))
      && (!fromService && Lookup(yaml, "port").None? ==> l.config.serverPort == DefaultPort)
  {
    var l := LoadYaml(config, yaml).value;
    var top := TopLevel(config, yaml).value.0;
    assert ReadIntTo16(yaml, "port", DefaultPort) == Success(top.serverPort);
    if l.service.Some? {
      assert ReadIntTo16(l.service.value, "port", top.serverPort) == Success(l.config.serverPort);
    } else {
      assert l.config.serverPort == top.serverPort;
    }
  }

  /** The account e-mail is the context entry's when it names one, else the top
      level's when it names one, else the caller's: a service entry never changes it. */
  lemma AuthEmailLayering(config: CloudConfig, yaml: Node)
    requires LoadYaml(config, yaml).Success?
    ensures var l := LoadYaml(config, yaml).value;
      var fromContext := l.context.Some? && Lookup(l.context.value, "auth-email").Some?;
      && (fromContext ==> ReadString(l.context.value, "auth-email", "") == Success(l.config.authEmail))
      && (!fromContext && Lookup(yaml, "auth-email").Some? ==> ReadString(yaml, "auth-email", "") == Success(l.config.authEmail))
      && (!fromContext && Lookup(yaml, "auth-email").None? ==> l.config.authEmail == config.authEmail)
  {
    var l := LoadYaml(config, yaml).value;
    var top := TopLevel(config, yaml).value.0;
    assert ReadString(yaml, "auth-email", config.authEmail) == Success(top.authEmail);
    if l.context.Some? {
      assert ReadString(l.context.value, "auth-email", top.authEmail) == Success(l.config.authEmail);
    } else {
      assert l.config.authEmail == top.authEmail;
    }
  }

  /** How a load ends: a status for the caller, a YAML exception escaping it, or
      undefined behaviour before anything is read. */
  datatype LoadOutcome = Returned(config: CloudConfig, status: Status.CloudStatus) | Threw(error: YamlError) | Undefined

  /** The whole of `loadCloudConfigYAMLFile`: `document` is the parsed file, or the
      message of the `BadFile` / `ParserException` the parser threw. Any other
      YAML exception escapes. */
  function LoadYamlFile(config: CloudConfig, document: Result<Node, string>): (r: LoadOutcome)
    ensures document.Failure? ==>
      r == Returned(config, Status.WithMessage(Status.ConfigParseError, document.error))
    ensures document.Success? ==>
      && (r.Returned? <==> LoadYaml(config, document.value).Success?)
      && (r.Returned? ==> r.config == LoadYaml(config, document.value).value.config && r.status == Status.Of(Status.Ok))
      && (r.Threw? ==> r.error == LoadYaml(config, document.value).error)
    ensures !r.Undefined?
  {
    match document
    case Failure(msg) => Returned(config, Status.WithMessage(Status.ConfigParseError, msg))
    case Success(yaml) =>
      match LoadYaml(config, yaml)
      case Failure(e) => Threw(e)
      case Success(l) => Returned(l.config, Status.Of(Status.Ok))
  }

  /** `loadCloudConfig`: only a path ending in ".yaml" (after `~` expansion) is loaded;
      any other is refused with the path as the caller gave it. */
  function LoadCloudConfig(config: CloudConfig, filePath: string, home: Option<string>, userProfile: Option<string>,
                           document: Result<Node, string>): (r: LoadOutcome)
    ensures ExpandHomeTilde(filePath, home, userProfile).None? <==> r.Undefined?
    ensures ExpandHomeTilde(filePath, home, userProfile).Some? && !EndsWith(ExpandHomeTilde(filePath, home, userProfile).value, ".yaml") ==>
      r == Returned(config, Status.WithMessage(Status.ConfigUnsupportedContentType,
                                               "Unable to load file: '" + filePath + "'"))
    ensures ExpandHomeTilde(filePath, home, userProfile).Some? && EndsWith(ExpandHomeTilde(filePath, home, userProfile).value, ".yaml") ==>
      r == LoadYamlFile(config, document)
  {
    match ExpandHomeTilde(filePath, home, userProfile)
    case None => Undefined
    case Some(path) =>
      if EndsWith(path, ".yaml") then LoadYamlFile(config, document)
      else Returned(config, Status.WithMessage(Status.ConfigUnsupportedContentType,
                                               "Unable to load file: '" + filePath + "'"))
  }

  /** `getAvailableContexts` for a ".yaml" path: the file's default context, if set,
      and the name of every context entry in file order, appended to `contextNames`.
      A default context or a context name that does not read as a string throws,
      and so does subscripting a scalar document or a scalar entry, and iterating
      a non-empty mapping under "contexts"; parse errors are not caught here
      either, so `yaml` is the parsed file. */
  method AvailableContexts(yaml: Node, defaultContext: string, contextNames: seq<string>)
    returns (r: Result<(string, seq<string>), YamlError>)
    ensures r.Success? <==>
      ReadString(yaml, "context", defaultContext).Success? && Children(yaml, "contexts").Success?
      && forall k :: 0 <= k < |Children(yaml, "contexts").value| ==> NameOf(Children(yaml, "contexts").value[k]).Success?
    ensures yaml.Scalar? ==> r == Failure(BadSubscript("context"))
    ensures r.Success? ==> ReadString(yaml, "context", defaultContext) == Success(r.value.0)
    ensures r.Success? ==> |r.value.1| == |contextNames| + |Children(yaml, "contexts").value|
    ensures r.Success? ==> r.value.1[..|contextNames|] == contextNames
    ensures r.Success? ==> forall k :: 0 <= k < |Children(yaml, "contexts").value| ==>
      NameOf(Children(yaml, "contexts").value[k]) == Success(r.value.1[|contextNames| + k])
  {
    var dflt := ReadString(yaml, "context", defaultContext);
    if dflt.Failure? {
      return Failure(dflt.error);
    }
    var children := Children(yaml, "contexts");
    if children.Failure? {
      return Failure(children.error);
    }
    var items := children.value;
    var names := contextNames;
    var i := 0;
    while i < |items|
      invariant 0 <= i <= |items|
      invariant |names| == |contextNames| + i && names[..|contextNames|] == contextNames
      invariant forall k :: 0 <= k < i ==> NameOf(items[k]) == Success(names[|contextNames| + k])
    {
      var name := NameOf(items[i]);
      if name.Failure? {
        return Failure(name.error);
      }
      names := names + [name.value];
      i := i + 1;
    }
    r := Success((dflt.value, names));
  }

  // ---------------------------------------------------------------------------
  // Printing

  /** The keys `operator<<` prints, each with the text it prints for it. */
  datatype Key = Host | Secure | Port | Transport | AuthEmail | AuthPassword | AuthOrg | License | StudyID | RootCA | Timeout

  function KeyName(k: Key): string
  {
    match k
    case Host => "host"
    case Secure => "secure"
    case Port => "port"
    case Transport => "transport"
    case AuthEmail => "auth-email"
    case AuthPassword => "auth-password"
    case AuthOrg => "auth-org"
    case License => "license"
    case StudyID => "study-id"
    case RootCA => "root-ca"
    case Timeout => "timeout"
  }

  datatype Line = Line(key: Key, value: string)

  const RootCAShown: nat := 80

  /** The root certificate as printed: its first 80 characters, marked when cut. */
  function RootCAText(rootCA: string): (r: string)
    ensures |rootCA| <= RootCAShown ==> r == rootCA
    ensures |rootCA| > RootCAShown ==> r == rootCA[..RootCAShown] + " ...truncated"
  {
    if |rootCA| > RootCAShown then rootCA[..RootCAShown] + " ...truncated" else rootCA
  }

  function OptionalLine(key: Key, value: string): seq<Line>
  {
    if value == "" then [] else [Line(key, value)]
  }

  /** The two lines printed unconditionally. */
  function HeadLines(c: CloudConfig): seq<Line>
  {
    [Line(Host, c.serverHost), Line(Secure, if c.secure then "1" else "0")]
  }

  function PortLines(c: CloudConfig): seq<Line>
  {
    if c.serverPort != 0 then [Line(Port, Text.NatToString(c.serverPort))] else []
  }

  /** The transport and credential lines, each printed only when set. */
  function CredentialLines(c: CloudConfig): seq<Line>
  {
    OptionalLine(Transport, c.transportType)
    + OptionalLine(AuthEmail, c.authEmail)
    + OptionalLine(AuthPassword, c.authPassword)
    + OptionalLine(AuthOrg, c.authOrg)
    + OptionalLine(License, c.license)
    + OptionalLine(StudyID, c.studyID)
  }

  function RootCALines(c: CloudConfig): seq<Line>
  {
    if c.rootCA != "" then [Line(RootCA, RootCAText(c.rootCA))] else []
  }

  function TimeoutLines(c: CloudConfig): seq<Line>
  {
    if c.timeoutMillis != 0 then [Line(Timeout, Text.NatToString(c.timeoutMillis))] else []
  }

  /** The lines `operator<<` prints after host and secure, in order. */
  function OptionalLines(c: CloudConfig): seq<Line>
  {
    PortLines(c) + CredentialLines(c) + RootCALines(c) + TimeoutLines(c)
  }

  /** The lines `operator<<` prints, in order. */
  function DescribeLines(c: CloudConfig): seq<Line>
  {
    HeadLines(c) + OptionalLines(c)
  }

  function Render(lines: seq<Line>): string
  {
    if |lines| == 0 then "" else KeyName(lines[0].key) + "=" + lines[0].value + "\n" + Render(lines[1..])
  }

  /** `operator<<` for a configuration: it begins with the host and the secure
      flag, printed as 1 or 0. */
  function Describe(c: CloudConfig): (r: string)
    ensures var h := "host=" + c.serverHost + "\n" + "secure=" + (if c.secure then "1" else "0") + "\n";
      |h| <= |r| && r[..|h|] == h
  {
    RenderHead(c);
    RenderAppend(HeadLines(c), OptionalLines(c));
    Render(DescribeLines(c))
  }

  /** Printing lines one after another prints each in turn. */
  lemma {:induction false} RenderAppend(a: seq<Line>, b: seq<Line>)
    ensures Render(a + b) == Render(a) + Render(b)
    decreases |a|
  {
    if |a| > 0 {
      assert (a + b)[1..] == a[1..] + b;
      RenderAppend(a[1..], b);
    } else {
      assert a + b == b;
    }
  }

  /** The text of the two unconditional lines. */
  lemma RenderHead(c: CloudConfig)
    ensures Render(HeadLines(c)) == "host=" + c.serverHost + "\n" + "secure=" + (if c.secure then "1" else "0") + "\n"
  {
    var flag := if c.secure then "1" else "0";
    var head := HeadLines(c);
    assert head[1..] == [Line(Secure, flag)];
    assert head[1..][1..] == [];
    assert Render(head[1..]) == "secure" + "=" + flag + "\n" + "";
    assert "secure" + "=" + flag + "\n" + "" == "secure=" + flag + "\n";
    assert "host" + "=" + c.serverHost + "\n" == "host=" + c.serverHost + "\n";
  }

  /** Every credential line carries one of the six credential keys. */
  lemma CredentialKey(c: CloudConfig, l: Line)
    requires l in CredentialLines(c)
    ensures l.key in {Transport, AuthEmail, AuthPassword, AuthOrg, License, StudyID}
  {
    var a := OptionalLine(Transport, c.transportType) + OptionalLine(AuthEmail, c.authEmail);
    var b := OptionalLine(AuthPassword, c.authPassword) + OptionalLine(AuthOrg, c.authOrg);
    var d := OptionalLine(License, c.license) + OptionalLine(StudyID, c.studyID);
    assert CredentialLines(c) == a + b + d;
    assert l in a || l in b || l in d;
  }

  /** A printed port, root-certificate or timeout line comes from its own part. */
  lemma LineOrigin(c: CloudConfig, l: Line)
    requires l in DescribeLines(c)
    ensures l.key == Port ==> l in PortLines(c)
    ensures l.key == RootCA ==> l in RootCALines(c)
    ensures l.key == Timeout ==> l in TimeoutLines(c)
  {
    assert l in HeadLines(c) || l in PortLines(c) || l in CredentialLines(c) || l in RootCALines(c) || l in TimeoutLines(c);
    if l in CredentialLines(c) {
      CredentialKey(c, l);
    }
  }

  /** Port and timeout are printed, in decimal, only when non-zero. */
  lemma DescribeNumbers(c: CloudConfig)
    ensures c.serverPort == 0 <==> forall l | l in DescribeLines(c) :: l.key != Port
    ensures c.serverPort != 0 ==> Line(Port, Text.NatToString(c.serverPort)) in DescribeLines(c)
    ensures c.timeoutMillis == 0 <==> forall l | l in DescribeLines(c) :: l.key != Timeout
    ensures c.timeoutMillis != 0 ==> Line(Timeout, Text.NatToString(c.timeoutMillis)) in DescribeLines(c)
  {
    forall l | l in DescribeLines(c)
      ensures l.key == Port ==> l in PortLines(c)
      ensures l.key == Timeout ==> l in TimeoutLines(c)
    {
      LineOrigin(c, l);
    }
    if c.serverPort != 0 {
      assert Line(Port, Text.NatToString(c.serverPort)) in PortLines(c);
    }
    if c.timeoutMillis != 0 {
      assert Line(Timeout, Text.NatToString(c.timeoutMillis)) in TimeoutLines(c);
    }
  }

  /** The root certificate is printed only when set, as at most its first 80
      characters, followed by " ...truncated" exactly when it was cut. */
  lemma DescribeRootCA(c: CloudConfig)
    ensures c.rootCA == "" <==> forall l | l in DescribeLines(c) :: l.key != RootCA
    ensures c.rootCA != "" ==> Line(RootCA, RootCAText(c.rootCA)) in DescribeLines(c)
  {
    forall l | l in DescribeLines(c)
      ensures l.key == RootCA ==> l in RootCALines(c)
    {
      LineOrigin(c, l);
    }
    if c.rootCA != "" {
      assert Line(RootCA, RootCAText(c.rootCA)) in RootCALines(c);
    }
  }
}
