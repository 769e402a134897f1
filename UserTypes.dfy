/** `User`, `UserStatus`, its mapper, and the user JSON form
    (api-cpp/src/UserTypes.cpp). `to_json` spells three keys differently from
    `from_json` ("HeightCM"/"HeightCm", "WeightKG"/"WeightKg",
    "AvatarURL"/"AvatarURI"); `ToJson` keeps the spelling as written and
    `ToJsonIntended` uses the reading side's spelling, which is also the one
    the user-creation requests send. */
module UserTypes {
  import opened Wrappers
  import Text
  import Json
  import Mapper
  import CloudTypes

  datatype UserStatus = Unknown | Active | Inactive | Deleted

  const StatusToString: map<UserStatus, string> :=
    map[Unknown := "UNKNOWN", Active := "ACTIVE", Inactive := "INACTIVE", Deleted := "DELETED"]

  const StatusToEnum: map<string, UserStatus> :=
    map["UNKNOWN" := Unknown, "ACTIVE" := Active, "INACTIVE" := Inactive, "DELETED" := Deleted]

  /** The status tables are inverse and cover every status. */
  lemma StatusTables()
    ensures Mapper.Inverse(StatusToString, StatusToEnum)
    ensures forall s: UserStatus :: s in StatusToString
  {
    forall s: UserStatus ensures s in StatusToString {
      match s
      case Unknown => case Active => case Inactive => case Deleted =>
    }
  }

  /** `getEnum`: the value named `s`, or Unknown for a name the table does not know. */
  function StatusEnum(s: string): (r: UserStatus)
    ensures r in StatusToString && (s in StatusToEnum <==> StatusToString[r] == s)
    ensures s !in StatusToEnum ==> r == Unknown
  {
    StatusTables();
    Mapper.GetEnum(StatusToEnum, s, Unknown)
  }

  /** `getString`: the value's name, which the table maps back to the value. */
  function StatusString(s: UserStatus): (r: string)
    ensures r in StatusToEnum && StatusToEnum[r] == s
  {
    StatusTables();
    Mapper.GetString(StatusToString, s)
  }

  /** `getEnum(getString(s)) == s` on all four statuses. */
  lemma MapperRoundTrip(st: UserStatus, s: string)
    ensures StatusEnum(StatusString(st)) == st
    ensures s !in StatusToEnum ==> StatusEnum(s) == Unknown
    ensures s in StatusToEnum ==> StatusString(StatusEnum(s)) == s
  {
    StatusTables();
    Mapper.RoundTrip(StatusToString, StatusToEnum, Unknown, st, s);
  }

  /** The fields of `User` that its JSON functions touch. */
  datatype User = User(
    id: string, email: string, firstName: string, lastName: string, status: UserStatus,
    gender: string, heightCM: Text.U16, weightKG: Text.U16, avatarURL: string,
    dateOfBirth: Text.U64, created: Text.U64, updated: Text.U64, password: string, role: string,
    organizationID: string, resetToken: string, resetTokenDate: string, isVerified: bool,
    verificationCode: string, phoneNumber: string, deviceID: string, loginMethod: string,
    ssoID: string, region: string)

  /** A value-initialised `User`. */
  const Empty := User("", "", "", "", Unknown, "", 0, 0, "", 0, 0, 0, "", "", "", "", "", false,
                      "", "", "", "", "", "")

  /** The three keys the two sides disagree on: height, weight, avatar. */
  datatype Keys = Keys(height: string, weight: string, avatar: string)

  const WrittenKeys := Keys("HeightCM", "WeightKG", "AvatarURL")
  const ReadKeys := Keys("HeightCm", "WeightKg", "AvatarURI")

  /** The writes of `to_json(nlohmann::json&, const User&)`, in order, in
      four runs: the names, the three keys the two sides disagree on, the
      account fields, the contact fields. The status is never written. */
  function Puts(u: User, keys: Keys): seq<CloudTypes.Put>
  {
    Front(u) + Mid(u, keys) + Back(u) + Rest(u)
  }

  function Front(u: User): seq<CloudTypes.Put>
  {
    [CloudTypes.Put("ID", Json.Str(u.id), u.id != ""),
     CloudTypes.Put("Email", Json.Str(u.email), u.email != ""),
     CloudTypes.Put("FirstName", Json.Str(u.firstName), u.firstName != ""),
     CloudTypes.Put("LastName", Json.Str(u.lastName), u.lastName != ""),
     CloudTypes.Put("Gender", Json.Str(u.gender), u.gender != "")]
  }

  function Mid(u: User, keys: Keys): seq<CloudTypes.Put>
  {
    [CloudTypes.Put(keys.height, Json.Int(u.heightCM), u.heightCM != 0),
     CloudTypes.Put(keys.weight, Json.Int(u.weightKG), u.weightKG != 0),
     CloudTypes.Put(keys.avatar, Json.Str(u.avatarURL), u.avatarURL != "")]
  }

  function Back(u: User): seq<CloudTypes.Put>
  {
    [CloudTypes.Put("DateOfBirth", Json.Int(u.dateOfBirth), u.dateOfBirth != 0),
     CloudTypes.Put("Created", Json.Int(u.created), u.created != 0),
     CloudTypes.Put("Updated", Json.Int(u.updated), u.updated != 0),
     CloudTypes.Put("Password", Json.Str(u.password), u.password != ""),
     CloudTypes.Put("RoleID", Json.Str(u.role), u.role != ""),
     CloudTypes.Put("OrganizationID", Json.Str(u.organizationID), u.organizationID != ""),
     CloudTypes.Put("ResetToken", Json.Str(u.resetToken), u.resetToken != ""),
     CloudTypes.Put("ResetTokenDate", Json.Str(u.resetTokenDate), u.resetTokenDate != "")]
  }

  function Rest(u: User): seq<CloudTypes.Put>
  {
    [CloudTypes.Put("IsVerified", Json.JBool(u.isVerified), u.isVerified),
     CloudTypes.Put("VerificationCode", Json.Str(u.verificationCode), u.verificationCode != ""),
     CloudTypes.Put("PhoneNumber", Json.Str(u.phoneNumber), u.phoneNumber != ""),
     CloudTypes.Put("DeviceID", Json.Str(u.deviceID), u.deviceID != ""),
     CloudTypes.Put("LoginMethod", Json.Str(u.loginMethod), u.loginMethod != ""),
     CloudTypes.Put("SSOID", Json.Str(u.ssoID), u.ssoID != ""),
     CloudTypes.Put("Region", Json.Str(u.region), u.region != "")]
  }

  /** The keys of the other twenty writes, and the status key. */
  const OtherNames: set<string> := {"ID", "Email", "FirstName", "LastName", "Gender", "DateOfBirth", "Created", "Updated", "Password", "RoleID", "OrganizationID", "ResetToken", "ResetTokenDate", "IsVerified", "VerificationCode", "PhoneNumber", "DeviceID", "LoginMethod", "SSOID", "Region", "StatusID"}

  /** The three disputed keys are distinct from each other and from every
      other key. */
  predicate FreshKeys(keys: Keys)
  {
    keys.height !in OtherNames && keys.weight !in OtherNames && keys.avatar !in OtherNames &&
    keys.height != keys.weight && keys.height != keys.avatar && keys.weight != keys.avatar
  }

  lemma KeysAreFresh()
    ensures FreshKeys(WrittenKeys) && FreshKeys(ReadKeys)
  {
  }

  lemma RunsDistinct(u: User, keys: Keys)
    requires FreshKeys(keys)
    ensures CloudTypes.DistinctNames(Front(u)) && CloudTypes.DistinctNames(Mid(u, keys))
    ensures CloudTypes.DistinctNames(Back(u)) && CloudTypes.DistinctNames(Rest(u))
  {
  }

  /** No key is written by two runs, and none writes the status. */
  lemma RunsDisjoint(u: User, keys: Keys)
    requires FreshKeys(keys)
    ensures forall a, b :: 0 <= a < |Front(u)| && 0 <= b < |Mid(u, keys)| ==> Front(u)[a].name != Mid(u, keys)[b].name
    ensures forall a, b :: 0 <= a < |Front(u)| && 0 <= b < |Back(u)| ==> Front(u)[a].name != Back(u)[b].name
    ensures forall a, b :: 0 <= a < |Front(u)| && 0 <= b < |Rest(u)| ==> Front(u)[a].name != Rest(u)[b].name
    ensures forall a, b :: 0 <= a < |Mid(u, keys)| && 0 <= b < |Back(u)| ==> Mid(u, keys)[a].name != Back(u)[b].name
    ensures forall a, b :: 0 <= a < |Mid(u, keys)| && 0 <= b < |Rest(u)| ==> Mid(u, keys)[a].name != Rest(u)[b].name
    ensures forall a, b :: 0 <= a < |Back(u)| && 0 <= b < |Rest(u)| ==> Back(u)[a].name != Rest(u)[b].name
    ensures forall a :: 0 <= a < |Front(u)| ==> Front(u)[a].name != "StatusID"
    ensures forall a :: 0 <= a < |Mid(u, keys)| ==> Mid(u, keys)[a].name != "StatusID"
    ensures forall a :: 0 <= a < |Back(u)| ==> Back(u)[a].name != "StatusID"
    ensures forall a :: 0 <= a < |Rest(u)| ==> Rest(u)[a].name != "StatusID"
  {
    assert forall a :: 0 <= a < |Front(u)| ==> Front(u)[a].name in OtherNames;
    assert forall a :: 0 <= a < |Back(u)| ==> Back(u)[a].name in OtherNames;
    assert forall a :: 0 <= a < |Rest(u)| ==> Rest(u)[a].name in OtherNames;
  }

  /** The four runs performed one after the other. */
  function Staged(u: User, keys: Keys): Json.Json
  {
    CloudTypes.PutAll(CloudTypes.PutAll(CloudTypes.PutAll(CloudTypes.PutAll(Json.JNull, Front(u)), Mid(u, keys)), Back(u)), Rest(u))
  }

  lemma StagedIsPutAll(u: User, keys: Keys)
    ensures CloudTypes.PutAll(Json.JNull, Puts(u, keys)) == Staged(u, keys)
  {
    CloudTypes.PutAllAppend(Json.JNull, Front(u) + Mid(u, keys) + Back(u), Rest(u));
    CloudTypes.PutAllAppend(Json.JNull, Front(u) + Mid(u, keys), Back(u));
    CloudTypes.PutAllAppend(Json.JNull, Front(u), Mid(u, keys));
  }

  /** A key of the front run reads back its field from the staged writes. */
  lemma ReadFront<T>(u: User, keys: Keys, k: nat, default: T, conv: Json.Json -> Option<T>, field: T)
    requires FreshKeys(keys) && k < |Front(u)|
    requires Front(u)[k].write ==> conv(Front(u)[k].value) == Some(field) && !Front(u)[k].value.JNull?
    requires !Front(u)[k].write ==> field == default
    ensures CloudTypes.GetValidField(Staged(u, keys), Front(u)[k].name, default, conv) == Success(field)
  {
    var name := Front(u)[k].name;
    var j1 := CloudTypes.PutAll(Json.JNull, Front(u));
    var j2 := CloudTypes.PutAll(j1, Mid(u, keys));
    var j3 := CloudTypes.PutAll(j2, Back(u));
    RunsDistinct(u, keys);
    RunsDisjoint(u, keys);
    CloudTypes.ReadPut(Json.JNull, Front(u), k, default, conv, field);
    CloudTypes.PutAllOther(j1, Mid(u, keys), name);
    CloudTypes.PutAllOther(j2, Back(u), name);
    CloudTypes.PutAllOther(j3, Rest(u), name);
  }

  /** A key of the mid run reads back its field from the staged writes. */
  lemma ReadMid<T>(u: User, keys: Keys, k: nat, default: T, conv: Json.Json -> Option<T>, field: T)
    requires FreshKeys(keys) && k < |Mid(u, keys)|
    requires Mid(u, keys)[k].write ==> conv(Mid(u, keys)[k].value) == Some(field) && !Mid(u, keys)[k].value.JNull?
    requires !Mid(u, keys)[k].write ==> field == default
    ensures CloudTypes.GetValidField(Staged(u, keys), Mid(u, keys)[k].name, default, conv) == Success(field)
  {
    var name := Mid(u, keys)[k].name;
    var j1 := CloudTypes.PutAll(Json.JNull, Front(u));
    var j2 := CloudTypes.PutAll(j1, Mid(u, keys));
    var j3 := CloudTypes.PutAll(j2, Back(u));
    RunsDistinct(u, keys);
    RunsDisjoint(u, keys);
    CloudTypes.PutAllOther(Json.JNull, Front(u), name);
    CloudTypes.ReadPut(j1, Mid(u, keys), k, default, conv, field);
    CloudTypes.PutAllOther(j2, Back(u), name);
    CloudTypes.PutAllOther(j3, Rest(u), name);
  }

  /** A key of the back run reads back its field from the staged writes. */
  lemma ReadBack<T>(u: User, keys: Keys, k: nat, default: T, conv: Json.Json -> Option<T>, field: T)
    requires FreshKeys(keys) && k < |Back(u)|
    requires Back(u)[k].write ==> conv(Back(u)[k].value) == Some(field) && !Back(u)[k].value.JNull?
    requires !Back(u)[k].write ==> field == default
    ensures CloudTypes.GetValidField(Staged(u, keys), Back(u)[k].name, default, conv) == Success(field)
  {
    var name := Back(u)[k].name;
    var j1 := CloudTypes.PutAll(Json.JNull, Front(u));
    var j2 := CloudTypes.PutAll(j1, Mid(u, keys));
    var j3 := CloudTypes.PutAll(j2, Back(u));
    RunsDistinct(u, keys);
    RunsDisjoint(u, keys);
    CloudTypes.PutAllOther(Json.JNull, Front(u), name);
    CloudTypes.PutAllOther(j1, Mid(u, keys), name);
    CloudTypes.ReadPut(j2, Back(u), k, default, conv, field);
    CloudTypes.PutAllOther(j3, Rest(u), name);
  }

  /** A key of the rest run reads back its field from the staged writes. */
  lemma ReadRest<T>(u: User, keys: Keys, k: nat, default: T, conv: Json.Json -> Option<T>, field: T)
    requires FreshKeys(keys) && k < |Rest(u)|
    requires Rest(u)[k].write ==> conv(Rest(u)[k].value) == Some(field) && !Rest(u)[k].value.JNull?
    requires !Rest(u)[k].write ==> field == default
    ensures CloudTypes.GetValidField(Staged(u, keys), Rest(u)[k].name, default, conv) == Success(field)
  {
    var name := Rest(u)[k].name;
    var j1 := CloudTypes.PutAll(Json.JNull, Front(u));
    var j2 := CloudTypes.PutAll(j1, Mid(u, keys));
    var j3 := CloudTypes.PutAll(j2, Back(u));
    RunsDistinct(u, keys);
    RunsDisjoint(u, keys);
    CloudTypes.PutAllOther(Json.JNull, Front(u), name);
    CloudTypes.PutAllOther(j1, Mid(u, keys), name);
    CloudTypes.PutAllOther(j2, Back(u), name);
    CloudTypes.ReadPut(j3, Rest(u), k, default, conv, field);
  }

  /** A key no run writes is absent from the staged writes. */
  lemma StagedAbsent(u: User, keys: Keys, name: string)
    requires forall a :: 0 <= a < |Front(u)| ==> Front(u)[a].name != name
    requires forall a :: 0 <= a < |Mid(u, keys)| ==> Mid(u, keys)[a].name != name
    requires forall a :: 0 <= a < |Back(u)| ==> Back(u)[a].name != name
    requires forall a :: 0 <= a < |Rest(u)| ==> Rest(u)[a].name != name
    ensures !Json.Contains(Staged(u, keys), name)
  {
    var j1 := CloudTypes.PutAll(Json.JNull, Front(u));
    var j2 := CloudTypes.PutAll(j1, Mid(u, keys));
    var j3 := CloudTypes.PutAll(j2, Back(u));
    CloudTypes.PutAllOther(Json.JNull, Front(u), name);
    CloudTypes.PutAllOther(j1, Mid(u, keys), name);
    CloudTypes.PutAllOther(j2, Back(u), name);
    CloudTypes.PutAllOther(j3, Rest(u), name);
  }

  /** With fresh disputed keys, the writes of `to_json` have distinct keys and
      none of them is the status key. */
  lemma PutsDistinct(u: User, keys: Keys)
    requires FreshKeys(keys)
    ensures CloudTypes.DistinctNames(Puts(u, keys))
    ensures forall a :: 0 <= a < |Puts(u, keys)| ==> Puts(u, keys)[a].name != "StatusID"
  {
    var front, mid, back, rest := Front(u), Mid(u, keys), Back(u), Rest(u);
    RunsDistinct(u, keys);
    RunsDisjoint(u, keys);
    CloudTypes.DistinctAppend(front, mid);
    CloudTypes.DisjointAppend(front, mid, back);
    CloudTypes.DistinctAppend(front + mid, back);
    CloudTypes.DisjointAppend(front, mid, rest);
    CloudTypes.DisjointAppend(front + mid, back, rest);
    CloudTypes.DistinctAppend(front + mid + back, rest);
  }

  /** `to_json(nlohmann::json&, const User&)` as written: the result holds
      exactly the writes of `Puts` under the written keys, and never a status. */
  function ToJson(u: User): (r: Json.Json)
    ensures CloudTypes.Written(r, Puts(u, WrittenKeys))
    ensures !Json.Contains(r, "StatusID")
  {
    KeysAreFresh();
    PutsDistinct(u, WrittenKeys);
    CloudTypes.PutAllWritten(Puts(u, WrittenKeys));
    CloudTypes.PutAll(Json.JNull, Puts(u, WrittenKeys))
  }

  /** `to_json` with the keys `from_json` reads: the result holds exactly the
      writes of `Puts` under the read keys, and never a status. */
  function ToJsonIntended(u: User): (r: Json.Json)
    ensures CloudTypes.Written(r, Puts(u, ReadKeys))
    ensures !Json.Contains(r, "StatusID")
  {
    KeysAreFresh();
    PutsDistinct(u, ReadKeys);
    CloudTypes.PutAllWritten(Puts(u, ReadKeys));
    CloudTypes.PutAll(Json.JNull, Puts(u, ReadKeys))
  }

  /** `from_json(const nlohmann::json&, User&)`, filling `u`, in the source's order. */
  function FromJson(j: Json.Json, u: User): (r: Result<User, CloudTypes.TypeError>)
    ensures r.Success? && !Json.Contains(j, "StatusID") ==> r.value.status == Unknown
    ensures r.Success? && !Json.Contains(j, "HeightCm") ==> r.value.heightCM == u.heightCM
  {
    var id :- CloudTypes.GetValidField(j, "ID", u.id, Json.AsString);
    var gender :- CloudTypes.GetValidField(j, "Gender", u.gender, Json.AsString);
    var dateOfBirth :- CloudTypes.GetValidField(j, "DateOfBirth", u.dateOfBirth, Json.AsU64);
    var created :- CloudTypes.GetValidField(j, "Created", u.created, Json.AsU64);
    var updated :- CloudTypes.GetValidField(j, "Updated", u.updated, Json.AsU64);
    var organizationID :- CloudTypes.GetValidField(j, "OrganizationID", u.organizationID, Json.AsString);
    var role :- CloudTypes.GetValidField(j, "RoleID", u.role, Json.AsString);
    var statusText :- CloudTypes.ReadEnumText(j, "StatusID");
    var email :- CloudTypes.GetValidField(j, "Email", u.email, Json.AsString);
    var password :- CloudTypes.GetValidField(j, "Password", u.password, Json.AsString);
    var firstName :- CloudTypes.GetValidField(j, "FirstName", u.firstName, Json.AsString);
    var lastName :- CloudTypes.GetValidField(j, "LastName", u.lastName, Json.AsString);
    var resetToken :- CloudTypes.GetValidField(j, "ResetToken", u.resetToken, Json.AsString);
    var resetTokenDate :- CloudTypes.GetValidField(j, "ResetTokenDate", u.resetTokenDate, Json.AsString);
    var avatarURL :- CloudTypes.GetValidField(j, "AvatarURI", u.avatarURL, Json.AsString);
    var isVerified :- CloudTypes.GetValidField(j, "IsVerified", u.isVerified, Json.AsBool);
    var verificationCode :- CloudTypes.GetValidField(j, "VerificationCode", u.verificationCode, Json.AsString);
    var phoneNumber :- CloudTypes.GetValidField(j, "PhoneNumber", u.phoneNumber, Json.AsString);
    var deviceID :- CloudTypes.GetValidField(j, "DeviceID", u.deviceID, Json.AsString);
    var heightCM :- CloudTypes.GetValidField(j, "HeightCm", u.heightCM, Json.AsU16);
    var weightKG :- CloudTypes.GetValidField(j, "WeightKg", u.weightKG, Json.AsU16);
    var loginMethod :- CloudTypes.GetValidField(j, "LoginMethod", u.loginMethod, Json.AsString);
    var ssoID :- CloudTypes.GetValidField(j, "SSOID", u.ssoID, Json.AsString);
    var region :- CloudTypes.GetValidField(j, "Region", u.region, Json.AsString);
    Success(User(id, email, firstName, lastName,
                 if statusText.Some? then StatusEnum(statusText.value) else Unknown,
                 gender, heightCM, weightKG, avatarURL, dateOfBirth, created, updated, password, role,
                 organizationID, resetToken, resetTokenDate, isVerified, verificationCode, phoneNumber,
                 deviceID, loginMethod, ssoID, region))
  }

  /** As written, the round trip from a value-initialised user drops the
      status (never written) and the height, weight and avatar (written under
      keys `from_json` does not read); everything else survives. */
  lemma JsonRoundTripAsWritten(u: User)
    ensures FromJson(ToJson(u), Empty) == Success(u.(status := Unknown, heightCM := 0, weightKG := 0, avatarURL := ""))
  {
    KeysAreFresh();
    ReadCommon(u, WrittenKeys);
    ReadMismatched(u);
    FromJsonReads(ToJson(u), Empty, u.(status := Unknown, heightCM := 0, weightKG := 0, avatarURL := ""));
  }

  /** A concrete user whose height is lost: 170 cm comes back as 0. */
  lemma HeightLost()
    ensures FromJson(ToJson(Empty.(heightCM := 170)), Empty) == Success(Empty)
  {
    JsonRoundTripAsWritten(Empty.(heightCM := 170));
  }

  /** With the reading side's keys, everything but the status survives. */
  lemma JsonRoundTripIntended(u: User)
    ensures FromJson(ToJsonIntended(u), Empty) == Success(u.(status := Unknown))
  {
    KeysAreFresh();
    ReadCommon(u, ReadKeys);
    ReadMatched(u);
    FromJsonReads(ToJsonIntended(u), Empty, u.(status := Unknown));
  }

  lemma FromJsonReads(j: Json.Json, u0: User, u: User)
    requires CloudTypes.GetValidField(j, "ID", u0.id, Json.AsString) == Success(u.id)
    requires CloudTypes.GetValidField(j, "Gender", u0.gender, Json.AsString) == Success(u.gender)
    requires CloudTypes.GetValidField(j, "DateOfBirth", u0.dateOfBirth, Json.AsU64) == Success(u.dateOfBirth)
    requires CloudTypes.GetValidField(j, "Created", u0.created, Json.AsU64) == Success(u.created)
    requires CloudTypes.GetValidField(j, "Updated", u0.updated, Json.AsU64) == Success(u.updated)
    requires CloudTypes.GetValidField(j, "OrganizationID", u0.organizationID, Json.AsString) == Success(u.organizationID)
    requires CloudTypes.GetValidField(j, "RoleID", u0.role, Json.AsString) == Success(u.role)
    requires CloudTypes.ReadEnumText(j, "StatusID") == Success(None) && u.status == Unknown
    requires CloudTypes.GetValidField(j, "Email", u0.email, Json.AsString) == Success(u.email)
    requires CloudTypes.GetValidField(j, "Password", u0.password, Json.AsString) == Success(u.password)
    requires CloudTypes.GetValidField(j, "FirstName", u0.firstName, Json.AsString) == Success(u.firstName)
    requires CloudTypes.GetValidField(j, "LastName", u0.lastName, Json.AsString) == Success(u.lastName)
    requires CloudTypes.GetValidField(j, "ResetToken", u0.resetToken, Json.AsString) == Success(u.resetToken)
    requires CloudTypes.GetValidField(j, "ResetTokenDate", u0.resetTokenDate, Json.AsString) == Success(u.resetTokenDate)
    requires CloudTypes.GetValidField(j, "AvatarURI", u0.avatarURL, Json.AsString) == Success(u.avatarURL)
    requires CloudTypes.GetValidField(j, "IsVerified", u0.isVerified, Json.AsBool) == Success(u.isVerified)
    requires CloudTypes.GetValidField(j, "VerificationCode", u0.verificationCode, Json.AsString) == Success(u.verificationCode)
    requires CloudTypes.GetValidField(j, "PhoneNumber", u0.phoneNumber, Json.AsString) == Success(u.phoneNumber)
    requires CloudTypes.GetValidField(j, "DeviceID", u0.deviceID, Json.AsString) == Success(u.deviceID)
    requires CloudTypes.GetValidField(j, "HeightCm", u0.heightCM, Json.AsU16) == Success(u.heightCM)
    requires CloudTypes.GetValidField(j, "WeightKg", u0.weightKG, Json.AsU16) == Success(u.weightKG)
    requires CloudTypes.GetValidField(j, "LoginMethod", u0.loginMethod, Json.AsString) == Success(u.loginMethod)
    requires CloudTypes.GetValidField(j, "SSOID", u0.ssoID, Json.AsString) == Success(u.ssoID)
    requires CloudTypes.GetValidField(j, "Region", u0.region, Json.AsString) == Success(u.region)
    ensures FromJson(j, u0) == Success(u)
  {
  }

  /** The twenty keys both sides agree on read back, and no status is present. */
  lemma ReadCommon(u: User, keys: Keys)
    requires FreshKeys(keys)
    ensures var j := CloudTypes.PutAll(Json.JNull, Puts(u, keys));
      CloudTypes.GetValidField(j, "ID", "", Json.AsString) == Success(u.id) &&
      CloudTypes.GetValidField(j, "Email", "", Json.AsString) == Success(u.email) &&
      CloudTypes.GetValidField(j, "FirstName", "", Json.AsString) == Success(u.firstName) &&
      CloudTypes.GetValidField(j, "LastName", "", Json.AsString) == Success(u.lastName) &&
      CloudTypes.GetValidField(j, "Gender", "", Json.AsString) == Success(u.gender)
    ensures var j := CloudTypes.PutAll(Json.JNull, Puts(u, keys));
      CloudTypes.GetValidField(j, "DateOfBirth", 0, Json.AsU64) == Success(u.dateOfBirth) &&
      CloudTypes.GetValidField(j, "Created", 0, Json.AsU64) == Success(u.created) &&
      CloudTypes.GetValidField(j, "Updated", 0, Json.AsU64) == Success(u.updated) &&
      CloudTypes.GetValidField(j, "Password", "", Json.AsString) == Success(u.password) &&
      CloudTypes.GetValidField(j, "RoleID", "", Json.AsString) == Success(u.role) &&
      CloudTypes.GetValidField(j, "OrganizationID", "", Json.AsString) == Success(u.organizationID) &&
      CloudTypes.GetValidField(j, "ResetToken", "", Json.AsString) == Success(u.resetToken) &&
      CloudTypes.GetValidField(j, "ResetTokenDate", "", Json.AsString) == Success(u.resetTokenDate)
    ensures var j := CloudTypes.PutAll(Json.JNull, Puts(u, keys));
      CloudTypes.GetValidField(j, "IsVerified", false, Json.AsBool) == Success(u.isVerified) &&
      CloudTypes.GetValidField(j, "VerificationCode", "", Json.AsString) == Success(u.verificationCode) &&
      CloudTypes.GetValidField(j, "PhoneNumber", "", Json.AsString) == Success(u.phoneNumber) &&
      CloudTypes.GetValidField(j, "DeviceID", "", Json.AsString) == Success(u.deviceID) &&
      CloudTypes.GetValidField(j, "LoginMethod", "", Json.AsString) == Success(u.loginMethod) &&
      CloudTypes.GetValidField(j, "SSOID", "", Json.AsString) == Success(u.ssoID) &&
      CloudTypes.GetValidField(j, "Region", "", Json.AsString) == Success(u.region)
    ensures CloudTypes.ReadEnumText(CloudTypes.PutAll(Json.JNull, Puts(u, keys)), "StatusID") == Success(None)
  {
    StagedIsPutAll(u, keys);
    ReadNames(u, keys);
    ReadAccount(u, keys);
    ReadContact(u, keys);
    RunsDisjoint(u, keys);
    StagedAbsent(u, keys, "StatusID");
  }

  lemma ReadNames(u: User, keys: Keys)
    requires FreshKeys(keys)
    ensures CloudTypes.GetValidField(Staged(u, keys), "ID", "", Json.AsString) == Success(u.id)
    ensures CloudTypes.GetValidField(Staged(u, keys), "Email", "", Json.AsString) == Success(u.email)
    ensures CloudTypes.GetValidField(Staged(u, keys), "FirstName", "", Json.AsString) == Success(u.firstName)
    ensures CloudTypes.GetValidField(Staged(u, keys), "LastName", "", Json.AsString) == Success(u.lastName)
    ensures CloudTypes.GetValidField(Staged(u, keys), "Gender", "", Json.AsString) == Success(u.gender)
  {
    ReadFront(u, keys, 0, "", Json.AsString, u.id);
    ReadFront(u, keys, 1, "", Json.AsString, u.email);
    ReadFront(u, keys, 2, "", Json.AsString, u.firstName);
    ReadFront(u, keys, 3, "", Json.AsString, u.lastName);
    ReadFront(u, keys, 4, "", Json.AsString, u.gender);
  }

  lemma ReadAccount(u: User, keys: Keys)
    requires FreshKeys(keys)
    ensures CloudTypes.GetValidField(Staged(u, keys), "DateOfBirth", 0, Json.AsU64) == Success(u.dateOfBirth)
    ensures CloudTypes.GetValidField(Staged(u, keys), "Created", 0, Json.AsU64) == Success(u.created)
    ensures CloudTypes.GetValidField(Staged(u, keys), "Updated", 0, Json.AsU64) == Success(u.updated)
    ensures CloudTypes.GetValidField(Staged(u, keys), "Password", "", Json.AsString) == Success(u.password)
    ensures CloudTypes.GetValidField(Staged(u, keys), "RoleID", "", Json.AsString) == Success(u.role)
    ensures CloudTypes.GetValidField(Staged(u, keys), "OrganizationID", "", Json.AsString) == Success(u.organizationID)
    ensures CloudTypes.GetValidField(Staged(u, keys), "ResetToken", "", Json.AsString) == Success(u.resetToken)
    ensures CloudTypes.GetValidField(Staged(u, keys), "ResetTokenDate", "", Json.AsString) == Success(u.resetTokenDate)
  {
    ReadBack(u, keys, 0, 0, Json.AsU64, u.dateOfBirth);
    ReadBack(u, keys, 1, 0, Json.AsU64, u.created);
    ReadBack(u, keys, 2, 0, Json.AsU64, u.updated);
    ReadBack(u, keys, 3, "", Json.AsString, u.password);
    ReadBack(u, keys, 4, "", Json.AsString, u.role);
    ReadBack(u, keys, 5, "", Json.AsString, u.organizationID);
    ReadBack(u, keys, 6, "", Json.AsString, u.resetToken);
    ReadBack(u, keys, 7, "", Json.AsString, u.resetTokenDate);
  }

  lemma ReadContact(u: User, keys: Keys)
    requires FreshKeys(keys)
    ensures CloudTypes.GetValidField(Staged(u, keys), "IsVerified", false, Json.AsBool) == Success(u.isVerified)
    ensures CloudTypes.GetValidField(Staged(u, keys), "VerificationCode", "", Json.AsString) == Success(u.verificationCode)
    ensures CloudTypes.GetValidField(Staged(u, keys), "PhoneNumber", "", Json.AsString) == Success(u.phoneNumber)
    ensures CloudTypes.GetValidField(Staged(u, keys), "DeviceID", "", Json.AsString) == Success(u.deviceID)
    ensures CloudTypes.GetValidField(Staged(u, keys), "LoginMethod", "", Json.AsString) == Success(u.loginMethod)
    ensures CloudTypes.GetValidField(Staged(u, keys), "SSOID", "", Json.AsString) == Success(u.ssoID)
    ensures CloudTypes.GetValidField(Staged(u, keys), "Region", "", Json.AsString) == Success(u.region)
  {
    ReadRest(u, keys, 0, false, Json.AsBool, u.isVerified);
    ReadRest(u, keys, 1, "", Json.AsString, u.verificationCode);
    ReadRest(u, keys, 2, "", Json.AsString, u.phoneNumber);
    ReadRest(u, keys, 3, "", Json.AsString, u.deviceID);
    ReadRest(u, keys, 4, "", Json.AsString, u.loginMethod);
    ReadRest(u, keys, 5, "", Json.AsString, u.ssoID);
    ReadRest(u, keys, 6, "", Json.AsString, u.region);
  }

  /** As written, none of the keys `from_json` reads for height, weight and
      avatar is present, so they keep the defaults. */
  lemma ReadMismatched(u: User)
    ensures CloudTypes.GetValidField(ToJson(u), "HeightCm", 0, Json.AsU16) == Success(0)
    ensures CloudTypes.GetValidField(ToJson(u), "WeightKg", 0, Json.AsU16) == Success(0)
    ensures CloudTypes.GetValidField(ToJson(u), "AvatarURI", "", Json.AsString) == Success("")
  {
    KeysAreFresh();
    StagedIsPutAll(u, WrittenKeys);
    assert forall a :: 0 <= a < |Front(u)| ==> Front(u)[a].name in OtherNames;
    assert forall a :: 0 <= a < |Back(u)| ==> Back(u)[a].name in OtherNames;
    assert forall a :: 0 <= a < |Rest(u)| ==> Rest(u)[a].name in OtherNames;
    StagedAbsent(u, WrittenKeys, "HeightCm");
    StagedAbsent(u, WrittenKeys, "WeightKg");
    StagedAbsent(u, WrittenKeys, "AvatarURI");
  }

  /** With the reading side's keys, height, weight and avatar read back. */
  lemma ReadMatched(u: User)
    ensures CloudTypes.GetValidField(ToJsonIntended(u), "HeightCm", 0, Json.AsU16) == Success(u.heightCM)
    ensures CloudTypes.GetValidField(ToJsonIntended(u), "WeightKg", 0, Json.AsU16) == Success(u.weightKG)
    ensures CloudTypes.GetValidField(ToJsonIntended(u), "AvatarURI", "", Json.AsString) == Success(u.avatarURL)
  {
    KeysAreFresh();
    StagedIsPutAll(u, ReadKeys);
    ReadMid(u, ReadKeys, 0, 0, Json.AsU16, u.heightCM);
    ReadMid(u, ReadKeys, 1, 0, Json.AsU16, u.weightKG);
    ReadMid(u, ReadKeys, 2, "", Json.AsString, u.avatarURL);
  }
}
