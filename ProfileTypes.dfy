/** `Profile`, `ProfileStatus`, its mapper, and the profile JSON form
    (api-cpp/src/ProfileTypes.cpp). */
module ProfileTypes {
  import opened Wrappers
  import Text
  import Json
  import Mapper
  import CloudTypes

  datatype ProfileStatus = Unknown | Active | Inactive

  const StatusToString: map<ProfileStatus, string> :=
    map[Unknown := "UNKNOWN", Active := "ACTIVE", Inactive := "INACTIVE"]

  const StatusToEnum: map<string, ProfileStatus> :=
    map["UNKNOWN" := Unknown, "ACTIVE" := Active, "INACTIVE" := Inactive]

  /** The status tables are inverse and cover every status. */
  lemma StatusTables()
    ensures Mapper.Inverse(StatusToString, StatusToEnum)
    ensures forall s: ProfileStatus :: s in StatusToString
  {
    forall s: ProfileStatus ensures s in StatusToString {
      match s
      case Unknown => case Active => case Inactive =>
    }
  }

  /** `getEnum`: the value named `s`, or Unknown for a name the table does not know. */
  function StatusEnum(s: string): (r: ProfileStatus)
    ensures r in StatusToString && (s in StatusToEnum <==> StatusToString[r] == s)
    ensures s !in StatusToEnum ==> r == Unknown
  {
    StatusTables();
    Mapper.GetEnum(StatusToEnum, s, Unknown)
  }

  /** `getString`: the value's name, which the table maps back to the value. */
  function StatusString(s: ProfileStatus): (r: string)
    ensures r in StatusToEnum && StatusToEnum[r] == s
  {
    StatusTables();
    Mapper.GetString(StatusToString, s)
  }

  /** `getEnum(getString(s)) == s` for all three statuses; an unknown string
      gives UNKNOWN. */
  lemma MapperRoundTrip(st: ProfileStatus, s: string)
    ensures StatusEnum(StatusString(st)) == st
    ensures s !in StatusToEnum ==> StatusEnum(s) == Unknown
    ensures s in StatusToEnum ==> StatusString(StatusEnum(s)) == s
  {
    StatusTables();
    Mapper.RoundTrip(StatusToString, StatusToEnum, Unknown, st, s);
  }

  /** `ProfileStatusMapper::getValues`: the statuses a client may set. */
  function GetValues(): seq<ProfileStatus>
  {
    [Active, Inactive]
  }

  /** `getValues` lists every status but UNKNOWN, each once. */
  lemma GetValuesComplete(s: ProfileStatus)
    ensures s in GetValues() <==> s != Unknown
    ensures forall a, b :: 0 <= a < b < |GetValues()| ==> GetValues()[a] != GetValues()[b]
  {
    match s
    case Unknown => case Active => case Inactive =>
  }

  /** Every value `getValues` offers is written under its own name, which
      reads back as that value. */
  lemma GetValuesNamed(s: ProfileStatus)
    requires s in GetValues()
    ensures StatusString(s) != "UNKNOWN" && StatusEnum(StatusString(s)) == s
  {
    MapperRoundTrip(s, "");
  }

  datatype Profile = Profile(
    id: string, ownerUserEmail: string, name: string, email: string, status: ProfileStatus,
    measurementCount: Text.U32, created: Text.U64, updated: Text.U64)

  /** A value-initialised `Profile`. */
  const Empty := Profile("", "", "", "", Unknown, 0, 0, 0)

  /** The writes of `to_json(nlohmann::json&, const Profile&)`, in order; the
      last is the guarded `j["Status"] = …`. */
  function Puts(p: Profile): seq<CloudTypes.Put>
  {
    [CloudTypes.Put("ID", Json.Str(p.id), p.id != ""),
     CloudTypes.Put("Name", Json.Str(p.name), p.name != ""),
     CloudTypes.Put("Email", Json.Str(p.email), p.email != ""),
     CloudTypes.Put("MeasurementCount", Json.Int(p.measurementCount), p.measurementCount != 0),
     CloudTypes.Put("Created", Json.Int(p.created), p.created != 0),
     CloudTypes.Put("Updated", Json.Int(p.updated), p.updated != 0),
     CloudTypes.Put("OwnerUserEmail", Json.Str(p.ownerUserEmail), p.ownerUserEmail != ""),
     CloudTypes.Put("Status", Json.Str(StatusString(p.status)), p.status != Unknown)]
  }

  lemma PutsDistinct(p: Profile)
    ensures |Puts(p)| == 8 && CloudTypes.DistinctNames(Puts(p))
  {
  }

  /** `to_json(nlohmann::json&, const Profile&)`, starting from `json()`: the
      result holds exactly the writes of `Puts`, and is null when none writes. */
  function ToJson(p: Profile): (r: Json.Json)
    ensures CloudTypes.Written(r, Puts(p))
  {
    PutsDistinct(p);
    CloudTypes.PutAllWritten(Puts(p));
    CloudTypes.PutAll(Json.JNull, Puts(p))
  }

  /** `from_json(const nlohmann::json&, Profile&)`, filling `p`. */
  function FromJson(j: Json.Json, p: Profile): (r: Result<Profile, CloudTypes.TypeError>)
    ensures r.Success? && !Json.Contains(j, "Status") ==> r.value.status == Unknown
    ensures r.Success? && !Json.Contains(j, "OwnerUserEmail") ==> r.value.ownerUserEmail == p.ownerUserEmail
  {
    var id :- CloudTypes.GetValidField(j, "ID", p.id, Json.AsString);
    var name :- CloudTypes.GetValidField(j, "Name", p.name, Json.AsString);
    var email :- CloudTypes.GetValidField(j, "Email", p.email, Json.AsString);
    var statusText :- CloudTypes.ReadEnumText(j, "Status");
    var measurementCount :- CloudTypes.GetValidField(j, "MeasurementCount", p.measurementCount, Json.AsU32);
    var created :- CloudTypes.GetValidField(j, "Created", p.created, Json.AsU64);
    var updated :- CloudTypes.GetValidField(j, "Updated", p.updated, Json.AsU64);
    var ownerUserEmail :- CloudTypes.GetValidField(j, "OwnerUserEmail", p.ownerUserEmail, Json.AsString);
    Success(Profile(id, ownerUserEmail, name, email,
                    if statusText.Some? then StatusEnum(statusText.value) else Unknown,
                    measurementCount, created, updated))
  }

  /** A profile written by `to_json` reads back unchanged into a
      value-initialised one. */
  lemma JsonRoundTrip(p: Profile)
    ensures FromJson(ToJson(p), Empty) == Success(p)
  {
    ReadFields(p);
    ReadStatus(p);
    FromJsonReads(ToJson(p), Empty, p);
  }

  lemma FromJsonReads(j: Json.Json, p0: Profile, p: Profile)
    requires CloudTypes.GetValidField(j, "ID", p0.id, Json.AsString) == Success(p.id)
    requires CloudTypes.GetValidField(j, "Name", p0.name, Json.AsString) == Success(p.name)
    requires CloudTypes.GetValidField(j, "Email", p0.email, Json.AsString) == Success(p.email)
    requires CloudTypes.ReadEnumText(j, "Status") == if p.status == Unknown then Success(None) else Success(Some(StatusString(p.status)))
    requires StatusEnum(StatusString(p.status)) == p.status
    requires CloudTypes.GetValidField(j, "MeasurementCount", p0.measurementCount, Json.AsU32) == Success(p.measurementCount)
    requires CloudTypes.GetValidField(j, "Created", p0.created, Json.AsU64) == Success(p.created)
    requires CloudTypes.GetValidField(j, "Updated", p0.updated, Json.AsU64) == Success(p.updated)
    requires CloudTypes.GetValidField(j, "OwnerUserEmail", p0.ownerUserEmail, Json.AsString) == Success(p.ownerUserEmail)
    ensures FromJson(j, p0) == Success(p)
  {
  }

  lemma ReadFields(p: Profile)
    ensures CloudTypes.GetValidField(ToJson(p), "ID", "", Json.AsString) == Success(p.id)
    ensures CloudTypes.GetValidField(ToJson(p), "Name", "", Json.AsString) == Success(p.name)
    ensures CloudTypes.GetValidField(ToJson(p), "Email", "", Json.AsString) == Success(p.email)
    ensures CloudTypes.GetValidField(ToJson(p), "MeasurementCount", 0, Json.AsU32) == Success(p.measurementCount)
    ensures CloudTypes.GetValidField(ToJson(p), "Created", 0, Json.AsU64) == Success(p.created)
    ensures CloudTypes.GetValidField(ToJson(p), "Updated", 0, Json.AsU64) == Success(p.updated)
    ensures CloudTypes.GetValidField(ToJson(p), "OwnerUserEmail", "", Json.AsString) == Success(p.ownerUserEmail)
  {
    ReadTexts(p);
    ReadNumbers(p);
  }

  lemma ReadTexts(p: Profile)
    ensures CloudTypes.GetValidField(ToJson(p), "ID", "", Json.AsString) == Success(p.id)
    ensures CloudTypes.GetValidField(ToJson(p), "Name", "", Json.AsString) == Success(p.name)
    ensures CloudTypes.GetValidField(ToJson(p), "Email", "", Json.AsString) == Success(p.email)
    ensures CloudTypes.GetValidField(ToJson(p), "OwnerUserEmail", "", Json.AsString) == Success(p.ownerUserEmail)
  {
    var puts := Puts(p);
    PutsDistinct(p);
    CloudTypes.ReadPut(Json.JNull, puts, 0, "", Json.AsString, p.id);
    CloudTypes.ReadPut(Json.JNull, puts, 1, "", Json.AsString, p.name);
    CloudTypes.ReadPut(Json.JNull, puts, 2, "", Json.AsString, p.email);
    CloudTypes.ReadPut(Json.JNull, puts, 6, "", Json.AsString, p.ownerUserEmail);
  }

  lemma ReadNumbers(p: Profile)
    ensures CloudTypes.GetValidField(ToJson(p), "MeasurementCount", 0, Json.AsU32) == Success(p.measurementCount)
    ensures CloudTypes.GetValidField(ToJson(p), "Created", 0, Json.AsU64) == Success(p.created)
    ensures CloudTypes.GetValidField(ToJson(p), "Updated", 0, Json.AsU64) == Success(p.updated)
  {
    var puts := Puts(p);
    PutsDistinct(p);
    CloudTypes.ReadPut(Json.JNull, puts, 3, 0, Json.AsU32, p.measurementCount);
    CloudTypes.ReadPut(Json.JNull, puts, 4, 0, Json.AsU64, p.created);
    CloudTypes.ReadPut(Json.JNull, puts, 5, 0, Json.AsU64, p.updated);
  }

  /** "Status" is present exactly when the status is not UNKNOWN, and holds
      its mapped name. */
  lemma ReadStatus(p: Profile)
    ensures Json.Contains(ToJson(p), "Status") <==> p.status != Unknown
    ensures CloudTypes.ReadEnumText(ToJson(p), "Status") == if p.status == Unknown then Success(None) else Success(Some(StatusString(p.status)))
    ensures StatusEnum(StatusString(p.status)) == p.status
  {
    PutsDistinct(p);
    CloudTypes.PutAllField(Json.JNull, Puts(p), 7);
    MapperRoundTrip(p.status, "");
  }
}
