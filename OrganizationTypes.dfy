/** `Organization`, `OrganizationStatus`, its mapper, and the organization
    JSON form (api-cpp/src/OrganizationTypes.cpp). */
module OrganizationTypes {
  import opened Wrappers
  import Text
  import Json
  import Mapper
  import CloudTypes

  datatype OrganizationStatus = Unknown | Active | Inactive | Deleted

  const StatusToString: map<OrganizationStatus, string> :=
    map[Unknown := "UNKNOWN", Active := "ACTIVE", Inactive := "INACTIVE", Deleted := "DELETED"]

  const StatusToEnum: map<string, OrganizationStatus> :=
    map["UNKNOWN" := Unknown, "ACTIVE" := Active, "INACTIVE" := Inactive, "DELETED" := Deleted]

  /** The status tables are inverse and cover every status. */
  lemma StatusTables()
    ensures Mapper.Inverse(StatusToString, StatusToEnum)
    ensures forall s: OrganizationStatus :: s in StatusToString
  {
    forall s: OrganizationStatus ensures s in StatusToString {
      match s
      case Unknown => case Active => case Inactive => case Deleted =>
    }
  }

  /** `getEnum`: the value named `s`, or Unknown for a name the table does not know. */
  function StatusEnum(s: string): (r: OrganizationStatus)
    ensures r in StatusToString && (s in StatusToEnum <==> StatusToString[r] == s)
    ensures s !in StatusToEnum ==> r == Unknown
  {
    StatusTables();
    Mapper.GetEnum(StatusToEnum, s, Unknown)
  }

  /** `getString`: the value's name, which the table maps back to the value. */
  function StatusString(s: OrganizationStatus): (r: string)
    ensures r in StatusToEnum && StatusToEnum[r] == s
  {
    StatusTables();
    Mapper.GetString(StatusToString, s)
  }

  /** `getEnum(getString(s)) == s` for all four statuses; an unknown string
      gives UNKNOWN. */
  lemma MapperRoundTrip(st: OrganizationStatus, s: string)
    ensures StatusEnum(StatusString(st)) == st
    ensures s !in StatusToEnum ==> StatusEnum(s) == Unknown
    ensures s in StatusToEnum ==> StatusString(StatusEnum(s)) == s
  {
    StatusTables();
    Mapper.RoundTrip(StatusToString, StatusToEnum, Unknown, st, s);
  }

  /** `Organization`; `logo` is neither written nor read by the JSON form. */
  datatype Organization = Organization(
    id: string, name: string, identifier: string, status: OrganizationStatus, publicKey: string,
    logo: string, contact: string, email: string, address: string, created: Text.U64, updated: Text.U64)

  /** A value-initialised `Organization`. */
  const Empty := Organization("", "", "", Unknown, "", "", "", "", "", 0, 0)

  /** The writes of `to_json(nlohmann::json&, const Organization&)`, in order;
      the last is the guarded `j["StatusID"] = …`. */
  function Puts(o: Organization): seq<CloudTypes.Put>
  {
    [CloudTypes.Put("ID", Json.Str(o.id), o.id != ""),
     CloudTypes.Put("Name", Json.Str(o.name), o.name != ""),
     CloudTypes.Put("Identifier", Json.Str(o.identifier), o.identifier != ""),
     CloudTypes.Put("PublicKey", Json.Str(o.publicKey), o.publicKey != ""),
     CloudTypes.Put("Contact", Json.Str(o.contact), o.contact != ""),
     CloudTypes.Put("Email", Json.Str(o.email), o.email != ""),
     CloudTypes.Put("Address", Json.Str(o.address), o.address != ""),
     CloudTypes.Put("Created", Json.Int(o.created), o.created != 0),
     CloudTypes.Put("Updated", Json.Int(o.updated), o.updated != 0),
     CloudTypes.Put("StatusID", Json.Str(StatusString(o.status)), o.status != Unknown)]
  }

  lemma PutsDistinct(o: Organization)
    ensures |Puts(o)| == 10 && CloudTypes.DistinctNames(Puts(o))
  {
  }

  /** `to_json(nlohmann::json&, const Organization&)`, starting from `json()`: the
      result holds exactly the writes of `Puts`, and is null when none writes. */
  function ToJson(o: Organization): (r: Json.Json)
    ensures CloudTypes.Written(r, Puts(o))
  {
    PutsDistinct(o);
    CloudTypes.PutAllWritten(Puts(o));
    CloudTypes.PutAll(Json.JNull, Puts(o))
  }

  /** `from_json(const nlohmann::json&, Organization&)`, filling `o`. */
  function FromJson(j: Json.Json, o: Organization): (r: Result<Organization, CloudTypes.TypeError>)
    ensures r.Success? && !Json.Contains(j, "StatusID") ==> r.value.status == Unknown
    ensures r.Success? ==> r.value.logo == o.logo
  {
    var id :- CloudTypes.GetValidField(j, "ID", o.id, Json.AsString);
    var name :- CloudTypes.GetValidField(j, "Name", o.name, Json.AsString);
    var identifier :- CloudTypes.GetValidField(j, "Identifier", o.identifier, Json.AsString);
    var publicKey :- CloudTypes.GetValidField(j, "PublicKey", o.publicKey, Json.AsString);
    var contact :- CloudTypes.GetValidField(j, "Contact", o.contact, Json.AsString);
    var email :- CloudTypes.GetValidField(j, "Email", o.email, Json.AsString);
    var address :- CloudTypes.GetValidField(j, "Address", o.address, Json.AsString);
    var created :- CloudTypes.GetValidField(j, "Created", o.created, Json.AsU64);
    var updated :- CloudTypes.GetValidField(j, "Updated", o.updated, Json.AsU64);
    var statusText :- CloudTypes.ReadEnumText(j, "StatusID");
    Success(Organization(id, name, identifier,
                         if statusText.Some? then StatusEnum(statusText.value) else Unknown,
                         publicKey, o.logo, contact, email, address, created, updated))
  }

  /** An organization written by `to_json` reads back into a value-initialised
      one unchanged, except for the logo, which the JSON form does not carry. */
  lemma JsonRoundTrip(o: Organization)
    ensures FromJson(ToJson(o), Empty) == Success(o.(logo := ""))
  {
    ReadFields(o);
    ReadMoreFields(o);
    ReadStatus(o);
    FromJsonReads(ToJson(o), Empty, o.(logo := ""));
  }

  lemma FromJsonReads(j: Json.Json, o0: Organization, o: Organization)
    requires CloudTypes.GetValidField(j, "ID", o0.id, Json.AsString) == Success(o.id)
    requires CloudTypes.GetValidField(j, "Name", o0.name, Json.AsString) == Success(o.name)
    requires CloudTypes.GetValidField(j, "Identifier", o0.identifier, Json.AsString) == Success(o.identifier)
    requires CloudTypes.GetValidField(j, "PublicKey", o0.publicKey, Json.AsString) == Success(o.publicKey)
    requires CloudTypes.GetValidField(j, "Contact", o0.contact, Json.AsString) == Success(o.contact)
    requires CloudTypes.GetValidField(j, "Email", o0.email, Json.AsString) == Success(o.email)
    requires CloudTypes.GetValidField(j, "Address", o0.address, Json.AsString) == Success(o.address)
    requires CloudTypes.GetValidField(j, "Created", o0.created, Json.AsU64) == Success(o.created)
    requires CloudTypes.GetValidField(j, "Updated", o0.updated, Json.AsU64) == Success(o.updated)
    requires CloudTypes.ReadEnumText(j, "StatusID") == if o.status == Unknown then Success(None) else Success(Some(StatusString(o.status)))
    requires StatusEnum(StatusString(o.status)) == o.status
    requires o.logo == o0.logo
    ensures FromJson(j, o0) == Success(o)
  {
  }

  lemma ReadFields(o: Organization)
    ensures CloudTypes.GetValidField(ToJson(o), "ID", "", Json.AsString) == Success(o.id)
    ensures CloudTypes.GetValidField(ToJson(o), "Name", "", Json.AsString) == Success(o.name)
    ensures CloudTypes.GetValidField(ToJson(o), "Identifier", "", Json.AsString) == Success(o.identifier)
    ensures CloudTypes.GetValidField(ToJson(o), "PublicKey", "", Json.AsString) == Success(o.publicKey)
  {
    var puts := Puts(o);
    PutsDistinct(o);
    CloudTypes.ReadPut(Json.JNull, puts, 0, "", Json.AsString, o.id);
    CloudTypes.ReadPut(Json.JNull, puts, 1, "", Json.AsString, o.name);
    CloudTypes.ReadPut(Json.JNull, puts, 2, "", Json.AsString, o.identifier);
    CloudTypes.ReadPut(Json.JNull, puts, 3, "", Json.AsString, o.publicKey);
  }

  lemma ReadMoreFields(o: Organization)
    ensures CloudTypes.GetValidField(ToJson(o), "Contact", "", Json.AsString) == Success(o.contact)
    ensures CloudTypes.GetValidField(ToJson(o), "Email", "", Json.AsString) == Success(o.email)
    ensures CloudTypes.GetValidField(ToJson(o), "Address", "", Json.AsString) == Success(o.address)
    ensures CloudTypes.GetValidField(ToJson(o), "Created", 0, Json.AsU64) == Success(o.created)
    ensures CloudTypes.GetValidField(ToJson(o), "Updated", 0, Json.AsU64) == Success(o.updated)
  {
    var puts := Puts(o);
    PutsDistinct(o);
    CloudTypes.ReadPut(Json.JNull, puts, 4, "", Json.AsString, o.contact);
    CloudTypes.ReadPut(Json.JNull, puts, 5, "", Json.AsString, o.email);
    CloudTypes.ReadPut(Json.JNull, puts, 6, "", Json.AsString, o.address);
    CloudTypes.ReadPut(Json.JNull, puts, 7, 0, Json.AsU64, o.created);
    CloudTypes.ReadPut(Json.JNull, puts, 8, 0, Json.AsU64, o.updated);
  }

  /** "StatusID" is present exactly when the status is not UNKNOWN, and holds
      its mapped name. */
  lemma ReadStatus(o: Organization)
    ensures Json.Contains(ToJson(o), "StatusID") <==> o.status != Unknown
    ensures CloudTypes.ReadEnumText(ToJson(o), "StatusID") == if o.status == Unknown then Success(None) else Success(Some(StatusString(o.status)))
    ensures StatusEnum(StatusString(o.status)) == o.status
  {
    PutsDistinct(o);
    CloudTypes.PutAllField(Json.JNull, Puts(o), 9);
    MapperRoundTrip(o.status, "");
  }
}
