/** `Study`, `StudyStatus`, its mapper, and the study JSON form
    (api-cpp/src/StudyTypes.cpp). */
module StudyTypes {
  import opened Wrappers
  import Text
  import Json
  import Mapper
  import CloudTypes

  datatype StudyStatus = Unknown | Active | Inactive | Deleted

  const StatusToString: map<StudyStatus, string> :=
    map[Unknown := "UNKNOWN", Active := "ACTIVE", Inactive := "INACTIVE", Deleted := "DELETED"]

  const StatusToEnum: map<string, StudyStatus> :=
    map["UNKNOWN" := Unknown, "ACTIVE" := Active, "INACTIVE" := Inactive, "DELETED" := Deleted]

  /** The status tables are inverse and cover every status. */
  lemma StatusTables()
    ensures Mapper.Inverse(StatusToString, StatusToEnum)
    ensures forall s: StudyStatus :: s in StatusToString
  {
    forall s: StudyStatus ensures s in StatusToString {
      match s
      case Unknown => case Active => case Inactive => case Deleted =>
    }
  }

  /** `getEnum`: the value named `s`, or Unknown for a name the table does not know. */
  function StatusEnum(s: string): (r: StudyStatus)
    ensures r in StatusToString && (s in StatusToEnum <==> StatusToString[r] == s)
    ensures s !in StatusToEnum ==> r == Unknown
  {
    StatusTables();
    Mapper.GetEnum(StatusToEnum, s, Unknown)
  }

  /** `getString`: the value's name, which the table maps back to the value. */
  function StatusString(s: StudyStatus): (r: string)
    ensures r in StatusToEnum && StatusToEnum[r] == s
  {
    StatusTables();
    Mapper.GetString(StatusToString, s)
  }

  /** `getEnum(getString(s)) == s` for all four statuses; an unknown string
      gives UNKNOWN. */
  lemma MapperRoundTrip(st: StudyStatus, s: string)
    ensures StatusEnum(StatusString(st)) == st
    ensures s !in StatusToEnum ==> StatusEnum(s) == Unknown
    ensures s in StatusToEnum ==> StatusString(StatusEnum(s)) == s
  {
    StatusTables();
    Mapper.RoundTrip(StatusToString, StatusToEnum, Unknown, st, s);
  }

  datatype Study = Study(
    id: string, name: string, description: string, templateID: string, status: StudyStatus,
    created: Text.U64, updated: Text.U64, numberMeasurements: Text.U64, numberParticipants: Text.U64)

  /** A value-initialised `Study`. */
  const Empty := Study("", "", "", "", Unknown, 0, 0, 0, 0)

  /** The writes of `to_json(nlohmann::json&, const Study&)`, in order. */
  function Puts(s: Study): seq<CloudTypes.Put>
  {
    [CloudTypes.Put("ID", Json.Str(s.id), s.id != ""),
     CloudTypes.Put("Name", Json.Str(s.name), s.name != ""),
     CloudTypes.Put("Description", Json.Str(s.description), s.description != ""),
     CloudTypes.Put("StudyTemplateID", Json.Str(s.templateID), s.templateID != ""),
     CloudTypes.Put("Participants", Json.Int(s.numberParticipants), s.numberParticipants != 0),
     CloudTypes.Put("Measurements", Json.Int(s.numberMeasurements), s.numberMeasurements != 0),
     CloudTypes.Put("Created", Json.Int(s.created), s.created != 0),
     CloudTypes.Put("Updated", Json.Int(s.updated), s.updated != 0),
     CloudTypes.Put("StatusID", Json.Str(StatusString(s.status)), s.status != Unknown)]
  }

  lemma PutsDistinct(s: Study)
    ensures |Puts(s)| == 9 && CloudTypes.DistinctNames(Puts(s))
  {
  }

  /** `to_json(nlohmann::json&, const Study&)`, starting from `json()`: the
      result holds exactly the writes of `Puts`, and is null when none writes. */
  function ToJson(s: Study): (r: Json.Json)
    ensures CloudTypes.Written(r, Puts(s))
  {
    PutsDistinct(s);
    CloudTypes.PutAllWritten(Puts(s));
    CloudTypes.PutAll(Json.JNull, Puts(s))
  }

  /** `from_json(const nlohmann::json&, Study&)`, filling `s`. */
  function FromJson(j: Json.Json, s: Study): (r: Result<Study, CloudTypes.TypeError>)
    ensures r.Success? && !Json.Contains(j, "StatusID") ==> r.value.status == Unknown
    ensures r.Success? && !Json.Contains(j, "Name") ==> r.value.name == s.name
  {
    var id :- CloudTypes.GetValidField(j, "ID", s.id, Json.AsString);
    var name :- CloudTypes.GetValidField(j, "Name", s.name, Json.AsString);
    var description :- CloudTypes.GetValidField(j, "Description", s.description, Json.AsString);
    var templateID :- CloudTypes.GetValidField(j, "StudyTemplateID", s.templateID, Json.AsString);
    var participants :- CloudTypes.GetValidField(j, "Participants", s.numberParticipants, Json.AsU64);
    var measurements :- CloudTypes.GetValidField(j, "Measurements", s.numberMeasurements, Json.AsU64);
    var created :- CloudTypes.GetValidField(j, "Created", s.created, Json.AsU64);
    var updated :- CloudTypes.GetValidField(j, "Updated", s.updated, Json.AsU64);
    var statusText :- CloudTypes.ReadEnumText(j, "StatusID");
    Success(Study(id, name, description, templateID,
                  if statusText.Some? then StatusEnum(statusText.value) else Unknown,
                  created, updated, measurements, participants))
  }

  /** to_json leaves out an UNKNOWN status and default fields, and from_json
      reads every non-default field back: the round trip from a
      value-initialised study is exact. */
  lemma JsonRoundTrip(s: Study)
    ensures FromJson(ToJson(s), Empty) == Success(s)
  {
    ReadStrings(s);
    ReadNumbers(s);
    ReadStatus(s);
    FromJsonReads(ToJson(s), Empty, s);
  }

  lemma FromJsonReads(j: Json.Json, s0: Study, s: Study)
    requires CloudTypes.GetValidField(j, "ID", s0.id, Json.AsString) == Success(s.id)
    requires CloudTypes.GetValidField(j, "Name", s0.name, Json.AsString) == Success(s.name)
    requires CloudTypes.GetValidField(j, "Description", s0.description, Json.AsString) == Success(s.description)
    requires CloudTypes.GetValidField(j, "StudyTemplateID", s0.templateID, Json.AsString) == Success(s.templateID)
    requires CloudTypes.GetValidField(j, "Participants", s0.numberParticipants, Json.AsU64) == Success(s.numberParticipants)
    requires CloudTypes.GetValidField(j, "Measurements", s0.numberMeasurements, Json.AsU64) == Success(s.numberMeasurements)
    requires CloudTypes.GetValidField(j, "Created", s0.created, Json.AsU64) == Success(s.created)
    requires CloudTypes.GetValidField(j, "Updated", s0.updated, Json.AsU64) == Success(s.updated)
    requires CloudTypes.ReadEnumText(j, "StatusID") == if s.status == Unknown then Success(None) else Success(Some(StatusString(s.status)))
    requires StatusEnum(StatusString(s.status)) == s.status
    ensures FromJson(j, s0) == Success(s)
  {
  }

  lemma ReadStrings(s: Study)
    ensures CloudTypes.GetValidField(ToJson(s), "ID", "", Json.AsString) == Success(s.id)
    ensures CloudTypes.GetValidField(ToJson(s), "Name", "", Json.AsString) == Success(s.name)
    ensures CloudTypes.GetValidField(ToJson(s), "Description", "", Json.AsString) == Success(s.description)
    ensures CloudTypes.GetValidField(ToJson(s), "StudyTemplateID", "", Json.AsString) == Success(s.templateID)
  {
    PutsDistinct(s);
    CloudTypes.PutAllField(Json.JNull, Puts(s), 0);
    CloudTypes.PutAllField(Json.JNull, Puts(s), 1);
    CloudTypes.PutAllField(Json.JNull, Puts(s), 2);
    CloudTypes.PutAllField(Json.JNull, Puts(s), 3);
  }

  lemma ReadNumbers(s: Study)
    ensures CloudTypes.GetValidField(ToJson(s), "Participants", 0, Json.AsU64) == Success(s.numberParticipants)
    ensures CloudTypes.GetValidField(ToJson(s), "Measurements", 0, Json.AsU64) == Success(s.numberMeasurements)
    ensures CloudTypes.GetValidField(ToJson(s), "Created", 0, Json.AsU64) == Success(s.created)
    ensures CloudTypes.GetValidField(ToJson(s), "Updated", 0, Json.AsU64) == Success(s.updated)
  {
    PutsDistinct(s);
    CloudTypes.PutAllField(Json.JNull, Puts(s), 4);
    CloudTypes.PutAllField(Json.JNull, Puts(s), 5);
    CloudTypes.PutAllField(Json.JNull, Puts(s), 6);
    CloudTypes.PutAllField(Json.JNull, Puts(s), 7);
  }

  lemma ReadStatus(s: Study)
    ensures Json.Contains(ToJson(s), "StatusID") <==> s.status != Unknown
    ensures CloudTypes.ReadEnumText(ToJson(s), "StatusID") == if s.status == Unknown then Success(None) else Success(Some(StatusString(s.status)))
    ensures StatusEnum(StatusString(s.status)) == s.status
  {
    PutsDistinct(s);
    CloudTypes.PutAllField(Json.JNull, Puts(s), 8);
    MapperRoundTrip(s.status, "");
  }
}
