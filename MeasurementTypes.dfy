/** `Measurement`, `MeasurementStatus`, its mapper, and the measurement JSON
    form (api-cpp/src/MeasurementTypes.cpp). Seven fields hold JSON objects
    kept as their text: `to_json` parses each non-empty one with
    `nlohmann::json::parse` and `from_json` stores the `dump()` of what it
    finds. Both library calls are parameters here: `parse` gives `None` where
    the library throws `parse_error`. */
module MeasurementTypes {
  import opened Wrappers
  import Text
  import Json
  import Mapper
  import CloudTypes

  /** ERROR_STATUS is named "ERROR" on the wire. */
  datatype MeasurementStatus = Unknown | InProgress | Cancelled | ErrorStatus | Complete | Warning

  const StatusToString: map<MeasurementStatus, string> :=
    map[Unknown := "UNKNOWN", InProgress := "IN_PROGRESS", Cancelled := "CANCELLED",
        Complete := "COMPLETE", Warning := "WARNING", ErrorStatus := "ERROR"]

  const StatusToEnum: map<string, MeasurementStatus> :=
    map["UNKNOWN" := Unknown, "IN_PROGRESS" := InProgress, "CANCELLED" := Cancelled,
        "COMPLETE" := Complete, "WARNING" := Warning, "ERROR" := ErrorStatus]

  /** The status tables are inverse and cover every status. */
  lemma StatusTables()
    ensures Mapper.Inverse(StatusToString, StatusToEnum)
    ensures forall s: MeasurementStatus :: s in StatusToString
  {
    forall s: MeasurementStatus ensures s in StatusToString {
      match s
      case Unknown => case InProgress => case Cancelled => case ErrorStatus => case Complete => case Warning =>
    }
  }

  /** `getEnum`: the value named `s`, or Unknown for a name the table does not know. */
  function StatusEnum(s: string): (r: MeasurementStatus)
    ensures r in StatusToString && (s in StatusToEnum <==> StatusToString[r] == s)
    ensures s !in StatusToEnum ==> r == Unknown
  {
    StatusTables();
    Mapper.GetEnum(StatusToEnum, s, Unknown)
  }

  /** `getString`: the value's name, which the table maps back to the value. */
  function StatusString(s: MeasurementStatus): (r: string)
    ensures r in StatusToEnum && StatusToEnum[r] == s
  {
    StatusTables();
    Mapper.GetString(StatusToString, s)
  }

  /** `getEnum(getString(s)) == s` for all six statuses; an unknown string
      gives UNKNOWN; ERROR_STATUS and "ERROR" correspond both ways. */
  lemma MapperRoundTrip(st: MeasurementStatus, s: string)
    ensures StatusEnum(StatusString(st)) == st
    ensures s !in StatusToEnum ==> StatusEnum(s) == Unknown
    ensures s in StatusToEnum ==> StatusString(StatusEnum(s)) == s
    ensures StatusString(ErrorStatus) == "ERROR" && StatusEnum("ERROR") == ErrorStatus
  {
    StatusTables();
    Mapper.RoundTrip(StatusToString, StatusToEnum, Unknown, st, s);
  }

  datatype Measurement = Measurement(
    id: string, studyID: string, deviceID: string, created: Text.U64, updated: Text.U64,
    status: MeasurementStatus, organizationID: string, statusID: string, userID: string,
    userProfileID: string, userProfileName: string, resolution: Text.U16, deviceVersion: string,
    comments: string, mode: string, city: string, state: string, country: string, region: string,
    partnerID: string, signalNames: string, signalDescriptions: string, signalConfig: string,
    signalUnits: string, dataSizeBytes: Text.U64, files: string, results: string)

  /** A value-initialised `Measurement`. */
  const Empty := Measurement("", "", "", 0, 0, Unknown, "", "", "", "", "", 0, "", "", "", "", "", "", "",
                             "", "", "", "", "", 0, "", "")

  /** nlohmann's `parse_error`, naming the text that failed to parse. */
  datatype ParseError = ParseError(text: string)

  /** The parsed values of the seven object-valued fields. */
  datatype Objects = Objects(comments: Json.Json, results: Json.Json, files: Json.Json, signalNames: Json.Json, signalDescriptions: Json.Json, signalConfig: Json.Json, signalUnits: Json.Json)

  /** `nlohmann::json::parse(text)` for a non-empty field; an empty one is not parsed. */
  function ParseField(parse: string -> Option<Json.Json>, text: string): (r: Result<Json.Json, ParseError>)
    ensures text == "" ==> r == Success(Json.JNull)
    ensures text != "" ==> (r.Success? <==> parse(text).Some?) && (r.Success? ==> r.value == parse(text).value)
  {
    if text == "" then Success(Json.JNull)
    else match parse(text)
      case Some(v) => Success(v)
      case None => Failure(ParseError(text))
  }

  /** The writes of `to_json(nlohmann::json&, const Measurement&)`, in order,
      with `o` the parsed object-valued fields: three runs, the identity and
      status, the remaining scalars, and the object-valued fields. */
  function Puts(m: Measurement, o: Objects): seq<CloudTypes.Put>
  {
    Head(m) + Body(m) + Objs(m, o)
  }

  function Head(m: Measurement): seq<CloudTypes.Put>
  {
    [CloudTypes.Put("ID", Json.Str(m.id), m.id != ""),
     CloudTypes.Put("StudyID", Json.Str(m.studyID), m.studyID != ""),
     CloudTypes.Put("DeviceID", Json.Str(m.deviceID), m.deviceID != ""),
     CloudTypes.Put("UserProfileID", Json.Str(m.userProfileID), m.userProfileID != ""),
     CloudTypes.Put("UserProfileName", Json.Str(m.userProfileName), m.userProfileName != ""),
     CloudTypes.Put("Created", Json.Int(m.created), m.created != 0),
     CloudTypes.Put("Updated", Json.Int(m.updated), m.updated != 0),
     CloudTypes.Put("Status", Json.Str(StatusString(m.status)), m.status != Unknown),
     CloudTypes.Put("OrganizationID", Json.Str(m.organizationID), m.organizationID != ""),
     CloudTypes.Put("StatusID", Json.Str(m.statusID), m.statusID != "")]
  }

  lemma HeadDistinct(m: Measurement)
    ensures |Head(m)| == 10 && CloudTypes.DistinctNames(Head(m))
  {
  }

  function Body(m: Measurement): seq<CloudTypes.Put>
  {
    [CloudTypes.Put("UserID", Json.Str(m.userID), m.userID != ""),
     CloudTypes.Put("Resolution", Json.Int(m.resolution), m.resolution != 0),
     CloudTypes.Put("DeviceVersion", Json.Str(m.deviceVersion), m.deviceVersion != ""),
     CloudTypes.Put("Mode", Json.Str(m.mode), m.mode != ""),
     CloudTypes.Put("City", Json.Str(m.city), m.city != ""),
     CloudTypes.Put("State", Json.Str(m.state), m.state != ""),
     CloudTypes.Put("Country", Json.Str(m.country), m.country != ""),
     CloudTypes.Put("Region", Json.Str(m.region), m.region != ""),
     CloudTypes.Put("PartnerID", Json.Str(m.partnerID), m.partnerID != ""),
     CloudTypes.Put("DataSizeBytes", Json.Int(m.dataSizeBytes), m.dataSizeBytes != 0)]
  }

  lemma BodyDistinct(m: Measurement)
    ensures |Body(m)| == 10 && CloudTypes.DistinctNames(Body(m))
  {
  }

  function Objs(m: Measurement, o: Objects): seq<CloudTypes.Put>
  {
    [CloudTypes.Put("Comments", o.comments, m.comments != ""),
     CloudTypes.Put("Results", o.results, m.results != ""),
     CloudTypes.Put("Files", o.files, m.files != ""),
     CloudTypes.Put("SignalNames", o.signalNames, m.signalNames != ""),
     CloudTypes.Put("SignalDescriptions", o.signalDescriptions, m.signalDescriptions != ""),
     CloudTypes.Put("SignalConfig", o.signalConfig, m.signalConfig != ""),
     CloudTypes.Put("SignalUnits", o.signalUnits, m.signalUnits != "")]
  }

  lemma ObjsDistinct(m: Measurement, o: Objects)
    ensures |Objs(m, o)| == 7 && CloudTypes.DistinctNames(Objs(m, o))
  {
  }

  /** The three runs performed one after the other. */
  function Staged(m: Measurement, o: Objects): Json.Json
  {
    CloudTypes.PutAll(CloudTypes.PutAll(CloudTypes.PutAll(Json.JNull, Head(m)), Body(m)), Objs(m, o))
  }

  lemma StagedIsPutAll(m: Measurement, o: Objects)
    ensures CloudTypes.PutAll(Json.JNull, Puts(m, o)) == Staged(m, o)
  {
    CloudTypes.PutAllAppend(Json.JNull, Head(m) + Body(m), Objs(m, o));
    CloudTypes.PutAllAppend(Json.JNull, Head(m), Body(m));
  }

  /** `to_json(nlohmann::json&, const Measurement&)`, starting from `json()`;
      the first object-valued field that does not parse is the failure. */
  function ToJson(m: Measurement, parse: string -> Option<Json.Json>): (r: Result<Json.Json, ParseError>)
    ensures m.comments != "" && parse(m.comments).None? ==> r.Failure?
    ensures m.results != "" && parse(m.results).None? ==> r.Failure?
    ensures m.files != "" && parse(m.files).None? ==> r.Failure?
    ensures m.signalNames != "" && parse(m.signalNames).None? ==> r.Failure?
    ensures m.signalDescriptions != "" && parse(m.signalDescriptions).None? ==> r.Failure?
    ensures m.signalConfig != "" && parse(m.signalConfig).None? ==> r.Failure?
    ensures m.signalUnits != "" && parse(m.signalUnits).None? ==> r.Failure?
  {
    var comments :- ParseField(parse, m.comments);
    var results :- ParseField(parse, m.results);
    var files :- ParseField(parse, m.files);
    var signalNames :- ParseField(parse, m.signalNames);
    var signalDescriptions :- ParseField(parse, m.signalDescriptions);
    var signalConfig :- ParseField(parse, m.signalConfig);
    var signalUnits :- ParseField(parse, m.signalUnits);
    Success(CloudTypes.PutAll(Json.JNull, Puts(m, Objects(comments, results, files, signalNames, signalDescriptions, signalConfig, signalUnits))))
  }

  /** `from_json(const nlohmann::json&, Measurement&)`, filling `m`; `dump`
      is `json::dump()`. */
  function FromJson(j: Json.Json, m: Measurement, dump: Json.Json -> string): (r: Result<Measurement, CloudTypes.TypeError>)
    ensures r.Success? && !Json.Contains(j, "Status") ==> r.value.status == Unknown
    ensures r.Success? && !Json.Contains(j, "Results") ==> r.value.results == m.results
  {
    var id :- CloudTypes.GetValidField(j, "ID", m.id, Json.AsString);
    var studyID :- CloudTypes.GetValidField(j, "StudyID", m.studyID, Json.AsString);
    var deviceID :- CloudTypes.GetValidField(j, "DeviceID", m.deviceID, Json.AsString);
    var userProfileID :- CloudTypes.GetValidField(j, "UserProfileID", m.userProfileID, Json.AsString);
    var userProfileName :- CloudTypes.GetValidField(j, "UserProfileName", m.userProfileName, Json.AsString);
    var created :- CloudTypes.GetValidField(j, "Created", m.created, Json.AsU64);
    var updated :- CloudTypes.GetValidField(j, "Updated", m.updated, Json.AsU64);
    var statusText :- CloudTypes.ReadEnumText(j, "Status");
    var organizationID :- CloudTypes.GetValidField(j, "OrganizationID", m.organizationID, Json.AsString);
    var statusID :- CloudTypes.GetValidField(j, "StatusID", m.statusID, Json.AsString);
    var userID :- CloudTypes.GetValidField(j, "UserID", m.userID, Json.AsString);
    var resolution :- CloudTypes.GetValidField(j, "Resolution", m.resolution, Json.AsU16);
    var deviceVersion :- CloudTypes.GetValidField(j, "DeviceVersion", m.deviceVersion, Json.AsString);
    var mode :- CloudTypes.GetValidField(j, "Mode", m.mode, Json.AsString);
    var city :- CloudTypes.GetValidField(j, "City", m.city, Json.AsString);
    var state :- CloudTypes.GetValidField(j, "State", m.state, Json.AsString);
    var country :- CloudTypes.GetValidField(j, "Country", m.country, Json.AsString);
    var region :- CloudTypes.GetValidField(j, "Region", m.region, Json.AsString);
    var partnerID :- CloudTypes.GetValidField(j, "PartnerID", m.partnerID, Json.AsString);
    var dataSizeBytes :- CloudTypes.GetValidField(j, "DataSizeBytes", m.dataSizeBytes, Json.AsU64);
    var comments := CloudTypes.GetStringifiedField(j, "Comments", m.comments, dump);
    var results := CloudTypes.GetStringifiedField(j, "Results", m.results, dump);
    var files := CloudTypes.GetStringifiedField(j, "Files", m.files, dump);
    var signalNames := CloudTypes.GetStringifiedField(j, "SignalNames", m.signalNames, dump);
    var signalDescriptions := CloudTypes.GetStringifiedField(j, "SignalDescriptions", m.signalDescriptions, dump);
    var signalConfig := CloudTypes.GetStringifiedField(j, "SignalConfig", m.signalConfig, dump);
    var signalUnits := CloudTypes.GetStringifiedField(j, "SignalUnits", m.signalUnits, dump);
    Success(Measurement(id, studyID, deviceID, created, updated, if statusText.Some? then StatusEnum(statusText.value) else Unknown, organizationID, statusID, userID, userProfileID, userProfileName, resolution, deviceVersion, comments, mode, city, state, country, region, partnerID, signalNames, signalDescriptions, signalConfig, signalUnits, dataSizeBytes, files, results))
  }

  /** A field whose text `to_json` can parse and `from_json` gives back
      unchanged: empty, or the dump of a non-null value it parses to. */
  predicate Canonical(parse: string -> Option<Json.Json>, dump: Json.Json -> string, text: string)
  {
    text == "" || (parse(text).Some? && !parse(text).value.JNull? && dump(parse(text).value) == text)
  }

  predicate AllCanonical(m: Measurement, parse: string -> Option<Json.Json>, dump: Json.Json -> string)
  {
    Canonical(parse, dump, m.comments) &&
    Canonical(parse, dump, m.results) &&
    Canonical(parse, dump, m.files) &&
    Canonical(parse, dump, m.signalNames) &&
    Canonical(parse, dump, m.signalDescriptions) &&
    Canonical(parse, dump, m.signalConfig) &&
    Canonical(parse, dump, m.signalUnits)
  }

  /** `o` holds what the non-empty object-valued fields of `m` parse to, and
      each dumps back to its text. */
  predicate ObjectsOf(m: Measurement, o: Objects, dump: Json.Json -> string)
  {
    (m.comments != "" ==> !o.comments.JNull? && dump(o.comments) == m.comments) &&
    (m.results != "" ==> !o.results.JNull? && dump(o.results) == m.results) &&
    (m.files != "" ==> !o.files.JNull? && dump(o.files) == m.files) &&
    (m.signalNames != "" ==> !o.signalNames.JNull? && dump(o.signalNames) == m.signalNames) &&
    (m.signalDescriptions != "" ==> !o.signalDescriptions.JNull? && dump(o.signalDescriptions) == m.signalDescriptions) &&
    (m.signalConfig != "" ==> !o.signalConfig.JNull? && dump(o.signalConfig) == m.signalConfig) &&
    (m.signalUnits != "" ==> !o.signalUnits.JNull? && dump(o.signalUnits) == m.signalUnits)
  }

  /** A measurement whose object-valued fields are canonical JSON text
      serialises without error and reads back into a value-initialised one
      unchanged. */
  lemma JsonRoundTrip(m: Measurement, parse: string -> Option<Json.Json>, dump: Json.Json -> string)
    requires AllCanonical(m, parse, dump)
    ensures ToJson(m, parse).Success?
    ensures FromJson(ToJson(m, parse).value, Empty, dump) == Success(m)
  {
    var o := Objects(ParseField(parse, m.comments).value, ParseField(parse, m.results).value, ParseField(parse, m.files).value, ParseField(parse, m.signalNames).value, ParseField(parse, m.signalDescriptions).value, ParseField(parse, m.signalConfig).value, ParseField(parse, m.signalUnits).value);
    assert ObjectsOf(m, o, dump);
    StagedIsPutAll(m, o);
    assert ToJson(m, parse) == Success(Staged(m, o));
    ReadIdentity(m, o, dump);
    ReadOwnership(m, o, dump);
    ReadSettings(m, o, dump);
    ReadPlace(m, o, dump);
    ReadResults(m, o, dump);
    ReadSignals(m, o, dump);
    FromJsonReads(Staged(m, o), Empty, m, dump);
  }

  lemma FromJsonReads(j: Json.Json, m0: Measurement, m: Measurement, dump: Json.Json -> string)
    requires CloudTypes.GetValidField(j, "ID", m0.id, Json.AsString) == Success(m.id)
    requires CloudTypes.GetValidField(j, "StudyID", m0.studyID, Json.AsString) == Success(m.studyID)
    requires CloudTypes.GetValidField(j, "DeviceID", m0.deviceID, Json.AsString) == Success(m.deviceID)
    requires CloudTypes.GetValidField(j, "UserProfileID", m0.userProfileID, Json.AsString) == Success(m.userProfileID)
    requires CloudTypes.GetValidField(j, "UserProfileName", m0.userProfileName, Json.AsString) == Success(m.userProfileName)
    requires CloudTypes.GetValidField(j, "Created", m0.created, Json.AsU64) == Success(m.created)
    requires CloudTypes.GetValidField(j, "Updated", m0.updated, Json.AsU64) == Success(m.updated)
    requires CloudTypes.ReadEnumText(j, "Status") == if m.status == Unknown then Success(None) else Success(Some(StatusString(m.status)))
    requires StatusEnum(StatusString(m.status)) == m.status
    requires CloudTypes.GetValidField(j, "OrganizationID", m0.organizationID, Json.AsString) == Success(m.organizationID)
    requires CloudTypes.GetValidField(j, "StatusID", m0.statusID, Json.AsString) == Success(m.statusID)
    requires CloudTypes.GetValidField(j, "UserID", m0.userID, Json.AsString) == Success(m.userID)
    requires CloudTypes.GetValidField(j, "Resolution", m0.resolution, Json.AsU16) == Success(m.resolution)
    requires CloudTypes.GetValidField(j, "DeviceVersion", m0.deviceVersion, Json.AsString) == Success(m.deviceVersion)
    requires CloudTypes.GetValidField(j, "Mode", m0.mode, Json.AsString) == Success(m.mode)
    requires CloudTypes.GetValidField(j, "City", m0.city, Json.AsString) == Success(m.city)
    requires CloudTypes.GetValidField(j, "State", m0.state, Json.AsString) == Success(m.state)
    requires CloudTypes.GetValidField(j, "Country", m0.country, Json.AsString) == Success(m.country)
    requires CloudTypes.GetValidField(j, "Region", m0.region, Json.AsString) == Success(m.region)
    requires CloudTypes.GetValidField(j, "PartnerID", m0.partnerID, Json.AsString) == Success(m.partnerID)
    requires CloudTypes.GetValidField(j, "DataSizeBytes", m0.dataSizeBytes, Json.AsU64) == Success(m.dataSizeBytes)
    requires CloudTypes.GetStringifiedField(j, "Comments", m0.comments, dump) == m.comments
    requires CloudTypes.GetStringifiedField(j, "Results", m0.results, dump) == m.results
    requires CloudTypes.GetStringifiedField(j, "Files", m0.files, dump) == m.files
    requires CloudTypes.GetStringifiedField(j, "SignalNames", m0.signalNames, dump) == m.signalNames
    requires CloudTypes.GetStringifiedField(j, "SignalDescriptions", m0.signalDescriptions, dump) == m.signalDescriptions
    requires CloudTypes.GetStringifiedField(j, "SignalConfig", m0.signalConfig, dump) == m.signalConfig
    requires CloudTypes.GetStringifiedField(j, "SignalUnits", m0.signalUnits, dump) == m.signalUnits
    ensures FromJson(j, m0, dump) == Success(m)
  {
  }

  /** No key is written by two runs. */
  lemma RunsDisjoint(m: Measurement, o: Objects)
    ensures forall a, b :: 0 <= a < |Head(m)| && 0 <= b < |Body(m)| ==> Head(m)[a].name != Body(m)[b].name
    ensures forall a, b :: 0 <= a < |Head(m)| && 0 <= b < |Objs(m, o)| ==> Head(m)[a].name != Objs(m, o)[b].name
    ensures forall a, b :: 0 <= a < |Body(m)| && 0 <= b < |Objs(m, o)| ==> Body(m)[a].name != Objs(m, o)[b].name
  {
  }

  /** A key of the first run reads back its field from the staged writes. */
  lemma ReadHead<T>(m: Measurement, o: Objects, k: nat, default: T, conv: Json.Json -> Option<T>, field: T)
    requires k < |Head(m)|
    requires Head(m)[k].write ==> conv(Head(m)[k].value) == Some(field) && !Head(m)[k].value.JNull?
    requires !Head(m)[k].write ==> field == default
    ensures CloudTypes.GetValidField(Staged(m, o), Head(m)[k].name, default, conv) == Success(field)
  {
    var name := Head(m)[k].name;
    var j1 := CloudTypes.PutAll(Json.JNull, Head(m));
    HeadDistinct(m);
    RunsDisjoint(m, o);
    CloudTypes.ReadPut(Json.JNull, Head(m), k, default, conv, field);
    CloudTypes.PutAllOther(j1, Body(m), name);
    CloudTypes.PutAllOther(CloudTypes.PutAll(j1, Body(m)), Objs(m, o), name);
  }

  /** A key of the second run reads back its field from the staged writes. */
  lemma ReadBody<T>(m: Measurement, o: Objects, k: nat, default: T, conv: Json.Json -> Option<T>, field: T)
    requires k < |Body(m)|
    requires Body(m)[k].write ==> conv(Body(m)[k].value) == Some(field) && !Body(m)[k].value.JNull?
    requires !Body(m)[k].write ==> field == default
    ensures CloudTypes.GetValidField(Staged(m, o), Body(m)[k].name, default, conv) == Success(field)
  {
    var name := Body(m)[k].name;
    var j1 := CloudTypes.PutAll(Json.JNull, Head(m));
    BodyDistinct(m);
    RunsDisjoint(m, o);
    CloudTypes.PutAllOther(Json.JNull, Head(m), name);
    CloudTypes.ReadPut(j1, Body(m), k, default, conv, field);
    CloudTypes.PutAllOther(CloudTypes.PutAll(j1, Body(m)), Objs(m, o), name);
  }

  /** An object-valued key reads back its text from the staged writes. */
  lemma ReadObj(m: Measurement, o: Objects, k: nat, dump: Json.Json -> string, field: string)
    requires k < |Objs(m, o)|
    requires Objs(m, o)[k].write ==> !Objs(m, o)[k].value.JNull? && dump(Objs(m, o)[k].value) == field
    requires !Objs(m, o)[k].write ==> field == ""
    ensures CloudTypes.GetStringifiedField(Staged(m, o), Objs(m, o)[k].name, "", dump) == field
  {
    var name := Objs(m, o)[k].name;
    var j1 := CloudTypes.PutAll(Json.JNull, Head(m));
    ObjsDistinct(m, o);
    RunsDisjoint(m, o);
    CloudTypes.PutAllOther(Json.JNull, Head(m), name);
    CloudTypes.PutAllOther(j1, Body(m), name);
    CloudTypes.ReadStringifiedPut(CloudTypes.PutAll(j1, Body(m)), Objs(m, o), k, dump, field);
  }

  /** "Status" is present exactly when the status is not UNKNOWN, and holds
      its mapped name. */
  lemma ReadStatus(m: Measurement, o: Objects)
    ensures Json.Contains(Staged(m, o), "Status") <==> m.status != Unknown
    ensures CloudTypes.ReadEnumText(Staged(m, o), "Status") == if m.status == Unknown then Success(None) else Success(Some(StatusString(m.status)))
  {
    var j1 := CloudTypes.PutAll(Json.JNull, Head(m));
    HeadDistinct(m);
    RunsDisjoint(m, o);
    CloudTypes.PutAllField(Json.JNull, Head(m), 7);
    CloudTypes.PutAllOther(j1, Body(m), "Status");
    CloudTypes.PutAllOther(CloudTypes.PutAll(j1, Body(m)), Objs(m, o), "Status");
  }

  lemma ReadIdentity(m: Measurement, o: Objects, dump: Json.Json -> string)
    requires ObjectsOf(m, o, dump)
    ensures CloudTypes.GetValidField(Staged(m, o), "ID", "", Json.AsString) == Success(m.id)
    ensures CloudTypes.GetValidField(Staged(m, o), "StudyID", "", Json.AsString) == Success(m.studyID)
    ensures CloudTypes.GetValidField(Staged(m, o), "DeviceID", "", Json.AsString) == Success(m.deviceID)
    ensures CloudTypes.GetValidField(Staged(m, o), "UserProfileID", "", Json.AsString) == Success(m.userProfileID)
    ensures CloudTypes.GetValidField(Staged(m, o), "UserProfileName", "", Json.AsString) == Success(m.userProfileName)
  {
    ReadHead(m, o, 0, "", Json.AsString, m.id);
    ReadHead(m, o, 1, "", Json.AsString, m.studyID);
    ReadHead(m, o, 2, "", Json.AsString, m.deviceID);
    ReadHead(m, o, 3, "", Json.AsString, m.userProfileID);
    ReadHead(m, o, 4, "", Json.AsString, m.userProfileName);
  }

  lemma ReadOwnership(m: Measurement, o: Objects, dump: Json.Json -> string)
    requires ObjectsOf(m, o, dump)
    ensures CloudTypes.GetValidField(Staged(m, o), "Created", 0, Json.AsU64) == Success(m.created)
    ensures CloudTypes.GetValidField(Staged(m, o), "Updated", 0, Json.AsU64) == Success(m.updated)
    ensures CloudTypes.ReadEnumText(Staged(m, o), "Status") == if m.status == Unknown then Success(None) else Success(Some(StatusString(m.status)))
    ensures CloudTypes.GetValidField(Staged(m, o), "OrganizationID", "", Json.AsString) == Success(m.organizationID)
    ensures CloudTypes.GetValidField(Staged(m, o), "StatusID", "", Json.AsString) == Success(m.statusID)
    ensures StatusEnum(StatusString(m.status)) == m.status
  {
    ReadHead(m, o, 5, 0, Json.AsU64, m.created);
    ReadHead(m, o, 6, 0, Json.AsU64, m.updated);
    ReadStatus(m, o);
    ReadHead(m, o, 8, "", Json.AsString, m.organizationID);
    ReadHead(m, o, 9, "", Json.AsString, m.statusID);
    MapperRoundTrip(m.status, "");
  }

  lemma ReadSettings(m: Measurement, o: Objects, dump: Json.Json -> string)
    requires ObjectsOf(m, o, dump)
    ensures CloudTypes.GetValidField(Staged(m, o), "UserID", "", Json.AsString) == Success(m.userID)
    ensures CloudTypes.GetValidField(Staged(m, o), "Resolution", 0, Json.AsU16) == Success(m.resolution)
    ensures CloudTypes.GetValidField(Staged(m, o), "DeviceVersion", "", Json.AsString) == Success(m.deviceVersion)
    ensures CloudTypes.GetValidField(Staged(m, o), "Mode", "", Json.AsString) == Success(m.mode)
    ensures CloudTypes.GetValidField(Staged(m, o), "City", "", Json.AsString) == Success(m.city)
  {
    ReadBody(m, o, 0, "", Json.AsString, m.userID);
    ReadBody(m, o, 1, 0, Json.AsU16, m.resolution);
    ReadBody(m, o, 2, "", Json.AsString, m.deviceVersion);
    ReadBody(m, o, 3, "", Json.AsString, m.mode);
    ReadBody(m, o, 4, "", Json.AsString, m.city);
  }

  lemma ReadPlace(m: Measurement, o: Objects, dump: Json.Json -> string)
    requires ObjectsOf(m, o, dump)
    ensures CloudTypes.GetValidField(Staged(m, o), "State", "", Json.AsString) == Success(m.state)
    ensures CloudTypes.GetValidField(Staged(m, o), "Country", "", Json.AsString) == Success(m.country)
    ensures CloudTypes.GetValidField(Staged(m, o), "Region", "", Json.AsString) == Success(m.region)
    ensures CloudTypes.GetValidField(Staged(m, o), "PartnerID", "", Json.AsString) == Success(m.partnerID)
    ensures CloudTypes.GetValidField(Staged(m, o), "DataSizeBytes", 0, Json.AsU64) == Success(m.dataSizeBytes)
  {
    ReadBody(m, o, 5, "", Json.AsString, m.state);
    ReadBody(m, o, 6, "", Json.AsString, m.country);
    ReadBody(m, o, 7, "", Json.AsString, m.region);
    ReadBody(m, o, 8, "", Json.AsString, m.partnerID);
    ReadBody(m, o, 9, 0, Json.AsU64, m.dataSizeBytes);
  }

  lemma ReadResults(m: Measurement, o: Objects, dump: Json.Json -> string)
    requires ObjectsOf(m, o, dump)
    ensures CloudTypes.GetStringifiedField(Staged(m, o), "Comments", "", dump) == m.comments
    ensures CloudTypes.GetStringifiedField(Staged(m, o), "Results", "", dump) == m.results
    ensures CloudTypes.GetStringifiedField(Staged(m, o), "Files", "", dump) == m.files
    ensures CloudTypes.GetStringifiedField(Staged(m, o), "SignalNames", "", dump) == m.signalNames
  {
    ReadObj(m, o, 0, dump, m.comments);
    ReadObj(m, o, 1, dump, m.results);
    ReadObj(m, o, 2, dump, m.files);
    ReadObj(m, o, 3, dump, m.signalNames);
  }

  lemma ReadSignals(m: Measurement, o: Objects, dump: Json.Json -> string)
    requires ObjectsOf(m, o, dump)
    ensures CloudTypes.GetStringifiedField(Staged(m, o), "SignalDescriptions", "", dump) == m.signalDescriptions
    ensures CloudTypes.GetStringifiedField(Staged(m, o), "SignalConfig", "", dump) == m.signalConfig
    ensures CloudTypes.GetStringifiedField(Staged(m, o), "SignalUnits", "", dump) == m.signalUnits
  {
    ReadObj(m, o, 4, dump, m.signalDescriptions);
    ReadObj(m, o, 5, dump, m.signalConfig);
    ReadObj(m, o, 6, dump, m.signalUnits);
  }
}
