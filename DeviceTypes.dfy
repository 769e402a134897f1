/** `Device`, its type and status enums, their mappers, and its JSON form
    (api-cpp/src/DeviceTypes.cpp). */
module DeviceTypes {
  import opened Wrappers
  import Text
  import Json
  import Mapper
  import CloudTypes

  /** `DeviceType`. LINUX is mapped in DeviceTypes.cpp and used by the
      transports, so it is part of the enum here. */
  datatype DeviceType = Unknown | Iphone | AndroidPhone | Darwin | Ipad | WindowsTablet | Linux | Debian

  datatype DeviceStatus = StatusUnknown | Active | Inactive | Deleted | Decommissioned

  const TypeToString: map<DeviceType, string> :=
    map[Unknown := "UNKNOWN", Iphone := "IPHONE", AndroidPhone := "ANDROID_PHONE", Darwin := "DARWIN",
        Ipad := "IPAD", WindowsTablet := "WINDOWS_TABLET", Linux := "LINUX", Debian := "DEBIAN"]

  const TypeToEnum: map<string, DeviceType> :=
    map["UNKNOWN" := Unknown, "IPHONE" := Iphone, "ANDROID_PHONE" := AndroidPhone, "DARWIN" := Darwin,
        "IPAD" := Ipad, "WINDOWS_TABLET" := WindowsTablet, "LINUX" := Linux, "DEBIAN" := Debian]

  const StatusToString: map<DeviceStatus, string> :=
    map[StatusUnknown := "UNKNOWN", Active := "ACTIVE", Inactive := "INACTIVE", Deleted := "DELETED",
        Decommissioned := "DECOMMISSIONED"]

  const StatusToEnum: map<string, DeviceStatus> :=
    map["UNKNOWN" := StatusUnknown, "ACTIVE" := Active, "INACTIVE" := Inactive, "DELETED" := Deleted,
        "DECOMMISSIONED" := Decommissioned]

  /** The type tables are inverse and cover every type. */
  lemma TypeTables()
    ensures Mapper.Inverse(TypeToString, TypeToEnum)
    ensures forall t: DeviceType :: t in TypeToString
  {
    forall t: DeviceType ensures t in TypeToString {
      match t
      case Unknown => case Iphone => case AndroidPhone => case Darwin =>
      case Ipad => case WindowsTablet => case Linux => case Debian =>
    }
  }

  /** The status tables are inverse and cover every status. */
  lemma StatusTables()
    ensures Mapper.Inverse(StatusToString, StatusToEnum)
    ensures forall s: DeviceStatus :: s in StatusToString
  {
    forall s: DeviceStatus ensures s in StatusToString {
      match s
      case StatusUnknown => case Active => case Inactive => case Deleted => case Decommissioned =>
    }
  }

  /** `getEnum`: the value named `s`, or Unknown for a name the table does not know. */
  function TypeEnum(s: string): (r: DeviceType)
    ensures r in TypeToString && (s in TypeToEnum <==> TypeToString[r] == s)
    ensures s !in TypeToEnum ==> r == Unknown
  {
    TypeTables();
    Mapper.GetEnum(TypeToEnum, s, Unknown)
  }

  /** `getString`: the value's name, which the table maps back to the value. */
  function TypeString(t: DeviceType): (r: string)
    ensures r in TypeToEnum && TypeToEnum[r] == t
  {
    TypeTables();
    Mapper.GetString(TypeToString, t)
  }

  /** `getEnum`: the value named `s`, or StatusUnknown for a name the table does not know. */
  function StatusEnum(s: string): (r: DeviceStatus)
    ensures r in StatusToString && (s in StatusToEnum <==> StatusToString[r] == s)
    ensures s !in StatusToEnum ==> r == StatusUnknown
  {
    StatusTables();
    Mapper.GetEnum(StatusToEnum, s, StatusUnknown)
  }

  /** `getString`: the value's name, which the table maps back to the value. */
  function StatusString(s: DeviceStatus): (r: string)
    ensures r in StatusToEnum && StatusToEnum[r] == s
  {
    StatusTables();
    Mapper.GetString(StatusToString, s)
  }

  /** `getEnum(getString(t)) == t` for every type and status, and an unknown
      string gives UNKNOWN. */
  lemma MapperRoundTrip(t: DeviceType, st: DeviceStatus, s: string)
    ensures TypeEnum(TypeString(t)) == t && StatusEnum(StatusString(st)) == st
    ensures s !in TypeToEnum ==> TypeEnum(s) == Unknown
    ensures s !in StatusToEnum ==> StatusEnum(s) == StatusUnknown
  {
    TypeTables();
    StatusTables();
    Mapper.RoundTrip(TypeToString, TypeToEnum, Unknown, t, s);
    Mapper.RoundTrip(StatusToString, StatusToEnum, StatusUnknown, st, s);
  }

  datatype Device = Device(
    id: string, name: string, deviceType: DeviceType, status: DeviceStatus,
    identifier: string, version: string, created: Text.U64, updated: Text.U64,
    numberMeasurements: Text.U64, region: string)

  /** A value-initialised `Device`. */
  const Empty := Device("", "", Unknown, StatusUnknown, "", "", 0, 0, 0, "")

  /** The writes of `to_json(nlohmann::json&, const Device&)`, in order:
      each field unless it is at its default, then the type and status unless
      UNKNOWN. */
  function Puts(d: Device): seq<CloudTypes.Put>
  {
    [CloudTypes.Put("ID", Json.Str(d.id), d.id != ""),
     CloudTypes.Put("Name", Json.Str(d.name), d.name != ""),
     CloudTypes.Put("Identifier", Json.Str(d.identifier), d.identifier != ""),
     CloudTypes.Put("Version", Json.Str(d.version), d.version != ""),
     CloudTypes.Put("Created", Json.Int(d.created), d.created != 0),
     CloudTypes.Put("Updated", Json.Int(d.updated), d.updated != 0),
     CloudTypes.Put("MeasurementCount", Json.Int(d.numberMeasurements), d.numberMeasurements != 0),
     CloudTypes.Put("Region", Json.Str(d.region), d.region != ""),
     CloudTypes.Put("DeviceTypeID", Json.Str(TypeString(d.deviceType)), d.deviceType != Unknown),
     CloudTypes.Put("StatusID", Json.Str(StatusString(d.status)), d.status != StatusUnknown)]
  }

  /** `to_json(nlohmann::json&, const Device&)`, starting from `json()`: the
      result holds exactly the writes of `Puts`, and is null when none writes. */
  function ToJson(d: Device): (r: Json.Json)
    ensures CloudTypes.Written(r, Puts(d))
  {
    PutsDistinct(d);
    CloudTypes.PutAllWritten(Puts(d));
    CloudTypes.PutAll(Json.JNull, Puts(d))
  }

  lemma PutsDistinct(d: Device)
    ensures |Puts(d)| == 10 && CloudTypes.DistinctNames(Puts(d))
  {
  }

  /** to_json leaves out an UNKNOWN type and status and writes the mapped
      names otherwise; a device with every field at its default is JSON null. */
  lemma ToJsonEnums(d: Device)
    ensures Json.Contains(ToJson(d), "DeviceTypeID") <==> d.deviceType != Unknown
    ensures Json.Contains(ToJson(d), "StatusID") <==> d.status != StatusUnknown
    ensures d.deviceType != Unknown ==> Json.At(ToJson(d), "DeviceTypeID") == Json.JStr(TypeString(d.deviceType))
    ensures d.status != StatusUnknown ==> Json.At(ToJson(d), "StatusID") == Json.JStr(StatusString(d.status))
    ensures ToJson(Empty) == Json.JNull
  {
    ToJsonType(d);
    ToJsonStatus(d);
    ToJsonEmpty();
  }

  lemma ToJsonEmpty()
    ensures ToJson(Empty) == Json.JNull
  {
    CloudTypes.PutAllNothing(Json.JNull, Puts(Empty));
  }

  lemma ToJsonType(d: Device)
    ensures Json.Contains(ToJson(d), "DeviceTypeID") <==> d.deviceType != Unknown
    ensures d.deviceType != Unknown ==> Json.At(ToJson(d), "DeviceTypeID") == Json.JStr(TypeString(d.deviceType))
  {
    PutsDistinct(d);
    CloudTypes.PutAllField(Json.JNull, Puts(d), 8);
  }

  lemma ToJsonStatus(d: Device)
    ensures Json.Contains(ToJson(d), "StatusID") <==> d.status != StatusUnknown
    ensures d.status != StatusUnknown ==> Json.At(ToJson(d), "StatusID") == Json.JStr(StatusString(d.status))
  {
    PutsDistinct(d);
    CloudTypes.PutAllField(Json.JNull, Puts(d), 9);
  }

  /** `from_json(const nlohmann::json&, Device&)`, filling `d`. */
  function FromJson(j: Json.Json, d: Device): (r: Result<Device, CloudTypes.TypeError>)
    ensures r.Success? && !Json.Contains(j, "DeviceTypeID") ==> r.value.deviceType == Unknown
    ensures r.Success? && !Json.Contains(j, "StatusID") ==> r.value.status == StatusUnknown
    ensures r.Success? && !Json.Contains(j, "ID") ==> r.value.id == d.id
  {
    var id :- CloudTypes.GetValidField(j, "ID", d.id, Json.AsString);
    var name :- CloudTypes.GetValidField(j, "Name", d.name, Json.AsString);
    var typeText :- CloudTypes.ReadEnumText(j, "DeviceTypeID");
    var statusText :- CloudTypes.ReadEnumText(j, "StatusID");
    var identifier :- CloudTypes.GetValidField(j, "Identifier", d.identifier, Json.AsString);
    var version :- CloudTypes.GetValidField(j, "Version", d.version, Json.AsString);
    var created :- CloudTypes.GetValidField(j, "Created", d.created, Json.AsU64);
    var updated :- CloudTypes.GetValidField(j, "Updated", d.updated, Json.AsU64);
    var count :- CloudTypes.GetValidField(j, "MeasurementCount", d.numberMeasurements, Json.AsU64);
    var region :- CloudTypes.GetValidField(j, "Region", d.region, Json.AsString);
    Success(Device(id, name,
                   if typeText.Some? then TypeEnum(typeText.value) else Unknown,
                   if statusText.Some? then StatusEnum(statusText.value) else StatusUnknown,
                   identifier, version, created, updated, count, region))
  }

  /** Reading back what `to_json` wrote into a value-initialised `Device`
      gives the same device. */
  lemma JsonRoundTrip(d: Device)
    ensures FromJson(ToJson(d), Empty) == Success(d)
  {
    ReadStrings(d);
    ReadNumbers(d);
    ReadEnums(d);
    FromJsonReads(ToJson(d), Empty, d);
  }

  /** `from_json` assembles a device from what each field read gives. */
  lemma FromJsonReads(j: Json.Json, d0: Device, d: Device)
    requires CloudTypes.GetValidField(j, "ID", d0.id, Json.AsString) == Success(d.id)
    requires CloudTypes.GetValidField(j, "Name", d0.name, Json.AsString) == Success(d.name)
    requires CloudTypes.GetValidField(j, "Identifier", d0.identifier, Json.AsString) == Success(d.identifier)
    requires CloudTypes.GetValidField(j, "Version", d0.version, Json.AsString) == Success(d.version)
    requires CloudTypes.GetValidField(j, "Region", d0.region, Json.AsString) == Success(d.region)
    requires CloudTypes.GetValidField(j, "Created", d0.created, Json.AsU64) == Success(d.created)
    requires CloudTypes.GetValidField(j, "Updated", d0.updated, Json.AsU64) == Success(d.updated)
    requires CloudTypes.GetValidField(j, "MeasurementCount", d0.numberMeasurements, Json.AsU64) == Success(d.numberMeasurements)
    requires CloudTypes.ReadEnumText(j, "DeviceTypeID") == if d.deviceType == Unknown then Success(None) else Success(Some(TypeString(d.deviceType)))
    requires CloudTypes.ReadEnumText(j, "StatusID") == if d.status == StatusUnknown then Success(None) else Success(Some(StatusString(d.status)))
    requires TypeEnum(TypeString(d.deviceType)) == d.deviceType && StatusEnum(StatusString(d.status)) == d.status
    ensures FromJson(j, d0) == Success(d)
  {
  }

  lemma ReadStrings(d: Device)
    ensures CloudTypes.GetValidField(ToJson(d), "ID", "", Json.AsString) == Success(d.id)
    ensures CloudTypes.GetValidField(ToJson(d), "Name", "", Json.AsString) == Success(d.name)
    ensures CloudTypes.GetValidField(ToJson(d), "Identifier", "", Json.AsString) == Success(d.identifier)
    ensures CloudTypes.GetValidField(ToJson(d), "Version", "", Json.AsString) == Success(d.version)
    ensures CloudTypes.GetValidField(ToJson(d), "Region", "", Json.AsString) == Success(d.region)
  {
    var puts := Puts(d);
    assert puts[0].name == "ID" && puts[1].name == "Name" && puts[2].name == "Identifier";
    assert puts[3].name == "Version" && puts[7].name == "Region";
  }

  lemma ReadNumbers(d: Device)
    ensures CloudTypes.GetValidField(ToJson(d), "Created", 0, Json.AsU64) == Success(d.created)
    ensures CloudTypes.GetValidField(ToJson(d), "Updated", 0, Json.AsU64) == Success(d.updated)
    ensures CloudTypes.GetValidField(ToJson(d), "MeasurementCount", 0, Json.AsU64) == Success(d.numberMeasurements)
  {
    PutsDistinct(d);
    CloudTypes.PutAllField(Json.JNull, Puts(d), 4);
    CloudTypes.PutAllField(Json.JNull, Puts(d), 5);
    CloudTypes.PutAllField(Json.JNull, Puts(d), 6);
  }

  lemma ReadEnums(d: Device)
    ensures CloudTypes.ReadEnumText(ToJson(d), "DeviceTypeID") == if d.deviceType == Unknown then Success(None) else Success(Some(TypeString(d.deviceType)))
    ensures CloudTypes.ReadEnumText(ToJson(d), "StatusID") == if d.status == StatusUnknown then Success(None) else Success(Some(StatusString(d.status)))
    ensures TypeEnum(TypeString(d.deviceType)) == d.deviceType && StatusEnum(StatusString(d.status)) == d.status
  {
    ToJsonEnums(d);
    MapperRoundTrip(d.deviceType, d.status, "");
  }
}
