/** `Signal`, `SignalCategory`, its mapper, and the signal JSON form
    (api-cpp/src/SignalTypes.cpp). The amplitudes are doubles in the source;
    they are only copied, never computed with, and are `real` here. */
module SignalTypes {
  import opened Wrappers
  import Text
  import Json
  import Mapper
  import CloudTypes

  datatype SignalCategory = Unknown | Model | Algorithm | Classifier | Signal | Source

  const CategoryToString: map<SignalCategory, string> :=
    map[Unknown := "UNKNOWN", Model := "MODEL", Algorithm := "ALGORITHM", Classifier := "CLASSIFIER",
        Signal := "SIGNAL", Source := "SOURCE"]

  const CategoryToEnum: map<string, SignalCategory> :=
    map["UNKNOWN" := Unknown, "MODEL" := Model, "ALGORITHM" := Algorithm, "CLASSIFIER" := Classifier,
        "SIGNAL" := Signal, "SOURCE" := Source]

  /** The category tables are inverse and cover every category. */
  lemma CategoryTables()
    ensures Mapper.Inverse(CategoryToString, CategoryToEnum)
    ensures forall c: SignalCategory :: c in CategoryToString
  {
    forall c: SignalCategory ensures c in CategoryToString {
      match c
      case Unknown => case Model => case Algorithm => case Classifier => case Signal => case Source =>
    }
  }

  /** `getEnum`: the value named `s`, or Unknown for a name the table does not know. */
  function CategoryEnum(s: string): (r: SignalCategory)
    ensures r in CategoryToString && (s in CategoryToEnum <==> CategoryToString[r] == s)
    ensures s !in CategoryToEnum ==> r == Unknown
  {
    CategoryTables();
    Mapper.GetEnum(CategoryToEnum, s, Unknown)
  }

  /** `getString`: the value's name, which the table maps back to the value. */
  function CategoryString(c: SignalCategory): (r: string)
    ensures r in CategoryToEnum && CategoryToEnum[r] == c
  {
    CategoryTables();
    Mapper.GetString(CategoryToString, c)
  }

  /** `getEnum(getString(c)) == c` for all six categories; an unknown string
      gives UNKNOWN. */
  lemma MapperRoundTrip(c: SignalCategory, s: string)
    ensures CategoryEnum(CategoryString(c)) == c
    ensures s !in CategoryToEnum ==> CategoryEnum(s) == Unknown
    ensures s in CategoryToEnum ==> CategoryString(CategoryEnum(s)) == s
  {
    CategoryTables();
    Mapper.RoundTrip(CategoryToString, CategoryToEnum, Unknown, c, s);
  }

  datatype Signal = SignalDetail(
    id: string, name: string, version: string, description: string, unit: string,
    category: SignalCategory, modelMinAmplitude: real, modelMaxAmplitude: real,
    humanMinAmplitude: real, humanMaxAmplitude: real, modelMinSeconds: Text.U32,
    initialDelaySeconds: Text.U32)

  /** A value-initialised `Signal`. */
  const Empty := SignalDetail("", "", "", "", "", Unknown, 0.0, 0.0, 0.0, 0.0, 0, 0)

  /** The writes of `to_json(nlohmann::json&, const Signal&)`, in order; the
      last is the guarded `j["Category"] = …`. */
  function Puts(s: Signal): seq<CloudTypes.Put>
  {
    [CloudTypes.Put("ID", Json.Str(s.id), s.id != ""),
     CloudTypes.Put("Name", Json.Str(s.name), s.name != ""),
     CloudTypes.Put("Version", Json.Str(s.version), s.version != ""),
     CloudTypes.Put("Description", Json.Str(s.description), s.description != ""),
     CloudTypes.Put("Unit", Json.Str(s.unit), s.unit != ""),
     CloudTypes.Put("ModelMinAmplitude", Json.JFloat(s.modelMinAmplitude), s.modelMinAmplitude != 0.0),
     CloudTypes.Put("ModelMaxAmplitude", Json.JFloat(s.modelMaxAmplitude), s.modelMaxAmplitude != 0.0),
     CloudTypes.Put("HumanMinAmplitude", Json.JFloat(s.humanMinAmplitude), s.humanMinAmplitude != 0.0),
     CloudTypes.Put("HumanMaxAmplitude", Json.JFloat(s.humanMaxAmplitude), s.humanMaxAmplitude != 0.0),
     CloudTypes.Put("InitialDelaySeconds", Json.Int(s.initialDelaySeconds), s.initialDelaySeconds != 0),
     CloudTypes.Put("ModelMinSeconds", Json.Int(s.modelMinSeconds), s.modelMinSeconds != 0),
     CloudTypes.Put("Category", Json.Str(CategoryString(s.category)), s.category != Unknown)]
  }

  lemma PutsDistinct(s: Signal)
    ensures |Puts(s)| == 12 && CloudTypes.DistinctNames(Puts(s))
  {
  }

  /** `to_json(nlohmann::json&, const Signal&)`, starting from `json()`: the
      result holds exactly the writes of `Puts`, and is null when none writes. */
  function ToJson(s: Signal): (r: Json.Json)
    ensures CloudTypes.Written(r, Puts(s))
  {
    PutsDistinct(s);
    CloudTypes.PutAllWritten(Puts(s));
    CloudTypes.PutAll(Json.JNull, Puts(s))
  }

  /** `from_json(const nlohmann::json&, Signal&)`, filling `s`. "ModelMinSeconds"
      is never read, and an absent or null "Category" leaves the category as
      it was (other entities reset theirs to UNKNOWN). */
  function FromJson(j: Json.Json, s: Signal): (r: Result<Signal, CloudTypes.TypeError>)
    ensures r.Success? ==> r.value.modelMinSeconds == s.modelMinSeconds
    ensures r.Success? && (!Json.Contains(j, "Category") || Json.At(j, "Category").JNull?) ==> r.value.category == s.category
    ensures r.Success? && Json.Contains(j, "Category") && Json.At(j, "Category").JStr? ==>
              r.value.category == CategoryEnum(Json.At(j, "Category").s)
  {
    var id :- CloudTypes.GetValidField(j, "ID", s.id, Json.AsString);
    var name :- CloudTypes.GetValidField(j, "Name", s.name, Json.AsString);
    var version :- CloudTypes.GetValidField(j, "Version", s.version, Json.AsString);
    var description :- CloudTypes.GetValidField(j, "Description", s.description, Json.AsString);
    var unit :- CloudTypes.GetValidField(j, "Unit", s.unit, Json.AsString);
    var modelMinAmplitude :- CloudTypes.GetValidField(j, "ModelMinAmplitude", s.modelMinAmplitude, Json.AsReal);
    var modelMaxAmplitude :- CloudTypes.GetValidField(j, "ModelMaxAmplitude", s.modelMaxAmplitude, Json.AsReal);
    var humanMinAmplitude :- CloudTypes.GetValidField(j, "HumanMinAmplitude", s.humanMinAmplitude, Json.AsReal);
    var humanMaxAmplitude :- CloudTypes.GetValidField(j, "HumanMaxAmplitude", s.humanMaxAmplitude, Json.AsReal);
    var initialDelaySeconds :- CloudTypes.GetValidField(j, "InitialDelaySeconds", s.initialDelaySeconds, Json.AsU32);
    var categoryText :- CloudTypes.ReadEnumText(j, "Category");
    Success(SignalDetail(id, name, version, description, unit,
                         if categoryText.Some? then CategoryEnum(categoryText.value) else s.category,
                         modelMinAmplitude, modelMaxAmplitude, humanMinAmplitude, humanMaxAmplitude,
                         s.modelMinSeconds, initialDelaySeconds))
  }

  /** A signal written by `to_json` reads back into a value-initialised one
      unchanged except for `modelMinSeconds`, which is written but not read. */
  lemma JsonRoundTrip(s: Signal)
    ensures FromJson(ToJson(s), Empty) == Success(s.(modelMinSeconds := 0))
  {
    ReadText(s);
    ReadAmplitudes(s);
    ReadCategory(s);
    FromJsonReads(ToJson(s), Empty, s.(modelMinSeconds := 0));
  }

  /** A signal whose `modelMinSeconds` is set does not survive the round trip. */
  lemma ModelMinSecondsLost()
    ensures FromJson(ToJson(Empty.(modelMinSeconds := 5)), Empty) == Success(Empty)
  {
    JsonRoundTrip(Empty.(modelMinSeconds := 5));
  }

  lemma FromJsonReads(j: Json.Json, s0: Signal, s: Signal)
    requires CloudTypes.GetValidField(j, "ID", s0.id, Json.AsString) == Success(s.id)
    requires CloudTypes.GetValidField(j, "Name", s0.name, Json.AsString) == Success(s.name)
    requires CloudTypes.GetValidField(j, "Version", s0.version, Json.AsString) == Success(s.version)
    requires CloudTypes.GetValidField(j, "Description", s0.description, Json.AsString) == Success(s.description)
    requires CloudTypes.GetValidField(j, "Unit", s0.unit, Json.AsString) == Success(s.unit)
    requires CloudTypes.GetValidField(j, "ModelMinAmplitude", s0.modelMinAmplitude, Json.AsReal) == Success(s.modelMinAmplitude)
    requires CloudTypes.GetValidField(j, "ModelMaxAmplitude", s0.modelMaxAmplitude, Json.AsReal) == Success(s.modelMaxAmplitude)
    requires CloudTypes.GetValidField(j, "HumanMinAmplitude", s0.humanMinAmplitude, Json.AsReal) == Success(s.humanMinAmplitude)
    requires CloudTypes.GetValidField(j, "HumanMaxAmplitude", s0.humanMaxAmplitude, Json.AsReal) == Success(s.humanMaxAmplitude)
    requires CloudTypes.GetValidField(j, "InitialDelaySeconds", s0.initialDelaySeconds, Json.AsU32) == Success(s.initialDelaySeconds)
    requires CloudTypes.ReadEnumText(j, "Category") == if s.category == Unknown then Success(None) else Success(Some(CategoryString(s.category)))
    requires CategoryEnum(CategoryString(s.category)) == s.category
    requires s0.category == Unknown && s.modelMinSeconds == s0.modelMinSeconds
    ensures FromJson(j, s0) == Success(s)
  {
  }

  lemma ReadText(s: Signal)
    ensures CloudTypes.GetValidField(ToJson(s), "ID", "", Json.AsString) == Success(s.id)
    ensures CloudTypes.GetValidField(ToJson(s), "Name", "", Json.AsString) == Success(s.name)
    ensures CloudTypes.GetValidField(ToJson(s), "Version", "", Json.AsString) == Success(s.version)
    ensures CloudTypes.GetValidField(ToJson(s), "Description", "", Json.AsString) == Success(s.description)
    ensures CloudTypes.GetValidField(ToJson(s), "Unit", "", Json.AsString) == Success(s.unit)
  {
    ReadNames(s);
    ReadDescription(s);
  }

  lemma ReadNames(s: Signal)
    ensures CloudTypes.GetValidField(ToJson(s), "ID", "", Json.AsString) == Success(s.id)
    ensures CloudTypes.GetValidField(ToJson(s), "Name", "", Json.AsString) == Success(s.name)
    ensures CloudTypes.GetValidField(ToJson(s), "Version", "", Json.AsString) == Success(s.version)
  {
    PutsDistinct(s);
    CloudTypes.ReadPut(Json.JNull, Puts(s), 0, "", Json.AsString, s.id);
    CloudTypes.ReadPut(Json.JNull, Puts(s), 1, "", Json.AsString, s.name);
    CloudTypes.ReadPut(Json.JNull, Puts(s), 2, "", Json.AsString, s.version);
  }

  lemma ReadDescription(s: Signal)
    ensures CloudTypes.GetValidField(ToJson(s), "Description", "", Json.AsString) == Success(s.description)
    ensures CloudTypes.GetValidField(ToJson(s), "Unit", "", Json.AsString) == Success(s.unit)
  {
    PutsDistinct(s);
    CloudTypes.ReadPut(Json.JNull, Puts(s), 3, "", Json.AsString, s.description);
    CloudTypes.ReadPut(Json.JNull, Puts(s), 4, "", Json.AsString, s.unit);
  }

  lemma ReadAmplitudes(s: Signal)
    ensures CloudTypes.GetValidField(ToJson(s), "ModelMinAmplitude", 0.0, Json.AsReal) == Success(s.modelMinAmplitude)
    ensures CloudTypes.GetValidField(ToJson(s), "ModelMaxAmplitude", 0.0, Json.AsReal) == Success(s.modelMaxAmplitude)
    ensures CloudTypes.GetValidField(ToJson(s), "HumanMinAmplitude", 0.0, Json.AsReal) == Success(s.humanMinAmplitude)
    ensures CloudTypes.GetValidField(ToJson(s), "HumanMaxAmplitude", 0.0, Json.AsReal) == Success(s.humanMaxAmplitude)
    ensures CloudTypes.GetValidField(ToJson(s), "InitialDelaySeconds", 0, Json.AsU32) == Success(s.initialDelaySeconds)
  {
    ReadModelAmplitudes(s);
    ReadHumanAmplitudes(s);
  }

  lemma ReadModelAmplitudes(s: Signal)
    ensures CloudTypes.GetValidField(ToJson(s), "ModelMinAmplitude", 0.0, Json.AsReal) == Success(s.modelMinAmplitude)
    ensures CloudTypes.GetValidField(ToJson(s), "ModelMaxAmplitude", 0.0, Json.AsReal) == Success(s.modelMaxAmplitude)
  {
    PutsDistinct(s);
    CloudTypes.ReadPut(Json.JNull, Puts(s), 5, 0.0, Json.AsReal, s.modelMinAmplitude);
    CloudTypes.ReadPut(Json.JNull, Puts(s), 6, 0.0, Json.AsReal, s.modelMaxAmplitude);
  }

  lemma ReadHumanAmplitudes(s: Signal)
    ensures CloudTypes.GetValidField(ToJson(s), "HumanMinAmplitude", 0.0, Json.AsReal) == Success(s.humanMinAmplitude)
    ensures CloudTypes.GetValidField(ToJson(s), "HumanMaxAmplitude", 0.0, Json.AsReal) == Success(s.humanMaxAmplitude)
    ensures CloudTypes.GetValidField(ToJson(s), "InitialDelaySeconds", 0, Json.AsU32) == Success(s.initialDelaySeconds)
  {
    PutsDistinct(s);
    CloudTypes.ReadPut(Json.JNull, Puts(s), 7, 0.0, Json.AsReal, s.humanMinAmplitude);
    CloudTypes.ReadPut(Json.JNull, Puts(s), 8, 0.0, Json.AsReal, s.humanMaxAmplitude);
    CloudTypes.ReadPut(Json.JNull, Puts(s), 9, 0, Json.AsU32, s.initialDelaySeconds);
  }

  /** "Category" is present exactly when the category is not UNKNOWN, and
      holds its mapped name. */
  lemma ReadCategory(s: Signal)
    ensures Json.Contains(ToJson(s), "Category") <==> s.category != Unknown
    ensures CloudTypes.ReadEnumText(ToJson(s), "Category") == if s.category == Unknown then Success(None) else Success(Some(CategoryString(s.category)))
    ensures CategoryEnum(CategoryString(s.category)) == s.category
  {
    PutsDistinct(s);
    CloudTypes.PutAllField(Json.JNull, Puts(s), 11);
    MapperRoundTrip(s.category, "");
  }
}
