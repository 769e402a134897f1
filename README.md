# DFX API client core, modelled in Dafny

This project models the sequential logic of the DFX API C++ client and proves properties of it. The client talks to the DFX cloud over three transports: a JSON or protobuf WebSocket, REST, and gRPC. It also ships the `dfxcli` command-line tool and a Conan recipe for the Android SDK. Networking, threads and library calls are stripped away. What each of them reports becomes a parameter of the model. The model covers:

- **the route table** (`WebService`): every entry's placeholder count, WebSocket code and HTTP verb;
- **wire framing** (`Framing`, `WebSocketConnection`, `WebSocketJson`, `WebSocketProto`):
  - the 10-character request ID: a 4-digit action and a 6-digit counter that wraps;
  - the 3-character status, and the payload at offset 13;
  - routing of incoming messages to pending requests or to streams;
  - the status mapping of each transport;
- **REST and gRPC** (`CloudREST`, `CloudGRPC`):
  - URL and list-query building;
  - status translation;
  - `dfx-error-code` parsing;
  - deadlines and device types;
- **measurement streams** (`MeasurementStreamAPI`, `MeasurementStreams`, and `MeasurementStreamJson`, `MeasurementStreamWebSocket`, `MeasurementStreamProtobuf`, `MeasurementStreamGRPC`):
  - the per-kind result queues, which drain into a callback once one is registered;
  - the close-once status;
  - the chunk action and order;
  - outstanding-chunk counting;
  - the gRPC write queue;
- **the socket front** (`WebSocket`): its state, its event queue and its log gate;
- **configuration** (`Config`):
  - YAML layering: defaults, then the top level, then the context, then the service;
  - `~` expansion;
  - the printed summary;
- **data types** (`Status`, `CloudTypes`, `FilterHelpers`, `Mapper`, and the `*Types` modules):
  - the JSON field helpers;
  - the enum/string mappers with their UNKNOWN fallback;
  - each entity's `to_json`/`from_json`;
  - filter lookups;
- **the rest of the client library**:
  - the hex dump formatter (`HexDump`);
  - the request validators (`ValidatorMacros`, `CloudValidator` and the `*Validator` modules);
  - the all-or-nothing `retrieveMultiple` polyfill (`EntityAPI`);
- **`dfxcli`**: the measurement result aggregator and its JSON (`MeasurementCommand`), and the stage chain with its cleanup callbacks (`AppCommand`);
- **the Android SDK recipe** (`AndroidSdk`): the configuration checks, the executable signatures, `chmod +x` and the copy-once guard.

Code that updates fields in place is modelled as classes with `modifies` frames. Examples are the stream classes, the socket, the connection, the hex dump buffer and the CLI state. Pure lookups and encoders are modelled as functions. The helper modules `Wrappers`, `Text`, `Json` and `OrderedKeys` stand in for the C++ standard library, for nlohmann::json and for `std::map` iteration order.

## Model

| member | source | states |
|---|---|---|
| Status.OrdinalRoundTrip | api-cpp/src/CloudStatus.cpp:35-72 | the number of every status code names that code back, so no two codes share a number |
| Status.FromOrdinal | api-cpp/src/CloudStatus.cpp:70-71 | a number names a code exactly when it is at most 20, and it names the code with that number |
| Status.ToString | api-cpp/src/CloudStatus.cpp:35-73 | a code without a name of its own prints as `CloudStatus(<number>)` |
| Status.ToStringRoundTrip | api-cpp/src/CloudStatus.cpp:35-73 | the printed form of every code reads back as that code, so no two codes print alike |
| Status.ToStringInjective | api-cpp/src/CloudStatus.cpp:35-73 | two codes that print the same are the same code |
| Status.WithMessage | api-cpp/src/CloudStatus.cpp:10-13 | the one- and two-argument constructors keep the code and message, set no protocol error, and give a status that is OK exactly for CLOUD_OK |
| Status.Of | api-cpp/src/CloudStatus.cpp:10 | the one-argument constructor keeps the code, with an empty message and no protocol code or error, and is OK exactly for CLOUD_OK |
| Status.Describe | api-cpp/src/CloudStatus.cpp:29-33 | the printed status is the code's name, a two-character separator, then the message |
| Status.ToJson | api-cpp/src/CloudStatus.cpp:75-82 | the JSON object always has Message and Code, and has ProtocolCode and ProtocolError exactly when either protocol field is set |
| Status.ToJsonRoundTrip | api-cpp/src/CloudStatus.cpp:75-82 | the JSON form of a status reads back as the same status |
| CloudTypes.GetValidField | api-cpp/include/dfx/api/CloudTypes.hpp:20-29 | a missing or null key leaves the field as it was; any other value is converted into it or is a type error |
| CloudTypes.SetJsonFieldIfNotDefault | api-cpp/include/dfx/api/CloudTypes.hpp:31-38 | a default-valued field writes nothing; any other field sets its key; no other key changes |
| CloudTypes.JsonValidField | api-cpp/src/CloudTypes.cpp:10-17 | the result is true exactly when the key is present and not null, and the out-value is the key's value when present |
| CloudTypes.ReadEnumText | api-cpp/src/CloudTypes.cpp:10-17 | an absent or null enum key reads as nothing, a string key as its text |
| CloudTypes.GetStringifiedField | api-cpp/src/CloudTypes.cpp:19-27 | a missing or null key leaves the field as it was; any other value is replaced by its dump |
| CloudTypes.SetThenGet | api-cpp/include/dfx/api/CloudTypes.hpp:20-38 | what a guarded write stores, a read into a default-valued field gives back |
| CloudTypes.PutAll | api-cpp/include/dfx/api/CloudTypes.hpp:31-38 | a sequence of guarded writes leaves a null or an object |
| CloudTypes.PutAllOther | api-cpp/include/dfx/api/CloudTypes.hpp:31-38 | a key no write names keeps its presence and value |
| CloudTypes.PutAllField | api-cpp/include/dfx/api/CloudTypes.hpp:31-38 | with distinct names, a key is present after the writes exactly when its write fires or it was there, with the written value when it fires |
| CloudTypes.ReadPut | api-cpp/include/dfx/api/CloudTypes.hpp:20-38 | reading a field back from a `to_json` made of guarded writes gives the value written |
| CloudTypes.ReadStringifiedPut | api-cpp/src/CloudTypes.cpp:19-27 | a stringified field read back from a guarded write gives the dump of the value written |
| CloudTypes.PutAllAppend | api-cpp/include/dfx/api/CloudTypes.hpp:31-38 | two runs of writes are the second run on the result of the first |
| CloudTypes.PutIsSetIfNotDefault | api-cpp/include/dfx/api/CloudTypes.hpp:31-38 | one write step is exactly one `setJSONFieldIfNotDefault` call |
| CloudTypes.PutAllNothing | api-cpp/include/dfx/api/CloudTypes.hpp:31-38 | writes that all skip leave the JSON value as it was |
| CloudTypes.PutAllWritten | api-cpp/include/dfx/api/CloudTypes.hpp:31-38 | a run of `setJSONFieldIfNotDefault` calls with distinct keys, started from `json()`, leaves exactly the keys of the fields not at their default, each holding its value, and is null when every field is at its default |
| FilterHelpers.GetFilterBool | api-cpp/include/dfx/api/types/FilterHelpers.hpp:15-28 | true exactly when the key maps to the text "true" or the default is true |
| FilterHelpers.GetFilterString | api-cpp/include/dfx/api/types/FilterHelpers.hpp:66-76 | the key's text when present, else the default |
| FilterHelpers.GetFilterInt32 | api-cpp/include/dfx/api/types/FilterHelpers.hpp:30-46 | an absent key gives the default, and any value read lies in the 32-bit range |
| FilterHelpers.GetFilterInt64 | api-cpp/include/dfx/api/types/FilterHelpers.hpp:48-64 | as written: the value read is stored in an `int`, so it lies in the 32-bit range or is the default |
| FilterHelpers.GetFilterInt64Intended | api-cpp/include/dfx/api/types/FilterHelpers.hpp:48-64 | the evidently intended reading: an absent key gives the default, and the value read lies in the 64-bit range |
| FilterHelpers.Int32RoundTrip | api-cpp/include/dfx/api/types/FilterHelpers.hpp:30-46 | a 32-bit number written with `std::to_string` reads back as itself |
| FilterHelpers.Int64IntendedRoundTrip | api-cpp/include/dfx/api/types/FilterHelpers.hpp:48-64 | with the intended reading, a 64-bit number written with `std::to_string` reads back as itself |
| FilterHelpers.Int64Truncates | api-cpp/include/dfx/api/types/FilterHelpers.hpp:57 | as written, the text of 2^31 reads back as -2^31; the intended reading gives 2^31 |
| FilterHelpers.TrailingTextGivesDefault | api-cpp/include/dfx/api/types/FilterHelpers.hpp:38-42 | a number followed by text that is not a digit gives the default |
| Mapper.GetEnum | api-cpp/src/MeasurementTypes.cpp:27-34 | a mapped name gives its value; any other name gives the unknown value |
| Mapper.GetString | api-cpp/src/MeasurementTypes.cpp:36-43 | a mapped value gives its name; any other value gives "UNKNOWN" |
| Mapper.RoundTrip | api-cpp/src/MeasurementTypes.cpp:13-43 | with tables that are inverses, name-to-value-to-name and value-to-name-to-value are identities |
| DeviceTypes.TypeTables | api-cpp/src/DeviceTypes.cpp:10-30 | the two device-type tables are inverse and cover every type |
| DeviceTypes.StatusTables | api-cpp/src/DeviceTypes.cpp:52-65 | the two device-status tables are inverse and cover every status |
| DeviceTypes.MapperRoundTrip | api-cpp/src/DeviceTypes.cpp:32-85 | every type and status survives getString then getEnum; an unknown name reads as UNKNOWN |
| DeviceTypes.TypeEnum | api-cpp/src/DeviceTypes.cpp:11-40 | `getEnum`: a name in the table gives the type it names (whose own name it is), and any other string gives UNKNOWN |
| DeviceTypes.TypeString | api-cpp/src/DeviceTypes.cpp:11-50 | `getString`: every type has a name in the table, and that name maps back to the type |
| DeviceTypes.StatusEnum | api-cpp/src/DeviceTypes.cpp:53-75 | `getEnum`: a name in the table gives the status it names (whose own name it is), and any other string gives UNKNOWN |
| DeviceTypes.StatusString | api-cpp/src/DeviceTypes.cpp:53-85 | `getString`: every status has a name in the table, and that name maps back to the status |
| DeviceTypes.PutsDistinct | api-cpp/src/DeviceTypes.cpp:87-105 | `to_json` makes ten writes, each under its own key |
| DeviceTypes.ToJson | api-cpp/src/DeviceTypes.cpp:87-105 | the JSON holds exactly every field not at its default, under its key with its JSON value, the type and status as their names unless UNKNOWN, and no other key; with every field at its default it is null |
| DeviceTypes.ToJsonEnums | api-cpp/src/DeviceTypes.cpp:99-104 | DeviceTypeID and StatusID are written exactly when the type and status are not UNKNOWN, as their mapped names; an empty device gives null |
| DeviceTypes.FromJson | api-cpp/src/DeviceTypes.cpp:107-133 | a missing DeviceTypeID or StatusID resets the field to UNKNOWN, while a missing ID keeps the old value |
| DeviceTypes.JsonRoundTrip | api-cpp/src/DeviceTypes.cpp:87-133 | a device written by `to_json` reads back unchanged into a value-initialised one |
| DeviceTypes.FromJsonReads | api-cpp/src/DeviceTypes.cpp:107-133 | `from_json` assembles the device from what each field read gives |
| DeviceTypes.ReadStrings | api-cpp/src/DeviceTypes.cpp:87-97 | each text field written reads back as itself |
| DeviceTypes.ReadNumbers | api-cpp/src/DeviceTypes.cpp:94-96 | each count and timestamp written reads back as itself |
| DeviceTypes.ReadEnums | api-cpp/src/DeviceTypes.cpp:99-125 | the type and status names written read back, and map back to the same values |
| MeasurementTypes.StatusTables | api-cpp/src/MeasurementTypes.cpp:9-25 | the two measurement-status tables are inverse and cover every status |
| MeasurementTypes.MapperRoundTrip | api-cpp/src/MeasurementTypes.cpp:27-43 | every status survives getString then getEnum, a mapped name survives the reverse, an unknown name reads as UNKNOWN, and ERROR_STATUS is spelled "ERROR" |
| MeasurementTypes.StatusEnum | api-cpp/src/MeasurementTypes.cpp:9-34 | `getEnum`: a name in the table gives the status it names (whose own name it is), and any other string gives UNKNOWN |
| MeasurementTypes.StatusString | api-cpp/src/MeasurementTypes.cpp:9-43 | `getString`: every status has a name in the table, and that name maps back to the status |
| MeasurementTypes.ParseField | api-cpp/src/MeasurementTypes.cpp:71-93 | an empty object-valued field is not parsed; a non-empty one succeeds exactly when its text parses, giving the parsed value |
| MeasurementTypes.HeadDistinct | api-cpp/src/MeasurementTypes.cpp:47-57 | the first run of writes has ten distinct keys |
| MeasurementTypes.BodyDistinct | api-cpp/src/MeasurementTypes.cpp:58-69 | the second run of writes has ten distinct keys |
| MeasurementTypes.ObjsDistinct | api-cpp/src/MeasurementTypes.cpp:73-93 | the seven object-valued writes have distinct keys |
| MeasurementTypes.StagedIsPutAll | api-cpp/src/MeasurementTypes.cpp:45-94 | the three runs one after the other are the whole of `to_json` |
| MeasurementTypes.ToJson | api-cpp/src/MeasurementTypes.cpp:71-93 | a non-empty object-valued field whose text does not parse makes `to_json` fail |
| MeasurementTypes.FromJson | api-cpp/src/MeasurementTypes.cpp:96-136 | a missing Status resets the status to UNKNOWN, while a missing Results keeps the old text |
| MeasurementTypes.JsonRoundTrip | api-cpp/src/MeasurementTypes.cpp:45-136 | a measurement whose object-valued fields are canonical JSON text is written successfully and reads back unchanged into a value-initialised one |
| MeasurementTypes.FromJsonReads | api-cpp/src/MeasurementTypes.cpp:96-136 | `from_json` assembles the measurement from what each field read gives |
| MeasurementTypes.RunsDisjoint | api-cpp/src/MeasurementTypes.cpp:45-94 | no key is written by two of the three runs |
| MeasurementTypes.ReadHead | api-cpp/src/MeasurementTypes.cpp:47-57 | a key of the first run reads back its field from the whole `to_json` |
| MeasurementTypes.ReadBody | api-cpp/src/MeasurementTypes.cpp:58-69 | a key of the second run reads back its field from the whole `to_json` |
| MeasurementTypes.ReadObj | api-cpp/src/MeasurementTypes.cpp:73-93 | an object-valued key reads back as the dump of what was parsed |
| MeasurementTypes.ReadStatus | api-cpp/src/MeasurementTypes.cpp:55-57 | Status is present exactly when the status is not UNKNOWN, and holds its name |
| MeasurementTypes.ReadIdentity | api-cpp/src/MeasurementTypes.cpp:48-52 | ID, StudyID, DeviceID, UserProfileID and UserProfileName read back |
| MeasurementTypes.ReadOwnership | api-cpp/src/MeasurementTypes.cpp:53-59 | Created, Updated, Status, OrganizationID and StatusID read back |
| MeasurementTypes.ReadSettings | api-cpp/src/MeasurementTypes.cpp:60-64 | UserID, Resolution, DeviceVersion, Mode and City read back |
| MeasurementTypes.ReadPlace | api-cpp/src/MeasurementTypes.cpp:65-69 | State, Country, Region, PartnerID and DataSizeBytes read back |
| MeasurementTypes.ReadResults | api-cpp/src/MeasurementTypes.cpp:73-84 | Comments, Results, Files and SignalNames read back as their text |
| MeasurementTypes.ReadSignals | api-cpp/src/MeasurementTypes.cpp:85-93 | SignalDescriptions, SignalConfig and SignalUnits read back as their text |
| OrganizationTypes.StatusTables | api-cpp/src/OrganizationTypes.cpp:12-22 | the two organization-status tables are inverse and cover every status |
| OrganizationTypes.MapperRoundTrip | api-cpp/src/OrganizationTypes.cpp:24-42 | every status survives getString then getEnum, a mapped name survives the reverse, and an unknown name reads as UNKNOWN |
| OrganizationTypes.StatusEnum | api-cpp/src/OrganizationTypes.cpp:12-32 | `getEnum`: a name in the table gives the status it names (whose own name it is), and any other string gives UNKNOWN |
| OrganizationTypes.StatusString | api-cpp/src/OrganizationTypes.cpp:12-42 | `getString`: every status has a name in the table, and that name maps back to the status |
| OrganizationTypes.PutsDistinct | api-cpp/src/OrganizationTypes.cpp:44-60 | `to_json` makes ten writes, each under its own key |
| OrganizationTypes.ToJson | api-cpp/src/OrganizationTypes.cpp:44-60 | the JSON holds exactly every field not at its default, under its key with its JSON value, the status as its name unless UNKNOWN, and no other key; with every field at its default it is null |
| OrganizationTypes.FromJson | api-cpp/src/OrganizationTypes.cpp:62-81 | a missing StatusID resets the status to UNKNOWN, and the logo is never read |
| OrganizationTypes.JsonRoundTrip | api-cpp/src/OrganizationTypes.cpp:44-81 | an organization written by `to_json` reads back into a value-initialised one unchanged except for its logo, which neither side carries |
| OrganizationTypes.FromJsonReads | api-cpp/src/OrganizationTypes.cpp:62-81 | `from_json` assembles the organization from what each field read gives |
| OrganizationTypes.ReadFields | api-cpp/src/OrganizationTypes.cpp:47-50 | ID, Name, Identifier and PublicKey read back |
| OrganizationTypes.ReadMoreFields | api-cpp/src/OrganizationTypes.cpp:51-55 | Contact, Email, Address, Created and Updated read back |
| OrganizationTypes.ReadStatus | api-cpp/src/OrganizationTypes.cpp:57-59 | StatusID is present exactly when the status is not UNKNOWN, holds its name, and maps back to the status |
| ProfileTypes.StatusTables | api-cpp/src/ProfileTypes.cpp:12-16 | the two profile-status tables are inverse and cover every status |
| ProfileTypes.MapperRoundTrip | api-cpp/src/ProfileTypes.cpp:18-36 | every status survives getString then getEnum, a mapped name survives the reverse, and an unknown name reads as UNKNOWN |
| ProfileTypes.StatusEnum | api-cpp/src/ProfileTypes.cpp:12-26 | `getEnum`: a name in the table gives the status it names (whose own name it is), and any other string gives UNKNOWN |
| ProfileTypes.StatusString | api-cpp/src/ProfileTypes.cpp:12-36 | `getString`: every status has a name in the table, and that name maps back to the status |
| ProfileTypes.GetValuesComplete | api-cpp/src/ProfileTypes.cpp:38-42 | `getValues` lists every status except UNKNOWN, each once |
| ProfileTypes.GetValuesNamed | api-cpp/src/ProfileTypes.cpp:12-42 | each value `getValues` offers has a name other than "UNKNOWN" that maps back to it |
| ProfileTypes.PutsDistinct | api-cpp/src/ProfileTypes.cpp:44-58 | `to_json` makes eight writes, each under its own key |
| ProfileTypes.ToJson | api-cpp/src/ProfileTypes.cpp:44-58 | the JSON holds exactly every field not at its default, under its key with its JSON value, the status as its name under "Status" unless UNKNOWN, and no other key; with every field at its default it is null |
| ProfileTypes.FromJson | api-cpp/src/ProfileTypes.cpp:60-80 | a missing Status resets the status to UNKNOWN, while a missing OwnerUserEmail keeps the old value |
| ProfileTypes.JsonRoundTrip | api-cpp/src/ProfileTypes.cpp:44-80 | a profile written by `to_json` reads back unchanged into a value-initialised one |
| ProfileTypes.FromJsonReads | api-cpp/src/ProfileTypes.cpp:60-80 | `from_json` assembles the profile from what each field read gives |
| ProfileTypes.ReadFields | api-cpp/src/ProfileTypes.cpp:47-53 | every plain field written reads back |
| ProfileTypes.ReadStatus | api-cpp/src/ProfileTypes.cpp:55-57 | Status is present exactly when the status is not UNKNOWN, holds its name, and maps back to the status |
| SignalTypes.CategoryTables | api-cpp/src/SignalTypes.cpp:9-25 | the two signal-category tables are inverse and cover every category |
| SignalTypes.MapperRoundTrip | api-cpp/src/SignalTypes.cpp:27-43 | every category survives getString then getEnum, a mapped name survives the reverse, and an unknown name reads as UNKNOWN |
| SignalTypes.CategoryEnum | api-cpp/src/SignalTypes.cpp:10-34 | `getEnum`: a name in the table gives the category it names (whose own name it is), and any other string gives UNKNOWN |
| SignalTypes.CategoryString | api-cpp/src/SignalTypes.cpp:10-43 | `getString`: every category has a name in the table, and that name maps back to the category |
| SignalTypes.PutsDistinct | api-cpp/src/SignalTypes.cpp:45-63 | `to_json` makes twelve writes, each under its own key |
| SignalTypes.ToJson | api-cpp/src/SignalTypes.cpp:45-63 | the JSON holds exactly every field not at its default, under its key with its JSON value, the category as its name unless UNKNOWN, and no other key; with every field at its default it is null |
| SignalTypes.FromJson | api-cpp/src/SignalTypes.cpp:65-83 | ModelMinSeconds is never read; a missing or null Category keeps the old category, and a text Category is mapped |
| SignalTypes.JsonRoundTrip | api-cpp/src/SignalTypes.cpp:45-83 | a signal written by `to_json` reads back into a value-initialised one unchanged except that ModelMinSeconds comes back as 0 |
| SignalTypes.ModelMinSecondsLost | api-cpp/src/SignalTypes.cpp:58-83 | a signal whose only field is ModelMinSeconds reads back as the empty signal |
| SignalTypes.FromJsonReads | api-cpp/src/SignalTypes.cpp:65-83 | `from_json` assembles the signal from what each field read gives |
| SignalTypes.ReadText | api-cpp/src/SignalTypes.cpp:48-52 | ID, Name, Version, Description and Unit read back |
| SignalTypes.ReadAmplitudes | api-cpp/src/SignalTypes.cpp:53-57 | the four amplitudes and InitialDelaySeconds read back |
| SignalTypes.ReadCategory | api-cpp/src/SignalTypes.cpp:60-62 | Category is present exactly when the category is not UNKNOWN, holds its name, and maps back to the category |
| StudyTypes.StatusTables | api-cpp/src/StudyTypes.cpp:12-20 | the two study-status tables are inverse and cover every status |
| StudyTypes.MapperRoundTrip | api-cpp/src/StudyTypes.cpp:22-40 | every status survives getString then getEnum, a mapped name survives the reverse, and an unknown name reads as UNKNOWN |
| StudyTypes.StatusEnum | api-cpp/src/StudyTypes.cpp:12-30 | `getEnum`: a name in the table gives the status it names (whose own name it is), and any other string gives UNKNOWN |
| StudyTypes.StatusString | api-cpp/src/StudyTypes.cpp:12-40 | `getString`: every status has a name in the table, and that name maps back to the status |
| StudyTypes.PutsDistinct | api-cpp/src/StudyTypes.cpp:42-57 | `to_json` makes nine writes, each under its own key |
| StudyTypes.ToJson | api-cpp/src/StudyTypes.cpp:42-57 | the JSON holds exactly every field not at its default, under its key with its JSON value, the status as its name unless UNKNOWN, and no other key; with every field at its default it is null |
| StudyTypes.FromJson | api-cpp/src/StudyTypes.cpp:59-77 | a missing StatusID resets the status to UNKNOWN, while a missing Name keeps the old name |
| StudyTypes.JsonRoundTrip | api-cpp/src/StudyTypes.cpp:42-77 | a study written by `to_json` reads back unchanged into a value-initialised one |
| StudyTypes.FromJsonReads | api-cpp/src/StudyTypes.cpp:59-77 | `from_json` assembles the study from what each field read gives |
| StudyTypes.ReadStrings | api-cpp/src/StudyTypes.cpp:45-48 | ID, Name, Description and StudyTemplateID read back |
| StudyTypes.ReadNumbers | api-cpp/src/StudyTypes.cpp:49-52 | Participants, Measurements, Created and Updated read back |
| StudyTypes.ReadStatus | api-cpp/src/StudyTypes.cpp:54-56 | StatusID is present exactly when the status is not UNKNOWN, holds its name, and maps back to the status |
| UserTypes.StatusTables | api-cpp/src/UserTypes.cpp:11-23 | the two user-status tables are inverse and cover every status |
| UserTypes.MapperRoundTrip | api-cpp/src/UserTypes.cpp:25-41 | every status survives getString then getEnum, a mapped name survives the reverse, and an unknown name reads as UNKNOWN |
| UserTypes.StatusEnum | api-cpp/src/UserTypes.cpp:12-32 | `getEnum`: a name in the table gives the status it names (whose own name it is), and any other string gives UNKNOWN |
| UserTypes.StatusString | api-cpp/src/UserTypes.cpp:12-41 | `getString`: every status has a name in the table, and that name maps back to the status |
| UserTypes.KeysAreFresh | api-cpp/src/UserTypes.cpp:52-103 | the keys `to_json` writes for height, weight and avatar, and the keys `from_json` reads for them, are distinct from each other and from every other key |
| UserTypes.RunsDistinct | api-cpp/src/UserTypes.cpp:43-71 | each run of writes in `to_json` has distinct keys |
| UserTypes.RunsDisjoint | api-cpp/src/UserTypes.cpp:43-71 | no key is written by two runs, and none of them writes StatusID |
| UserTypes.StagedIsPutAll | api-cpp/src/UserTypes.cpp:43-71 | the four runs one after the other are the whole of `to_json` |
| UserTypes.ReadFront | api-cpp/src/UserTypes.cpp:46-51 | a key of the first run reads back its field from the whole `to_json` |
| UserTypes.ReadMid | api-cpp/src/UserTypes.cpp:52-54 | a key of the height, weight and avatar run reads back its field from the whole `to_json` |
| UserTypes.ReadBack | api-cpp/src/UserTypes.cpp:55-59 | a key of the third run reads back its field from the whole `to_json` |
| UserTypes.ReadRest | api-cpp/src/UserTypes.cpp:61-70 | a key of the last run reads back its field from the whole `to_json` |
| UserTypes.StagedAbsent | api-cpp/src/UserTypes.cpp:43-71 | a key no run writes is absent from `to_json`'s output |
| UserTypes.PutsDistinct | api-cpp/src/UserTypes.cpp:43-71 | the keys `to_json` writes are distinct, and none is StatusID |
| UserTypes.ToJson | api-cpp/src/UserTypes.cpp:43-71 | as written, the JSON holds exactly every field not at its default under its key, with height, weight and avatar under HeightCM, WeightKG and AvatarURL, and no other key: never a StatusID; with every field at its default it is null |
| UserTypes.ToJsonIntended | api-cpp/src/UserTypes.cpp:43-107 | with the keys `from_json` reads, the JSON holds exactly every field not at its default, height, weight and avatar under HeightCm, WeightKg and AvatarURI, and never a StatusID |
| UserTypes.FromJson | api-cpp/src/UserTypes.cpp:73-107 | a missing StatusID resets the status to UNKNOWN, while a missing HeightCm keeps the old height |
| UserTypes.JsonRoundTripAsWritten | api-cpp/src/UserTypes.cpp:43-107 | as written, a user written by `to_json` reads back with status UNKNOWN, height and weight 0 and no avatar, and everything else unchanged |
| UserTypes.HeightLost | api-cpp/src/UserTypes.cpp:52-102 | a user of height 170 cm and nothing else reads back as the empty user |
| UserTypes.JsonRoundTripIntended | api-cpp/src/UserTypes.cpp:43-107 | when `to_json` uses the keys `from_json` reads, everything but the status, which is never written, survives the round trip |
| UserTypes.FromJsonReads | api-cpp/src/UserTypes.cpp:73-107 | `from_json` assembles the user from what each field read gives |
| UserTypes.ReadCommon | api-cpp/src/UserTypes.cpp:43-107 | the twenty keys both sides agree on read back, and no status is present |
| UserTypes.ReadNames | api-cpp/src/UserTypes.cpp:46-51 | ID, Email, FirstName, LastName and Gender read back |
| UserTypes.ReadAccount | api-cpp/src/UserTypes.cpp:55-63 | DateOfBirth, Created, Updated, Password, RoleID, OrganizationID, ResetToken and ResetTokenDate read back |
| UserTypes.ReadContact | api-cpp/src/UserTypes.cpp:64-70 | IsVerified, VerificationCode, PhoneNumber, DeviceID, LoginMethod, SSOID and Region read back |
| UserTypes.ReadMismatched | api-cpp/src/UserTypes.cpp:52-103 | as written, the keys `from_json` reads for height, weight and avatar are never present, so they read as 0, 0 and "" |
| UserTypes.ReadMatched | api-cpp/src/UserTypes.cpp:97-103 | with the reading side's keys, height, weight and avatar read back |
| ValidatorMacros.EmptyError | api-cpp-validator/src/CloudValidatorMacros.hpp:30-36 | the status of an empty argument is a parameter validation error whose message is the argument's expression followed by " is empty" |
| ValidatorMacros.IfNoUserToken | api-cpp-validator/src/CloudValidatorMacros.hpp:21-24 | the macro returns early exactly when a password is set and the user token is empty, with CLOUD_CONFIG_USER_TOKEN_MISSING |
| ValidatorMacros.IfEmpty | api-cpp-validator/src/CloudValidatorMacros.hpp:32-36 | the macro returns early exactly when the value is empty, with the named validation error |
| CloudValidator.Connect | api-cpp-validator/src/CloudValidator.cpp:15-19 | OK exactly when the server host is set, else "config.serverHost is empty" |
| CloudValidator.Logout | api-cpp-validator/src/CloudValidator.cpp:49-53 | OK exactly when the user token is set, else "config.authToken is empty" |
| CloudValidator.RegisterDevice | api-cpp-validator/src/CloudValidator.cpp:55-63 | OK exactly when license, application name and version are all set; otherwise the first empty one in that order is named |
| CloudValidator.UnregisterDevice | api-cpp-validator/src/CloudValidator.cpp:65-70 | OK exactly when license and device ID are set; otherwise the first empty one is named |
| CloudValidator.ValidateToken | api-cpp-validator/src/CloudValidator.cpp:72-78 | OK exactly when license, organisation and token are set; otherwise the first empty one is named |
| CloudValidator.SwitchEffectiveOrganization | api-cpp-validator/src/CloudValidator.cpp:80-83 | every request is accepted |
| CloudValidator.Login | api-cpp-validator/src/CloudValidator.cpp:38-47 | OK exactly when there is no user token yet and email, password and organisation are set; a present token is refused first, then the first empty field is named |
| CloudValidator.GetServerStatus | api-cpp-validator/src/CloudValidator.cpp:33-36 | always CLOUD_UNSUPPORTED_FEATURE, never OK |
| DeviceValidator.Create | api-cpp-validator/src/DeviceValidator.cpp:17-29 | a missing user token (a password but no token) is refused first; then OK exactly when name, identifier and version are set, naming the first empty one; the type is not checked |
| DeviceValidator.List | api-cpp-validator/src/DeviceValidator.cpp:31-39 | OK exactly when the user token is not missing |
| DeviceValidator.Retrieve | api-cpp-validator/src/DeviceValidator.cpp:41-46 | a missing user token (a password but no token) is refused first; then OK exactly when the device ID is set |
| DeviceValidator.RetrieveMultiple | api-cpp-validator/src/DeviceValidator.cpp:48-55 | a missing user token (a password but no token) is refused first; then OK exactly when the ID list is not empty |
| DeviceValidator.Update | api-cpp-validator/src/DeviceValidator.cpp:57-61 | OK exactly when the user token is not missing |
| DeviceValidator.Remove | api-cpp-validator/src/DeviceValidator.cpp:63-68 | a missing user token (a password but no token) is refused first; then OK exactly when the device ID is set |
| OrganizationValidator.Create | api-cpp-validator/src/OrganizationValidator.cpp:16-30 | a missing user token (a password but no token) is refused first; then OK exactly when name, identifier, public key and logo are set, naming the first empty one; the status is not checked |
| OrganizationValidator.List | api-cpp-validator/src/OrganizationValidator.cpp:32-40 | OK exactly when the user token is not missing |
| OrganizationValidator.Retrieve | api-cpp-validator/src/OrganizationValidator.cpp:42-49 | a missing user token (a password but no token) is refused first; then OK exactly when the organization ID is set |
| OrganizationValidator.RetrieveMultiple | api-cpp-validator/src/OrganizationValidator.cpp:51-58 | a missing user token (a password but no token) is refused first; then OK exactly when the ID list is not empty |
| OrganizationValidator.Update | api-cpp-validator/src/OrganizationValidator.cpp:60-64 | OK exactly when the user token is not missing |
| OrganizationValidator.Remove | api-cpp-validator/src/OrganizationValidator.cpp:66-71 | a missing user token (a password but no token) is refused first; then OK exactly when the organization ID is set |
| OrganizationValidator.ListUsers | api-cpp-validator/src/OrganizationValidator.cpp:73-80 | OK exactly when the user token is not missing |
| OrganizationValidator.RetrieveUser | api-cpp-validator/src/OrganizationValidator.cpp:82-89 | a missing user token (a password but no token) is refused first; then OK exactly when user ID and email are set, naming the first empty one |
| OrganizationValidator.UpdateUser | api-cpp-validator/src/OrganizationValidator.cpp:91-98 | a missing user token (a password but no token) is refused first; then OK exactly when user ID and email are set, naming the first empty one |
| OrganizationValidator.RemoveUser | api-cpp-validator/src/OrganizationValidator.cpp:100-106 | a missing user token (a password but no token) is refused first; then OK exactly when user ID and email are set, naming the first empty one |
| ProfileValidator.Create | api-cpp-validator/src/ProfileValidator.cpp:16-23 | a missing user token (a password but no token) is refused first; then OK exactly when name and email are set, naming the first empty one |
| ProfileValidator.List | api-cpp-validator/src/ProfileValidator.cpp:25-33 | OK exactly when the user token is not missing |
| ProfileValidator.Retrieve | api-cpp-validator/src/ProfileValidator.cpp:35-40 | a missing user token (a password but no token) is refused first; then OK exactly when the profile ID is set |
| ProfileValidator.Update | api-cpp-validator/src/ProfileValidator.cpp:42-49 | a missing user token (a password but no token) is refused first; then OK exactly when the profile's ID, name and email are set, naming the first empty one |
| ProfileValidator.Remove | api-cpp-validator/src/ProfileValidator.cpp:51-56 | a missing user token (a password but no token) is refused first; then OK exactly when the profile ID is set |
| SignalValidator.List | api-cpp-validator/src/SignalValidator.cpp:17-24 | every request is accepted, without the token check |
| SignalValidator.Retrieve | api-cpp-validator/src/SignalValidator.cpp:26-30 | OK exactly when the output signal's ID is set; neither the token nor the `signalID` argument is checked |
| SignalValidator.RetrieveMultiple | api-cpp-validator/src/SignalValidator.cpp:32-38 | OK exactly when the user token is not missing; an empty ID list is accepted |
| SignalValidator.RetrieveStudySignalIDs | api-cpp-validator/src/SignalValidator.cpp:40-47 | a missing user token (a password but no token) is refused first; then OK exactly when the study ID is set |
| SignalValidator.RetrieveSignalDetail | api-cpp-validator/src/SignalValidator.cpp:49-56 | a missing user token (a password but no token) is refused first; then OK exactly when the signal ID is set |
| SignalValidator.RetrieveSignalDetails | api-cpp-validator/src/SignalValidator.cpp:58-65 | a missing user token (a password but no token) is refused first; then OK exactly when the ID list is not empty |
| StudyValidator.Create | api-cpp-validator/src/StudyValidator.cpp:17-29 | a missing user token (a password but no token) is refused first; then OK exactly when name, description and template ID are set, naming the first empty one |
| StudyValidator.List | api-cpp-validator/src/StudyValidator.cpp:31-39 | OK exactly when the user token is not missing |
| StudyValidator.Retrieve | api-cpp-validator/src/StudyValidator.cpp:41-46 | a missing user token (a password but no token) is refused first; then OK exactly when the study ID is set |
| StudyValidator.RetrieveMultiple | api-cpp-validator/src/StudyValidator.cpp:48-55 | a missing user token (a password but no token) is refused first; then OK exactly when the ID list is not empty |
| StudyValidator.Update | api-cpp-validator/src/StudyValidator.cpp:57-68 | a missing user token (a password but no token) is refused first; then OK exactly when study ID, name and description are set, naming the first empty one; the status is not checked |
| StudyValidator.Remove | api-cpp-validator/src/StudyValidator.cpp:70-75 | a missing user token (a password but no token) is refused first; then OK exactly when the study ID is set |
| StudyValidator.RetrieveStudyConfig | api-cpp-validator/src/StudyValidator.cpp:77-89 | a missing user token (a password but no token) is refused first; then OK exactly when study ID, SDK ID and current hash ID are set, naming the first empty one |
| StudyValidator.RetrieveStudyTypes | api-cpp-validator/src/StudyValidator.cpp:91-97 | OK exactly when the user token is not missing |
| StudyValidator.ListStudyTemplates | api-cpp-validator/src/StudyValidator.cpp:99-107 | a missing user token (a password but no token) is refused first; then OK exactly when the template type is set, named "type" |
| UserValidator.Create | api-cpp-validator/src/UserValidator.cpp:17-36 | a missing user token (a password but no token) is refused first; then OK exactly when email, first name, password and role are set, naming the first empty one in that order; the other fields are not checked |
| UserValidator.List | api-cpp-validator/src/UserValidator.cpp:38-46 | OK exactly when the user token is not missing |
| UserValidator.Retrieve | api-cpp-validator/src/UserValidator.cpp:48-52 | OK exactly when the user token is not missing |
| UserValidator.Update | api-cpp-validator/src/UserValidator.cpp:54-58 | OK exactly when the user token is not missing |
| UserValidator.ReqLoginCode | api-cpp-validator/src/UserValidator.cpp:60-68 | a missing user token (a password but no token) is refused first; then OK exactly when organisation key and phone number are set, naming the first empty one |
| UserValidator.LoginWithPhoneCode | api-cpp-validator/src/UserValidator.cpp:70-80 | a missing user token (a password but no token) is refused first; then OK exactly when organisation key, phone number and code are set, naming the first empty one |
| UserValidator.RetrieveUserRole | api-cpp-validator/src/UserValidator.cpp:82-86 | OK exactly when the user token is not missing |
| UserValidator.SendPasswordReset | api-cpp-validator/src/UserValidator.cpp:88-95 | a missing user token (a password but no token) is refused first; then OK exactly when the identifier is set |
| UserValidator.ResetPassword | api-cpp-validator/src/UserValidator.cpp:97-105 | a missing user token (a password but no token) is refused first; then OK exactly when password and reset token are set, naming the first empty one |
| UserValidator.SendVerificationCode | api-cpp-validator/src/UserValidator.cpp:107-115 | a missing user token (a password but no token) is refused first; then OK exactly when user ID and organisation key are set, naming the first empty one |
| UserValidator.VerifyAccount | api-cpp-validator/src/UserValidator.cpp:117-125 | a missing user token (a password but no token) is refused first; then OK exactly when user ID and verification code are set, naming the first empty one |
| HexDump.Printable | api-utils/src/HexDump.cpp:49-53 | a byte below 0x20 or above 0x7e shows as '.', any other as itself, and never as NUL |
| HexDump.AsciiColumn | api-utils/src/HexDump.cpp:49-54 | the ASCII column has one printable character per byte, in order |
| HexDump.Spaces | api-utils/src/HexDump.cpp:57-61 | the padding is the given number of blanks |
| HexDump.LastLineStart | api-utils/src/HexDump.cpp:34-45 | the last line starts at a multiple of 16 and holds between 1 and 16 bytes |
| HexDump.CStringUpTo | api-utils/src/HexDump.cpp:40-64 | printing the buffer prints the characters before its first NUL |
| HexDump.HexColumnAppend | api-utils/src/HexDump.cpp:48 | the hex column of a run of bytes is the hex column of its parts, in order |
| HexDump.HeadStep | api-utils/src/HexDump.cpp:48 | one more byte extends a line by a blank and two hex digits |
| HexDump.NextByte | api-utils/src/HexDump.cpp:47-48 | writing a byte's hex code extends the text written so far to the next byte |
| HexDump.CloseLine | api-utils/src/HexDump.cpp:37-41 | writing the ASCII column completes a full 16-byte line |
| HexDump.OpenLine | api-utils/src/HexDump.cpp:43-44 | writing the offset opens the next line |
| HexDump.LastLine | api-utils/src/HexDump.cpp:57-65 | the padding and ASCII column complete the last line, and the dump |
| HexDump.Column | api-utils/src/HexDump.cpp:37-58 | within a line `i % 16` is the column, and it is 0 exactly at the line's first byte and one past its last |
| HexDump.HexDump | api-utils/src/HexDump.cpp:11-66 | the text returned is the description, then "  ZERO LENGTH" for no data, or else every line: offset, hex bytes padded to 16, and the ASCII column |
| HexDump.WriteBytes | api-utils/src/HexDump.cpp:33-55 | after the byte loop every line but the last is written, the last is open, and the buffer prints as the last line's ASCII column |
| HexDump.StoreAscii | api-utils/src/HexDump.cpp:49-54 | the buffer gets the byte's printable character followed by a NUL, the earlier characters kept |
| HexDump.BufferStep | api-utils/src/HexDump.cpp:49-54 | storing the character and the NUL extends what the buffer holds by one byte |
| HexDump.AsciiLine | api-utils/src/HexDump.cpp:40-64 | the buffer prints as the ASCII column of the line's bytes |
| EntityAPI.DefaultRetrieve | api-cpp/src/DeviceAPI.cpp:27-30 | the base-class `retrieve` gives UNIMPLEMENTED_FEATURE, which is not OK, for every ID |
| EntityAPI.RetrieveAll | api-cpp/src/DeviceAPI.cpp:33-54 | a success has one entity per ID; a failure carries a status that is not OK |
| EntityAPI.AllRetrieved | api-cpp/src/DeviceAPI.cpp:33-54 | when every ID retrieves, the result is each ID's entity, in input order |
| EntityAPI.FirstFailureWins | api-cpp/src/DeviceAPI.cpp:40-47 | the status of the first ID that fails is the result, whatever the later IDs would give |
| EntityAPI.RetrieveAllSucceedsIff | api-cpp/src/DeviceAPI.cpp:33-54 | the polyfill succeeds exactly when every ID retrieves |
| EntityAPI.RetrieveMultiple | api-cpp/src/DeviceAPI.cpp:33-54 | on success, OK and the output list extended by every entity in order; on failure, the first failing status and the output list untouched |
| EntityAPI.PolyfillOverDefault | api-cpp/src/DeviceAPI.cpp:27-54 | over the base-class `retrieve`, any non-empty ID list gives UNIMPLEMENTED_FEATURE and an empty one gives OK with nothing appended |
| Framing.NextTransaction | api-cpp-websocket/src/CloudWebSocket.cpp:253-257 | the number handed out is between 1 and 999999, is the counter itself up to 999999 and 1 past it, and the counter left is one more than the number |
| Framing.CounterCycle | api-cpp-websocket/src/CloudWebSocket.cpp:253-257 | after n requests on a fresh connection the counter is 1, or `(n - 1) mod 999999 + 2` |
| Framing.IssuedTransactionIDs | api-cpp-websocket/src/CloudWebSocket.cpp:246-257 | the n-th request of a connection gets transaction number `n mod 999999 + 1`: numbers cycle 1..999999 |
| Framing.RequestIDFormat | api-cpp-websocket/src/CloudWebSocket.cpp:259-260 | a request ID is ten digits: the four-digit action, clamped to 9999, then the six-digit transaction number, each reading back as its number |
| Framing.RequestIDInjective | api-cpp-websocket/src/CloudWebSocket.cpp:246-260 | two requests with different actions or transaction numbers never share a request ID |
| Framing.RequestIDClamps | api-cpp-websocket/src/CloudWebSocket.cpp:258-259 | an action above 9999 is sent as 9999 |
| Framing.FrameRoundTrip | api-cpp-websocket/src/CloudWebSocket.cpp:286-289 | the action, the request ID and the payload come back out of a request frame unchanged |
| Framing.FrameRepeatsAction | api-cpp-websocket/src/CloudWebSocket.cpp:246-289 | in a request frame the request ID's first four characters repeat the four-digit action |
| Framing.SplitResponse | api-cpp-websocket/src/CloudWebSocket.cpp:330-337 | a stored reply shorter than 13 bytes is INTERNAL_ERROR; a longer one splits into the 3-character status at offset 10 and the payload from offset 13 |
| Framing.ResponseRoundTrip | api-cpp-websocket/src/CloudWebSocket.cpp:330-359 | the request ID, status and payload come back out of a reply frame unchanged |
| Framing.ReplyRoutesToRequest | api-cpp-websocket/src/CloudWebSocket.cpp:214-297 | the first ten bytes of the reply to a generated request ID are that ID, which is not a stream ID, so it goes to the waiting request |
| Framing.LastAtOrBefore | api-cpp-websocket/src/CloudWebSocket.cpp:217 | the result is the last occurrence at or before the given position, and there is none after it |
| Framing.RFind | api-cpp-websocket/src/CloudWebSocket.cpp:217 | `rfind` gives the last occurrence of the pattern, or none when it never occurs |
| Framing.StreamIDMeaning | api-cpp-websocket/src/CloudWebSocket.cpp:217 | the stream test holds exactly when the ID starts with "STRM" and "STRM" does not occur again later |
| Framing.RequestIDNotStream | api-cpp-websocket/src/CloudWebSocket.cpp:217-261 | a generated request ID is never taken for a stream ID |
| WebSocket.Socket.constructor | websocket/src/WebSocket.cpp:28 | a new socket is CREATED, has no callback and no queued or received events |
| WebSocket.Socket.SetState | websocket/src/WebSocket.cpp:30-34 | the state becomes the one given |
| WebSocket.Socket.GetState | websocket/src/WebSocket.cpp:36-40 | the current state is returned |
| WebSocket.Socket.NotifyClient | websocket/src/WebSocket.cpp:58-67 | with a callback the event goes straight to the client, otherwise to the back of the queue; no event is lost or reordered |
| WebSocket.Socket.SetEventCallback | websocket/src/WebSocket.cpp:42-56 | installing a callback hands the client every queued event in arrival order and empties the queue; removing it changes nothing else |
| WebSocket.Socket.GetEvent | websocket/src/WebSocket.cpp:73-83 | polling always reports OK; it takes the oldest queued event, or leaves the caller's event alone when none is queued |
| WebSocket.LogLevelsNest | websocket/src/WebSocket.cpp:85-87 | a message is logged when its level is at most the configured one and a log callback exists, so a level that passes lets every lower one through |
| WebSocket.LogText | websocket/src/WebSocket.cpp:88-93 | the logged text is the formatted text cut to the 2047 characters the 2048-byte buffer holds |
| WebSocketConnection.Connection.constructor | api-cpp-websocket/src/CloudWebSocket.cpp:60-63 | a new connection starts its counter at 1, is closed with an empty reason, and has no pending requests, replies or streams |
| WebSocketConnection.Connection.GetRequestID | api-cpp-websocket-json/src/CloudWebSocketJson.cpp:245-256 | the ID is the clamped action and the next transaction number, and the counter moves on as the wrapping rule says |
| WebSocketConnection.Connection.RegisterStream | api-cpp-websocket-json/src/CloudWebSocketJson.cpp:258-261 | the stream ID is added to the registered streams |
| WebSocketConnection.Connection.DeregisterStream | api-cpp-websocket/src/CloudWebSocket.cpp:269-275 | the stream ID is no longer registered, and the others stay |
| WebSocketConnection.Connection.HandleMessageEvent | api-cpp-websocket-json/src/CloudWebSocketJson.cpp:202-238 | a null message changes nothing; a stream ID goes to its registered stream only; any other ID that is pending stops pending and its reply is stored, and an unknown one is dropped |
| WebSocketConnection.Connection.HandleEvent | api-cpp-websocket-json/src/CloudWebSocketJson.cpp:149-200 | an error event closes with the error's message and a CLOSED event with "received closed", both dropping every pending request and stored reply; OPEN, LISTEN and CONNECTION change nothing; a message is routed |
| WebSocketConnection.Connection.Send | api-cpp-websocket/src/CloudWebSocket.cpp:286-314 | the counter advances even when the socket is not open, which refuses with TRANSPORT_CLOSED and the closing reason and leaves pending alone; an open socket sends the frame and the request becomes pending |
| WebSocketConnection.Connection.Collect | api-cpp-websocket/src/CloudWebSocket.cpp:316-337 | a closed connection gives TRANSPORT_CLOSED with its reason; a missing reply gives INTERNAL_ERROR; otherwise the reply is taken out of the store and split |
| WebSocketConnection.Answer | api-cpp-websocket/src/CloudWebSocket.cpp:208-226 | the server's reply to a pending request is stored under that request's ID and splits back into the status and payload sent |
| WebSocketConnection.Exchange | api-cpp-websocket/src/CloudWebSocket.cpp:277-337 | on an open connection a request is sent and, once its reply arrives, collecting gives that reply's status and payload |
| WebSocketJson.Assign | api-cpp-websocket-json/src/CloudWebSocketJson.cpp:282-289 | `j[name] = v` succeeds exactly on null or an object, after which `name` holds `v` and every other key is as it was; on anything else it throws |
| WebSocketJson.WithQuery | api-cpp-websocket-json/src/CloudWebSocketJson.cpp:278-283 | an empty query leaves the message as it is; a non-empty one is put under "Query", which throws only when the message is neither null nor an object |
| WebSocketJson.RequestParams | api-cpp-websocket-json/src/CloudWebSocketJson.cpp:279-287 | a list limit above 0 is put under "Limit", making the parameters non-empty; a zero limit leaves them as they are |
| WebSocketJson.BuildRequest | api-cpp-websocket-json/src/CloudWebSocketJson.cpp:278-290 | the request is the message with "Query" when the query is not empty and "Params" when the parameters with the limit are not empty; every other key of the message is kept; it is empty exactly when all its inputs are; it throws exactly when a key must be written into a scalar |
| WebSocketJson.RequestString | api-cpp-websocket-json/src/CloudWebSocketJson.cpp:292-297 | an empty request is sent as "{}", never "null"; any other request as its serialisation |
| WebSocketJson.StringField | api-cpp-websocket-json/src/CloudWebSocketJson.cpp:401-402 | reading a field as a string succeeds exactly when the reply is an object holding a string there, and gives that string |
| WebSocketJson.JsonStatus | api-cpp-websocket-json/src/CloudWebSocketJson.cpp:393-417 | OK exactly for "200" with a body that parses; "400" is UNSUPPORTED_FEATURE with the message for an INCORRECT_REQUEST "Invalid Route Number" body, PARAMETER_VALIDATION_ERROR otherwise, and throws when "Code" or "Message" is not a string; "403", "404" and "409" map to their codes; all else is INTERNAL_ERROR |
| WebSocketJson.RouteErrorIsUnsupported | api-cpp-websocket-json/src/CloudWebSocketJson.cpp:400-407 | for a well-formed 400 body, the route error is the one case reported as UNSUPPORTED_FEATURE |
| WebSocketJson.Logout | api-cpp-websocket-json/src/CloudWebSocketJson.cpp:465-470 | logout gives the validator's verdict and is OK whenever it passes |
| WebSocketJson.Begin | api-cpp-websocket-json/src/CloudWebSocketJson.cpp:278-336 | a request that throws while being built draws no request ID; otherwise the counter advances, a socket that is not open refuses with TRANSPORT_CLOSED, and an open one sends the frame with the request text and marks it pending |
| WebSocketJson.ReplyStatus | api-cpp-websocket-json/src/CloudWebSocketJson.cpp:352-417 | a reply shorter than 13 bytes is INTERNAL_ERROR; a longer one's status and parsed body decide through the status mapping |
| WebSocketJson.Finish | api-cpp-websocket-json/src/CloudWebSocketJson.cpp:338-418 | after the wake-up a closed connection gives TRANSPORT_CLOSED with its reason, a missing reply INTERNAL_ERROR, and a stored reply is taken out and decides the status |
| WebSocketJson.Request | api-cpp-websocket-json/src/CloudWebSocketJson.cpp:271-419 | a request on an open connection that is answered ends with the status its reply's status text and body give |
| WebSocketProto.FieldsUpToJoined | api-cpp-websocket/src/CloudWebSocket.cpp:400-408 | after `i` field names the message holds them joined by ", ", then ", " if more follow or "." after the last |
| WebSocketProto.ValidationText | api-cpp-websocket/src/CloudWebSocket.cpp:397-409 | the validation message is the header, the field names joined by ", " and a full stop; with no fields it is the header alone, without the full stop |
| WebSocketProto.DecodeError | api-cpp-websocket/src/CloudWebSocket.cpp:390-441 | never OK; a body that does not decode is INTERNAL_ERROR; a decoded "400" is PARAMETER_VALIDATION_ERROR naming the fields, "404" RECORD_NOT_FOUND, "403" USER_NOT_AUTHORIZED, anything else INTERNAL_ERROR |
| WebSocketProto.DecodeWebSocketError | api-cpp-websocket/src/CloudWebSocket.cpp:390-441 | the message written one field at a time is the specified status |
| WebSocketProto.ProtoStatus | api-cpp-websocket/src/CloudWebSocket.cpp:357-386 | OK exactly for "200" with a body that parses; a parsed 403 login reply carries its token; a parsed 409 or 500 carries its debug string; everything else is decoded as an error |
| WebSocketProto.Begin | api-cpp-websocket/src/CloudWebSocket.cpp:281-314 | a message that does not serialise is PARAMETER_VALIDATION_ERROR before a request ID is drawn; otherwise the counter advances, a socket that is not open refuses with TRANSPORT_CLOSED, and an open one sends the frame and marks it pending |
| WebSocketProto.ReplyStatus | api-cpp-websocket/src/CloudWebSocket.cpp:330-386 | a reply shorter than 13 bytes is INTERNAL_ERROR; a longer one's status and parsed body decide |
| WebSocketProto.Finish | api-cpp-websocket/src/CloudWebSocket.cpp:316-388 | after the wake-up a closed connection gives TRANSPORT_CLOSED with its reason, a missing reply INTERNAL_ERROR, and a stored reply is taken out and decides the status |
| WebSocketProto.Login | api-cpp-websocket/src/CloudWebSocket.cpp:443-458 | a refused validation sends nothing; otherwise the reply's status is returned, and only an OK one stores the token |
| WebSocketProto.Logout | api-cpp-websocket/src/CloudWebSocket.cpp:460-476 | a refused validation sends nothing; only an OK reply clears the device ID, device token and user token |
| WebSocketProto.RegisterDevice | api-cpp-websocket/src/CloudWebSocket.cpp:478-500 | a refused validation sends nothing; only an OK reply stores the new device ID and device token |
| WebSocketProto.LogoutOnce | api-cpp-websocket/src/CloudWebSocket.cpp:460-476 | after a successful logout a second one is refused by the validator with "config.authToken is empty" and sends nothing |
| WebSocketProto.LoginOnce | api-cpp-websocket/src/CloudWebSocket.cpp:443-458 | after a login that stores a token a second login is refused for already holding one |
| CloudREST.AuthToken | api-cpp-rest/src/CloudREST.cpp:36-42 | the user token when there is one, otherwise the device token; empty only when both are |
| CloudREST.FormatPath | api-cpp-rest/src/CloudREST.cpp:264-269 | formatting the route path succeeds exactly when there is an argument for every `{}`, and a path without `{}` is unchanged |
| CloudREST.Url | api-cpp-rest/src/CloudREST.cpp:271-281 | the URL starts with "https://" exactly when the configuration is secure, and ends with "?" and the query when there is a query, or else with the path |
| CloudREST.HttpStatus | api-cpp-rest/src/CloudREST.cpp:452-467 | OK exactly for HTTP 200; 403 is USER_NOT_AUTHORIZED and 500 INTERNAL_ERROR, both keeping the HTTP code; any other code is INTERNAL_ERROR whose message is the code in decimal |
| CloudREST.BodyStatus | api-cpp-rest/src/CloudREST.cpp:405-467 | an error body with "Code" and "Message" throws when either is not a string, or when a VALIDATION_ERROR report holds a property error that cannot be read by position; BAD_REQUEST, USER_ALREADY_EXISTS and NOT_FOUND map to their statuses with the body's message, VALIDATION_ERROR to PARAMETER_VALIDATION_ERROR with the message built from "Errors"; any other body leaves the HTTP code to decide |
| CloudREST.Size | api-cpp-rest/src/CloudREST.cpp:424-427 | `size()` counts exactly the entries a walk over the value visits: none for null, members, elements, and one for a scalar |
| CloudREST.Values | api-cpp-rest/src/CloudREST.cpp:421-423 | a range-for over a value visits the values of its items, one per item, in item order |
| CloudREST.ReadPropertyError | api-cpp-rest/src/CloudREST.cpp:424-437 | a property error of two entries led by "VALID_PROPERTIES" lists the elements of its second entry (none for null or an empty object); positional access to a two-member object, or to a non-empty, non-array second entry, throws; anything else is not understood |
| CloudREST.RenderPropertyErrors | api-cpp-rest/src/CloudREST.cpp:423-437 | one field's property errors read exactly when each can be read; the text only grows; the last one decides the message: the dump of all the errors when it is not understood, the whole text so far otherwise |
| CloudREST.RenderFields | api-cpp-rest/src/CloudREST.cpp:421-438 | the fields read exactly when each property error can be read; fields without property errors keep the message; when every property error is not understood the message is the dump of all the errors |
| CloudREST.ValidationMessage | api-cpp-rest/src/CloudREST.cpp:416-440 | building the VALIDATION_ERROR message throws exactly when some property error cannot be read; with no property errors it is the report's "Message"; when none is understood it is the dump of "Errors" |
| CloudREST.ValidationMessageExample | api-cpp-rest/src/CloudREST.cpp:417-433 | the report the source documents, `{"Status":[["VALID_PROPERTIES",["ACTIVE","INACTIVE"]]]}`, gives `"Status" field valid properties include: ` then the two values' dumps joined by ", " |
| CloudREST.TransferStatus | api-cpp-rest/src/CloudREST.cpp:286-470 | a transfer that never started is CURL_ERROR "curl failed"; a failed one INTERNAL_ERROR "Request failed" with the HTTP code; a body that does not parse CURL_ERROR "curl json failed"; only a completed transfer with HTTP 200 and a body can be OK |
| CloudREST.PerformRESTCall | api-cpp-rest/src/CloudREST.cpp:252-471 | a wrong number of URL arguments is PARAMETER_VALIDATION_ERROR before any request; otherwise the path formats and the call to the built URL decides the status |
| CloudREST.RoutesFormat | api-cpp-rest/src/CloudREST.cpp:260-269 | every route in the table has as many `{}` in its path as its argument count, so formatting its path never fails |
| CloudREST.KeyOrder | api-cpp-rest/src/CloudREST.cpp:480 | the keys a filter map visits cover every key of the map |
| CloudREST.BuildListFilterQuery | api-cpp-rest/src/CloudREST.cpp:473-488 | the query written step by step is "Offset=o&Limit=l" followed by "&key=value" for every filter key but "Limit" and "Offset", in key order |
| CloudREST.CriteriaSnoc | api-cpp-rest/src/CloudREST.cpp:480-484 | one more key extends the criteria by that key's criterion |
| CloudREST.CriteriaMention | api-cpp-rest/src/CloudREST.cpp:480-484 | every key other than the paging keys appears in the criteria as "&key=value" |
| CloudREST.CriteriaOnlyPaging | api-cpp-rest/src/CloudREST.cpp:481 | paging keys alone add nothing to the criteria |
| CloudREST.FilterQueryMentions | api-cpp-rest/src/CloudREST.cpp:473-488 | the list query names every filter key except "Limit" and "Offset", with its value |
| CloudREST.FilterQueryPagingOnly | api-cpp-rest/src/CloudREST.cpp:477-485 | a filter of paging keys only gives the same query as no filter: the caller's paging values always win |
| CloudGRPC.CodeName | api-cpp-grpc/src/CloudGRPC.cpp:98-140 | every code the enum declares has its own name, and any other integer gives "INVALID_CODE" |
| CloudGRPC.CodeNameRoundTrip | api-cpp-grpc/src/CloudGRPC.cpp:98-140 | reading a declared code's name back gives the code, so no two declared codes share a name |
| CloudGRPC.FindFrom | api-cpp-grpc/src/CloudGRPC.cpp:147-150 | `find` from a position gives the first occurrence at or after it, or none when there is none |
| CloudGRPC.Find | api-cpp-grpc/src/CloudGRPC.cpp:147-150 | `find` gives the first occurrence of the pattern, and none exactly when it never occurs |
| CloudGRPC.FindIs | api-cpp-grpc/src/CloudGRPC.cpp:147-150 | an occurrence with none before it is what `find` gives |
| CloudGRPC.ErrorText | api-cpp-grpc/src/CloudGRPC.cpp:144-159 | without "dfx-error-code: ", or without ", message: " after it, the message is unchanged; otherwise it is cut to a shorter text |
| CloudGRPC.ErrorCodeMarkerFirst | api-cpp-grpc/src/CloudGRPC.cpp:147 | the marker written after a prefix that lacks it is found exactly there |
| CloudGRPC.MessageMarkerFirst | api-cpp-grpc/src/CloudGRPC.cpp:150 | ", message: " written after a code that lacks it is found exactly there |
| CloudGRPC.ComposedErrorText | api-cpp-grpc/src/CloudGRPC.cpp:144-159 | from "…dfx-error-code: <code>, message: <text>" the text is kept, or the code when the text is empty |
| CloudGRPC.CloudCode | api-cpp-grpc/src/CloudGRPC.cpp:161-185 | OK, INVALID_ARGUMENT, NOT_FOUND, UNIMPLEMENTED, UNAUTHENTICATED, FAILED_PRECONDITION and ALREADY_EXISTS each map to their own code, each exactly from that gRPC code; every other code gives TRANSPORT_FAILURE |
| CloudGRPC.TranslateStatus | api-cpp-grpc/src/CloudGRPC.cpp:142-188 | OK exactly for gRPC OK; TRANSPORT_FAILURE exactly for the untranslated codes; the gRPC code and message are kept as the protocol error |
| CloudGRPC.TranslationDistinguishes | api-cpp-grpc/src/CloudGRPC.cpp:161-185 | two different translated gRPC codes never give the same code |
| CloudGRPC.Connect | api-cpp-grpc/src/CloudGRPC.cpp:60-65 | connect is OK exactly when the server host is set, and otherwise gives the validator's status |
| CloudGRPC.ServerURL | api-cpp-grpc/src/CloudGRPC.cpp:93-96 | the address is the host name, then ':' |
| CloudGRPC.ServerURLPort | api-cpp-grpc/src/CloudGRPC.cpp:93-96 | the port is read back unchanged from the text after the ':' |
| CloudGRPC.Deadline | api-cpp-grpc/src/CloudGRPC.cpp:75-82 | the seconds and nanoseconds add up to exactly the timeout, with the nanoseconds below one second and a whole number of milliseconds |
| CloudGRPC.InitializeContext | api-cpp-grpc/src/CloudGRPC.cpp:67-91 | a call carries "authorization: Bearer <token>" exactly when it has a token, and the timeout rounded down to whole seconds |
| CloudGRPC.PlatformDeviceType | api-cpp-grpc/src/CloudGRPC.cpp:262-277 | a platform name starting with Windows, Linux, Mac, iOS or Android gives that device type, each exactly from that prefix, and any other name UNKNOWN_DEVICE_TYPE |
| Config.EndsWith | api-cpp/src/CloudConfig.cpp:22-27 | comparing from the back holds exactly when the ending is no longer than the value and is its suffix |
| Config.ExpandHomeTilde | api-cpp/src/CloudConfig.cpp:29-68 | a path not starting with `~` is unchanged; with `~`, an unset HOME, or an empty HOME with USERPROFILE unset, is undefined behaviour; otherwise `~` becomes HOME when it is not empty, else USERPROFILE when it is not empty, else stays |
| Config.ReadString | api-cpp/src/CloudConfig.cpp:180-228 | subscripting a scalar node throws; an absent key keeps the setting; a present one replaces it with its text, and a key that is not text throws |
| Config.ReadBool | api-cpp/src/CloudConfig.cpp:233-243 | subscripting a scalar node throws; an absent key keeps the flag; a present one must be a boolean word, which replaces it |
| Config.ReadIntTo16 | api-cpp/src/CloudConfig.cpp:230-252 | subscripting a scalar node throws; an absent key keeps the setting; a present one must read as an `int`, whose low 16 bits are stored |
| Config.AsInt | api-cpp/src/CloudConfig.cpp:251-255 | a scalar converts only when it is a whole number in the target's range, and never with a minus sign for an unsigned target |
| Config.DecimalReadsBack | api-cpp/src/CloudConfig.cpp:251-255 | every integer written in decimal reads back as itself |
| Config.HexReadsBack | api-cpp/src/CloudConfig.cpp:251-255 | a number written in hexadecimal after "0x" reads back as itself |
| Config.OctalReadsBack | api-cpp/src/CloudConfig.cpp:251-255 | a number written in octal after "0" reads back as itself |
| Config.PrefixChoosesBase | api-cpp/src/CloudConfig.cpp:251-255 | the prefix chooses the base: "0443" is 291, "0x1BB" is 443, and "08" is not a number |
| Config.ReadU16 | api-cpp/src/CloudConfig.cpp:254-255 | subscripting a scalar node throws; an absent key keeps the list limit; a present one must read as a `uint16_t` |
| Config.ContextNode | api-cpp/src/CloudConfig.cpp:178-205 | it returns exactly when the node is not a scalar and each of its eight keys is absent or text; then the service name and each of the seven account settings is the node's text for its key when present and the old value when absent, and nothing else changes |
| Config.ReadLegacyRootCA | api-cpp/src/CloudConfig.cpp:245-247 | a scalar node throws; without the legacy `rootCA` key the certificate is kept; with it, the value is read from the given key, which must be present and text |
| Config.ServiceNodeReading | api-cpp/src/CloudConfig.cpp:207-257 | a scalar node throws at its first subscript; when it returns, each of host, port, secure, skip-verify, timeout and list limit is the node's value for its key when present and the old value when absent; the transport type is "transportType" read over the old value and "transport-type" over that; the root certificate is the legacy key's value read over the old one and "root-ca" over that; nothing else changes |
| Config.ServiceNodeAsWritten | api-cpp/src/CloudConfig.cpp:207-257 | as written, every setting is read as in `ServiceNodeReading`, with the legacy branch taking its value from "root-ca"; without "root-ca" the certificate is kept |
| Config.LegacyRootCAThrows | api-cpp/src/CloudConfig.cpp:245-247 | a service entry with the legacy `rootCA` key but no `root-ca` key makes the loader as written throw |
| Config.ServiceNode | api-cpp/src/CloudConfig.cpp:207-257 | every setting is read as in `ServiceNodeReading` with the legacy value taken from `rootCA`: "root-ca" wins, else the legacy `rootCA` value is used, else the certificate is kept; "transport-type" likewise overrides "transportType"; nothing else changes; wherever the loader as written succeeds without `rootCA` the two agree |
| Config.Items | api-cpp/src/CloudConfig.cpp:144-163 | iterating a node: a sequence gives its entries, a non-empty mapping throws at the first entry's subscript, and anything else gives no entries |
| Config.Children | api-cpp/src/CloudConfig.cpp:144-163 | `node[key]` throws on a scalar node; otherwise the entries are those iterating the key's value gives |
| Config.NameOf | api-cpp/src/CloudConfig.cpp:146-147 | an entry's name reads exactly when it is present and text; a scalar entry throws at the subscript, and any other entry without a text name throws at the conversion |
| Config.FirstNamed | api-cpp/src/CloudConfig.cpp:146-166 | the entry found is the first whose "name" is the one sought, none is found only when no entry has that name, and an entry before it without a text name throws |
| Config.ServiceKeeps | api-cpp/src/CloudConfig.cpp:227-255 | a service node that does not name the port, timeout, list limit or secure flag leaves it as it was |
| Config.TopLevel | api-cpp/src/CloudConfig.cpp:115-134 | the top level's "service" gives the service name; each account setting is the top level's when it names it and the caller's otherwise; each service setting is the top level's when it names it and otherwise the default (timeout 10000, secure, list limit 25, port 443) or the caller's value; the context and device IDs are the caller's |
| Config.ContextLayer | api-cpp/src/CloudConfig.cpp:140-152 | the configuration takes the context's name; the entries are those under "contexts"; with an entry of that name (the first), each account setting and the service name is the entry's when it names it and kept otherwise; with none, they are all kept and no entry has that name; the service settings and device ID are untouched |
| Config.ServiceLayer | api-cpp/src/CloudConfig.cpp:154-167 | with no service name nothing changes; otherwise, with a service entry of that name (the first), each service setting is the entry's when it names it and kept otherwise; with none nothing changes and no entry has that name; the account settings, context and device ID are untouched |
| Config.Layers | api-cpp/src/CloudConfig.cpp:138-167 | a chosen context entry is one under "contexts" with the context's name, and its account settings are read over the top level's; a chosen service entry is one under "services" with the name the context entry (or the top level) gives, and its service settings are read over the top level's; without an entry those settings are the top level's |
| Config.LoadYaml | api-cpp/src/CloudConfig.cpp:110-170 | the caller's context wins over the file's "context"; with no context the result is the top level's configuration and no entry is chosen; otherwise it is the context and service layers over the top level; the port, timeout, list limit and secure flag keep their defaults unless the top level or the chosen service names them |
| Config.PortLayering | api-cpp/src/CloudConfig.cpp:110-170 | the port is the chosen service entry's when it names one, else the top level's when it names one, else 443 |
| Config.AuthEmailLayering | api-cpp/src/CloudConfig.cpp:110-170 | the account e-mail is the chosen context entry's when it names one, else the top level's when it names one, else the caller's |
| Config.LoadYamlFile | api-cpp/src/CloudConfig.cpp:110-176 | a file that cannot be read or parsed gives CONFIG_PARSE_ERROR with the parser's message; a parsed document returns OK with `LoadYaml`'s configuration exactly when that load succeeds, and otherwise `LoadYaml`'s YAML exception escapes |
| Config.LoadCloudConfig | api-cpp/src/CloudConfig.cpp:70-80 | the outcome is undefined exactly when `~` expansion is; a path not ending in ".yaml" after expansion gives CONFIG_UNSUPPORTED_CONTENT_TYPE naming the path as given; a ".yaml" path is loaded |
| Config.AvailableContexts | api-cpp/src/CloudConfig.cpp:82-107 | it returns exactly when the default context reads, "contexts" can be iterated and every entry's name reads, and a scalar document throws; the default context is the file's "context" when set; every context entry's name is appended, in file order, after the names already there |
| Config.RootCAText | api-cpp/src/CloudConfig.cpp:285-296 | a certificate of at most 80 characters is printed whole, a longer one as its first 80 characters and " ...truncated" |
| Config.RenderAppend | api-cpp/src/CloudConfig.cpp:260-300 | printing lines one after another prints each in turn |
| Config.Describe | api-cpp/src/CloudConfig.cpp:260-300 | the text begins with the host line and the secure flag printed as 1 or 0 |
| Config.DescribeNumbers | api-cpp/src/CloudConfig.cpp:264-299 | the port and timeout lines are printed in decimal exactly when the values are not 0 |
| Config.DescribeRootCA | api-cpp/src/CloudConfig.cpp:285-296 | the root certificate line is printed exactly when one is set, cut to 80 characters |
| WebService.RenderPlaceholders | conan/recipes/dfxprotosweb/include/dfx/api/web/WebServiceDetail.hpp:34-36 | a path rendered from its segments holds one `{}` field per argument segment and no other |
| WebService.GeneralWellFormed | conan/recipes/dfxprotosweb/include/dfx/api/web/WebServiceDetail.hpp:39-48 | every entry of `namespace General` has an action code of at most four digits and as many arguments as its path has placeholders |
| WebService.UsersWellFormed | conan/recipes/dfxprotosweb/include/dfx/api/web/WebServiceDetail.hpp:52-75 | every entry of `namespace Users` has an action code of at most four digits and as many arguments as its path has placeholders |
| WebService.MetaWellFormed | conan/recipes/dfxprotosweb/include/dfx/api/web/WebServiceDetail.hpp:79-82 | every entry of `namespace Meta` has an action code of at most four digits and as many arguments as its path has placeholders |
| WebService.ProfilesWellFormed | conan/recipes/dfxprotosweb/include/dfx/api/web/WebServiceDetail.hpp:86-91 | every entry of `namespace Profiles` has an action code of at most four digits and as many arguments as its path has placeholders |
| WebService.MeasurementsWellFormed | conan/recipes/dfxprotosweb/include/dfx/api/web/WebServiceDetail.hpp:95-107 | every entry of `namespace Measurements` has an action code of at most four digits and as many arguments as its path has placeholders |
| WebService.GroupsWellFormed | conan/recipes/dfxprotosweb/include/dfx/api/web/WebServiceDetail.hpp:111-119 | every entry of `namespace Groups` has an action code of at most four digits and as many arguments as its path has placeholders |
| WebService.OrganizationsWellFormed | conan/recipes/dfxprotosweb/include/dfx/api/web/WebServiceDetail.hpp:123-143 | every entry of `namespace Organizations` has an action code of at most four digits and as many arguments as its path has placeholders |
| WebService.StudiesWellFormed | conan/recipes/dfxprotosweb/include/dfx/api/web/WebServiceDetail.hpp:147-160 | every entry of `namespace Studies` has an action code of at most four digits and as many arguments as its path has placeholders |
| WebService.DevicesWellFormed | conan/recipes/dfxprotosweb/include/dfx/api/web/WebServiceDetail.hpp:164-172 | every entry of `namespace Devices` has an action code of at most four digits and as many arguments as its path has placeholders |
| WebService.TemplatesWellFormed | conan/recipes/dfxprotosweb/include/dfx/api/web/WebServiceDetail.hpp:176-188 | every entry of `namespace Templates` has an action code of at most four digits and as many arguments as its path has placeholders |
| WebService.OrganizationsPrivateWellFormed | conan/recipes/dfxprotosweb/include/dfx/api/web/WebServiceDetail.hpp:192-209 | every entry of `namespace OrganizationsPrivate` has an action code of at most four digits and as many arguments as its path has placeholders |
| WebService.ReportsWellFormed | conan/recipes/dfxprotosweb/include/dfx/api/web/WebServiceDetail.hpp:213-215 | every entry of `namespace Reports` has an action code of at most four digits and as many arguments as its path has placeholders |
| WebService.ExportsWellFormed | conan/recipes/dfxprotosweb/include/dfx/api/web/WebServiceDetail.hpp:219-221 | every entry of `namespace Exports` has an action code of at most four digits and as many arguments as its path has placeholders |
| WebService.LicensesWellFormed | conan/recipes/dfxprotosweb/include/dfx/api/web/WebServiceDetail.hpp:225-237 | every entry of `namespace Licenses` has an action code of at most four digits and as many arguments as its path has placeholders |
| WebService.AddressesWellFormed | conan/recipes/dfxprotosweb/include/dfx/api/web/WebServiceDetail.hpp:241-242 | every entry of `namespace Addresses` has an action code of at most four digits and as many arguments as its path has placeholders |
| WebService.SignalsWellFormed | conan/recipes/dfxprotosweb/include/dfx/api/web/WebServiceDetail.hpp:246-249 | every entry of `namespace Signals` has an action code of at most four digits and as many arguments as its path has placeholders |
| WebService.BillingSchedulesWellFormed | conan/recipes/dfxprotosweb/include/dfx/api/web/WebServiceDetail.hpp:253-257 | every entry of `namespace BillingSchedules` has an action code of at most four digits and as many arguments as its path has placeholders |
| WebService.BillingPeriodsWellFormed | conan/recipes/dfxprotosweb/include/dfx/api/web/WebServiceDetail.hpp:261-265 | every entry of `namespace BillingPeriods` has an action code of at most four digits and as many arguments as its path has placeholders |
| WebService.CostSummariesWellFormed | conan/recipes/dfxprotosweb/include/dfx/api/web/WebServiceDetail.hpp:269-273 | every entry of `namespace CostSummaries` has an action code of at most four digits and as many arguments as its path has placeholders |
| WebService.BrandsWellFormed | conan/recipes/dfxprotosweb/include/dfx/api/web/WebServiceDetail.hpp:277-287 | every entry of `namespace Brands` has an action code of at most four digits and as many arguments as its path has placeholders |
| WebService.AuthsWellFormed | conan/recipes/dfxprotosweb/include/dfx/api/web/WebServiceDetail.hpp:291-296 | every entry of `namespace Auths` has an action code of at most four digits and as many arguments as its path has placeholders |
| WebService.RoutesWellFormed | conan/recipes/dfxprotosweb/include/dfx/api/web/WebServiceDetail.hpp:38-297 | every entry of the whole table has an action code of at most four digits and as many arguments as placeholders |
| WebService.TableInvariants | conan/recipes/dfxprotosweb/include/dfx/api/web/WebServiceDetail.hpp:31-297 | for every entry: the code fits the four digits of a request ID, the method is GET, POST, PATCH, DELETE or CONNECT, and `urlArgCount` counts the `{}` fields of `urlPath` |
| WebService.SharedCodes | conan/recipes/dfxprotosweb/include/dfx/api/web/WebServiceDetail.hpp:213-271 | an action code does not identify a route: Reports and Exports share 1300-1302 on different paths, and each billing retrieve/remove pair shares one code with GET and DELETE |
| MeasurementStreamAPI.Stream.constructor | api-cpp/src/MeasurementStreamAPI.cpp:13 | a new stream is open with status OK, four empty queues and no callbacks |
| MeasurementStreamAPI.Stream.Handle | api-cpp/src/MeasurementStreamAPI.cpp:134-168 | a value goes to the registered callback, or else to the back of its queue; it is recorded as arrived, the queue invariant is kept and the stream's status is returned |
| MeasurementStreamAPI.Stream.SetCallbackVariable | api-cpp/src/MeasurementStreamAPI.cpp:43-75 | registering a callback hands it the whole queue, oldest first, and empties the queue; clearing one leaves the queue as it was; no arrival is lost or repeated |
| MeasurementStreamAPI.Stream.WaitForQueuedData | api-cpp/src/MeasurementStreamAPI.cpp:77-132 | the oldest queued value is taken with OK; with nothing queued the answer is TIMEOUT and the caller's value is untouched |
| MeasurementStreamAPI.Stream.WaitForCompletion | api-cpp/src/MeasurementStreamAPI.cpp:170-183 | a closed measurement reports its status; an open one blocks for a timeout of 0 or more and reports TIMEOUT for a negative one |
| MeasurementStreamAPI.Stream.IsMeasurementClosed | api-cpp/src/MeasurementStreamAPI.cpp:185-192 | reports whether the measurement is closed, and overwrites the caller's status with the stream's only when it is |
| MeasurementStreamAPI.Stream.CloseMeasurement | api-cpp/src/MeasurementStreamAPI.cpp:194-205 | the measurement is closed with the given status, which is returned |
| MeasurementStreamAPI.CloseIsObserved | api-cpp/src/MeasurementStreamAPI.cpp:185-205 | after a close, the stream reports closed with the status it was closed with, whatever status the caller held |
| MeasurementStreamAPI.FifoDelivery | api-cpp/src/MeasurementStreamAPI.cpp:87-147 | two values handled while no callback is registered come out of two polls in arrival order |
| MeasurementStreams.SetupGuard | api-cpp-websocket/src/MeasurementStreamWebSocket.cpp:55-68 | setup goes on exactly when the stream is not open and the study ID, the device token and (where checked) the user token are non-empty; otherwise the first failing check's PARAMETER_VALIDATION_ERROR, in the source's order |
| MeasurementStreams.StreamRequestIDRoutes | api-cpp-websocket/src/MeasurementStreamWebSocket.cpp:85-95 | the stream's request ID is "STRM001010": ten characters, and recognised as a stream ID by the connection |
| MeasurementStreams.ResolutionValue | api-cpp-websocket-json/src/MeasurementStreamJsonWebSocket.cpp:85-97 | the value sent is 100 exactly when the text reads as a positive integer; a non-positive one is sent as read, and text that does not read is sent as 0 |
| MeasurementStreams.ChunkNumber | api-cpp-websocket/src/MeasurementStreamWebSocket.cpp:221-226 | an ID no longer than the measurement ID plus one gives chunk 0; otherwise the number read from the rest, which fits an `int`, or the exception `std::stoi` throws |
| MeasurementStreams.ChunkNumberRoundTrip | api-cpp-websocket/src/MeasurementStreamWebSocket.cpp:222-226 | the ID "<measurementID>:<n>" gives back chunk `n` |
| MeasurementStreams.ReplyBody | api-cpp-websocket/src/MeasurementStreamWebSocket.cpp:193 | the body of a reply is everything after its 13-byte request ID and status |
| MeasurementStreams.ReplyBodyRoundTrip | api-cpp-websocket/src/MeasurementStreamWebSocket.cpp:182-193 | the body of a framed reply is the payload it was framed with |
| MeasurementStreams.ErrorBodyAsWritten | api-cpp-websocket/src/MeasurementStreamWebSocket.cpp:186-187 | as written, the body handed to the decoder starts after the 13-byte header and stops 13 bytes before the end: the message's last 13 bytes are exactly what it leaves out of the payload |
| MeasurementStreams.ErrorBodyDropsTail | api-cpp-websocket/src/MeasurementStreamWebSocket.cpp:186-187 | the error body handed to the decoder, as written, is the payload without its last 13 bytes, so never the whole payload |
| MeasurementStreams.ProtoWarning | api-cpp-websocket/src/MeasurementStreamWebSocket.cpp:197-207 | a warning is raised exactly for an error whose code is not "OK", with code -1, the error's debug text and timestamp 0 |
| MeasurementStreams.Divisor | api-cpp-websocket/src/MeasurementStreamWebSocket.cpp:216-219 | the samples are divided by the multiplier, or by 1 when it is 0, so never by 0 |
| MeasurementStreams.ProtoSignals | api-cpp-websocket/src/MeasurementStreamWebSocket.cpp:248-262 | one signal per channel, under the channel's key, with each of its samples converted in order |
| MeasurementStreams.ProtoResult | api-cpp-websocket/src/MeasurementStreamWebSocket.cpp:216-262 | a result is built exactly when the chunk number reads; it has face ID "1", that chunk number and one signal per channel |
| MeasurementStreams.ProtoNewID | api-cpp-websocket/src/MeasurementStreamWebSocket.cpp:209-214 | a measurement ID is handed over exactly when the reply has one and the stream does not yet, and it is the reply's |
| MeasurementStreamWebSocket.Action | api-cpp-websocket/src/MeasurementStreamWebSocket.cpp:131-140 | the last chunk is LAST::PROCESS; any other is FIRST::PROCESS exactly while `chunkOrder` is 0, and CHUNK::PROCESS after |
| MeasurementStreamWebSocket.WebSocketStream.constructor | api-cpp-websocket/src/MeasurementStreamWebSocket.cpp:26-47 | a new stream is closed for setup, has no measurement ID, chunk order 0, nothing outstanding, and an open measurement with status OK |
| MeasurementStreamWebSocket.WebSocketStream.CloseStream | api-cpp-websocket/src/MeasurementStreamWebSocket.cpp:107-114 | the measurement closes with OK, which is returned |
| MeasurementStreamWebSocket.WebSocketStream.SetupStream | api-cpp-websocket/src/MeasurementStreamWebSocket.cpp:49-105 | a failed guard, and a failed create call, are returned with nothing changed; the stream opens exactly when the guard, the create call and the subscription all succeed, with the created ID and the stream request ID registered; a failed subscription closes the measurement and is returned |
| MeasurementStreamWebSocket.WebSocketStream.Request | api-cpp-websocket/src/MeasurementStreamWebSocket.cpp:127-143 | the data request carries the measurement ID, the chunk's action and the chunk; a last chunk marks the stream |
| MeasurementStreamWebSocket.WebSocketStream.SendChunk | api-cpp-websocket/src/MeasurementStreamWebSocket.cpp:116-156 | a closed measurement reports its status and sends nothing; otherwise the chunk's request goes out, and a success counts it outstanding with OK; a failure closes the stream and, as evidently intended, reports the failing status, where the source reports OK |
| MeasurementStreamWebSocket.WebSocketStream.SendChunkAsWritten | api-cpp-websocket/src/MeasurementStreamWebSocket.cpp:145-151 | as written, a failed send closes the stream but reports OK, so the caller cannot tell it from a sent chunk |
| MeasurementStreamWebSocket.WebSocketStream.SecondChunkIsFirst | api-cpp-websocket/src/MeasurementStreamWebSocket.cpp:131-136 | since `chunkOrder` is never advanced, a second chunk goes out as FIRST::PROCESS like the first |
| MeasurementStreamWebSocket.WebSocketStream.Reset | api-cpp/src/MeasurementStreamAPI.cpp:38-41 | the transport does not override `reset`, so it reports UNIMPLEMENTED_FEATURE |
| MeasurementStreamWebSocket.WebSocketStream.Cancel | api-cpp-websocket/src/MeasurementStreamWebSocket.cpp:158-169 | a closed measurement reports its close status; an open one reports OK |
| MeasurementStreamWebSocket.WebSocketStream.Deliver | api-cpp-websocket/src/MeasurementStreamWebSocket.cpp:264-271 | a result with signal data goes to the client, the reply is counted off, and the stream closes with OK exactly when the last chunk was sent and none is outstanding |
| MeasurementStreamWebSocket.WebSocketStream.HandleHeader | api-cpp-websocket/src/MeasurementStreamWebSocket.cpp:197-214 | a reply's warning goes to the client when it has one, and its measurement ID only the first time one arrives, when it also becomes the stream's |
| MeasurementStreamWebSocket.WebSocketStream.HandleReply | api-cpp-websocket/src/MeasurementStreamWebSocket.cpp:197-271 | warning, then first ID, then the result read with the ID held by then; an unreadable chunk number throws after the warning and ID went out, with no result and nothing counted off |
| MeasurementStreamWebSocket.WebSocketStream.HandleStreamResponse | api-cpp-websocket/src/MeasurementStreamWebSocket.cpp:171-274 | a non-200 reply closes the measurement with the error decoded from the body at offset 13; a 200 reply that does not parse closes it with INTERNAL_ERROR; a parsed one delivers its warning and its first ID, then its result read with the ID held by then, counting the chunk off; a result that cannot be read throws with no result delivered and nothing counted off |
| MeasurementStreamProtobuf.CreateRequest | api-cpp-websocket-protobuf/src/MeasurementStreamWebSocketProtobuf.cpp:72-132 | a Mode other than "STREAMING" or empty is refused with PARAMETER_VALIDATION_ERROR naming it; otherwise the request carries the study, each given property (unset ones empty), "STREAMING" exactly when asked for, and the resolution as `ResolutionValue` reads it |
| MeasurementStreamProtobuf.ProtobufStream.constructor | api-cpp-websocket-protobuf/src/MeasurementStreamWebSocketProtobuf.cpp:26-47 | a new stream is closed for setup, has no measurement ID, chunk order 0, nothing outstanding, and an open measurement with status OK |
| MeasurementStreamProtobuf.ProtobufStream.CloseStream | api-cpp-websocket-protobuf/src/MeasurementStreamWebSocketProtobuf.cpp:165-172 | the measurement closes with OK, which is returned |
| MeasurementStreamProtobuf.ProtobufStream.SetupStream | api-cpp-websocket-protobuf/src/MeasurementStreamWebSocketProtobuf.cpp:49-163 | a failed guard or a refused Mode is returned before anything is sent; the create request is sent exactly when both pass, and a failed create call changes nothing else; the stream opens exactly when the create call and the subscription succeed, and a failed subscription closes the measurement and is returned |
| MeasurementStreamProtobuf.ProtobufStream.Request | api-cpp-websocket-protobuf/src/MeasurementStreamWebSocketProtobuf.cpp:188-201 | the data request carries the measurement ID, the chunk's action and the chunk; a last chunk marks the stream |
| MeasurementStreamProtobuf.ProtobufStream.SendChunk | api-cpp-websocket-protobuf/src/MeasurementStreamWebSocketProtobuf.cpp:174-215 | a closed measurement reports its status and sends nothing; otherwise the chunk's request goes out, and a success counts it outstanding with OK while a failure closes the stream and reports the failure |
| MeasurementStreamProtobuf.ProtobufStream.SecondChunkIsFirst | api-cpp-websocket-protobuf/src/MeasurementStreamWebSocketProtobuf.cpp:42-194 | since `chunkOrder` is never advanced, a second chunk goes out as FIRST::PROCESS like the first |
| MeasurementStreamProtobuf.ProtobufStream.Reset | api-cpp/src/MeasurementStreamAPI.cpp:38-41 | the transport does not override `reset`, so it reports UNIMPLEMENTED_FEATURE |
| MeasurementStreamProtobuf.ProtobufStream.Cancel | api-cpp-websocket-protobuf/src/MeasurementStreamWebSocketProtobuf.cpp:217-228 | a closed measurement reports its close status; an open one reports OK |
| MeasurementStreamProtobuf.ProtobufStream.Deliver | api-cpp-websocket-protobuf/src/MeasurementStreamWebSocketProtobuf.cpp:325-332 | a result with signal data goes to the client, the reply is counted off, and the stream closes with OK exactly when the last chunk was sent and none is outstanding |
| MeasurementStreamProtobuf.ProtobufStream.HandleHeader | api-cpp-websocket-protobuf/src/MeasurementStreamWebSocketProtobuf.cpp:256-273 | a reply's warning goes to the client when it has one, and its measurement ID only the first time one arrives, when it also becomes the stream's |
| MeasurementStreamProtobuf.ProtobufStream.HandleReply | api-cpp-websocket-protobuf/src/MeasurementStreamWebSocketProtobuf.cpp:256-332 | warning, then first ID, then the result read with the ID held by then; an unreadable chunk number throws after the warning and ID went out, with no result and nothing counted off |
| MeasurementStreamProtobuf.ProtobufStream.HandleStreamResponse | api-cpp-websocket-protobuf/src/MeasurementStreamWebSocketProtobuf.cpp:230-335 | a non-200 reply closes the measurement with the error decoded from the body at offset 13; a 200 reply that does not parse closes it with INTERNAL_ERROR; a parsed one delivers its warning and its first ID, then its result read with the ID held by then, counting the chunk off; a result that cannot be read throws with no result delivered and nothing counted off |
| Json.Items | api-cpp-websocket-json/src/MeasurementStreamJsonWebSocket.cpp:277-315 | an object's items are its members, in key order; an array's are its elements; null has none |
| MeasurementStreamJson.Member | api-cpp-websocket-json/src/MeasurementStreamJsonWebSocket.cpp:282-321 | reading a member succeeds exactly when the value is an object holding it, and gives that member |
| MeasurementStreamJson.StringMember | api-cpp-websocket-json/src/MeasurementStreamJsonWebSocket.cpp:275-303 | reading a string member succeeds exactly when the member is present and is a string, and gives its text |
| MeasurementStreamJson.ItemWarning | api-cpp-websocket-json/src/MeasurementStreamJsonWebSocket.cpp:278-284 | an error entry makes a warning exactly when it has "msgs"; the warning has code -1 and timestamp 0 |
| MeasurementStreamJson.ItemWarnings | api-cpp-websocket-json/src/MeasurementStreamJsonWebSocket.cpp:277-285 | all entries make warnings exactly when each one does, one warning per entry |
| MeasurementStreamJson.ItemWarningsInOrder | api-cpp-websocket-json/src/MeasurementStreamJsonWebSocket.cpp:277-285 | the warnings are made in entry order: the i-th from the i-th entry |
| MeasurementStreamJson.ErrorItems | api-cpp-websocket-json/src/MeasurementStreamJsonWebSocket.cpp:273-277 | no "Error" and an "Error" whose "Code" is "OK" both give no entries to warn about |
| MeasurementStreamJson.Multiplier | api-cpp-websocket-json/src/MeasurementStreamJsonWebSocket.cpp:297-300 | the multiplier is 1 when the reply has none |
| MeasurementStreamJson.ChannelSamples | api-cpp-websocket-json/src/MeasurementStreamJsonWebSocket.cpp:316-327 | a channel's samples read only when "Data" is an array, one sample per element |
| MeasurementStreamJson.SignalData | api-cpp-websocket-json/src/MeasurementStreamJsonWebSocket.cpp:315-330 | the signal data holds every channel's signal name and no other |
| MeasurementStreamJson.ReplyResult | api-cpp-websocket-json/src/MeasurementStreamJsonWebSocket.cpp:297-330 | a result has face ID "1" and exists only when "MeasurementDataID" is a string whose chunk number reads |
| MeasurementStreamJson.IDStage | api-cpp-websocket-json/src/MeasurementStreamJsonWebSocket.cpp:289-295 | an ID is read only when the stream has none and the reply has one, and then it must be a string |
| MeasurementStreamJson.Reply | api-cpp-websocket-json/src/MeasurementStreamJsonWebSocket.cpp:273-330 | a decoded reply's warnings are those of its error entries, it hands over an ID only while the stream has none, and its result has face ID "1" |
| MeasurementStreamJson.ReplyChunkOrder | api-cpp-websocket-json/src/MeasurementStreamJsonWebSocket.cpp:302-311 | a reply whose "MeasurementDataID" is "<measurementID>:<n>" gives chunk order `n` |
| MeasurementStreamJson.CreateRequest | api-cpp-websocket-json/src/MeasurementStreamJsonWebSocket.cpp:67-100 | the create request holds the study ID and exactly the user profile, partner and resolution properties given, the resolution as `ResolutionValue` reads it, and no other member |
| MeasurementStreamJson.JsonStream.constructor | api-cpp-websocket-json/src/MeasurementStreamJsonWebSocket.cpp:24-45 | a new stream is closed for setup, has no measurement ID, is at its first chunk with nothing outstanding, and has an open measurement with status OK |
| MeasurementStreamJson.JsonStream.CloseStream | api-cpp-websocket-json/src/MeasurementStreamJsonWebSocket.cpp:142-149 | the measurement closes with OK, which is returned |
| MeasurementStreamJson.JsonStream.SetupStream | api-cpp-websocket-json/src/MeasurementStreamJsonWebSocket.cpp:47-140 | a failed guard is returned and nothing is sent; otherwise the create request goes first, and a failed create or a non-string ID ends it there with nothing else changed; after a successful create the subscription to the stream request ID is sent; the stream opens exactly when both succeed, and a failed subscription closes the measurement and is returned |
| MeasurementStreamJson.JsonStream.SendChunk | api-cpp-websocket-json/src/MeasurementStreamJsonWebSocket.cpp:151-213 | a closed measurement reports its status and sends nothing; the first chunk goes as FIRST, later ones as CHUNK and the last as LAST, and only a chunk that is not the last clears the first-chunk flag; a success counts it outstanding with OK and leaves the measurement open, a failure closes the stream and reports the failure |
| MeasurementStreamJson.JsonStream.Reset | api-cpp-websocket-json/src/MeasurementStreamJsonWebSocket.cpp:215-221 | `reset` rearms the first-chunk flag and reports OK |
| MeasurementStreamJson.JsonStream.Cancel | api-cpp-websocket-json/src/MeasurementStreamJsonWebSocket.cpp:223-234 | a closed measurement reports its close status; an open one reports OK |
| MeasurementStreamJson.JsonStream.HandleWarnings | api-cpp-websocket-json/src/MeasurementStreamJsonWebSocket.cpp:277-285 | the warnings go to the client in entry order; an entry without "msgs" throws after exactly the entries before it went out |
| MeasurementStreamJson.FirstFailing | api-cpp-websocket-json/src/MeasurementStreamJsonWebSocket.cpp:277-285 | the position of the first warning entry that cannot be read: every entry before it reads and it does not, or the end when all read |
| MeasurementStreamJson.FirstFailingNone | api-cpp-websocket-json/src/MeasurementStreamJsonWebSocket.cpp:277-285 | no entry fails exactly when all the warnings read |
| MeasurementStreamJson.JsonStream.Deliver | api-cpp-websocket-json/src/MeasurementStreamJsonWebSocket.cpp:332-344 | a result with signal data goes to the client, the reply is counted off, and the stream closes with OK exactly when the last chunk was sent and none is outstanding |
| MeasurementStreamJson.JsonStream.HandleID | api-cpp-websocket-json/src/MeasurementStreamJsonWebSocket.cpp:289-295 | the first ID to arrive goes to the client and becomes the stream's; a non-string ID throws with no ID delivered |
| MeasurementStreamJson.JsonStream.HandleResult | api-cpp-websocket-json/src/MeasurementStreamJsonWebSocket.cpp:297-344 | the result goes out exactly when it converts, and only when it has signals; the chunk is counted off, and the last outstanding reply after the last chunk closes the measurement with OK; a throw delivers nothing and counts nothing off |
| MeasurementStreamJson.JsonStream.HandleRest | api-cpp-websocket-json/src/MeasurementStreamJsonWebSocket.cpp:289-344 | the ID stage, then the result read with the ID held by then; an ID that throws delivers nothing, and a result that throws delivers no result and counts nothing off |
| MeasurementStreamJson.JsonStream.HandleEntries | api-cpp-websocket-json/src/MeasurementStreamJsonWebSocket.cpp:276-344 | the warnings before the first unreadable entry go out; an unreadable entry throws with no ID delivered and nothing counted off; otherwise the ID stage and the result follow, the result read with the ID held after the ID stage |
| MeasurementStreamJson.JsonStream.HandleReply | api-cpp-websocket-json/src/MeasurementStreamJsonWebSocket.cpp:273-344 | an unreadable "Error" changes nothing; otherwise the warnings before the first unreadable entry go out, then, only if none was unreadable, the first ID, then the result, exactly as `Reply` decodes them |
| MeasurementStreamJson.JsonStream.HandleStreamResponse | api-cpp-websocket-json/src/MeasurementStreamJsonWebSocket.cpp:236-347 | a non-200 reply closes the measurement with INTERNAL_ERROR, unless its "Code" is not a string, which throws; a 200 reply that does not parse closes it with INTERNAL_ERROR; a parsed one is handled as a reply |
| MeasurementStreamGRPC.ChunkAction | api-cpp-grpc/src/MeasurementStreamGRPC.cpp:368-376 | LAST exactly for the last chunk; otherwise FIRST exactly for the first, and PROCESS for the rest |
| MeasurementStreamGRPC.NextChunkOrder | api-cpp-grpc/src/MeasurementStreamGRPC.cpp:380 | the 16-bit chunk order goes up by one, and wraps from 65535 to 0 |
| MeasurementStreamGRPC.SignalMap | api-cpp-grpc/src/MeasurementStreamGRPC.cpp:444-452 | every signal's name is a key; each key holds the data of the first signal with that name, since `emplace` keeps the first |
| MeasurementStreamGRPC.GrpcStream.constructor | api-cpp-grpc/src/MeasurementStreamGRPC.cpp:44-73 | a new stream has no channel or measurement ID, chunk order 0, is at its first chunk, writes nothing and has an open measurement with status OK |
| MeasurementStreamGRPC.GrpcStream.Initialize | api-cpp-grpc/src/MeasurementStreamGRPC.cpp:64-73 | the channel, measurement ID, chunk order and chunk flags are set back to their initial values |
| MeasurementStreamGRPC.GrpcStream.CloseStream | api-cpp-grpc/src/MeasurementStreamGRPC.cpp:158-189 | a closed measurement keeps and reports its status; an open one closes with the given status; either way it is closed afterwards |
| MeasurementStreamGRPC.GrpcStream.SetupStream | api-cpp-grpc/src/MeasurementStreamGRPC.cpp:75-156 | a failed guard is returned with nothing changed; once past it the channel is set; each completion-queue timeout or shutdown gives its own status; the study is written first; OK only when both events arrive and the call is still valid, otherwise INTERNAL_ERROR closes the stream |
| MeasurementStreamGRPC.GrpcStream.SendAsyncRequest | api-cpp-grpc/src/MeasurementStreamGRPC.cpp:405-415 | a request is written at once when no write is in flight, or else queued behind the others; the written requests followed by the queued ones are always the submitted ones, in order |
| MeasurementStreamGRPC.GrpcStream.SendChunk | api-cpp-grpc/src/MeasurementStreamGRPC.cpp:333-387 | a closed measurement reports its status and sends nothing; without a measurement ID the call waits; otherwise the chunk is submitted with its action, the current chunk order and the measurement ID as session, and the order advances |
| MeasurementStreamGRPC.GrpcStream.SubmitChunk | api-cpp-grpc/src/MeasurementStreamGRPC.cpp:366-384 | the chunk is submitted with its action, the current order and the measurement ID, the order advances, and the first-chunk flag is cleared |
| MeasurementStreamGRPC.GrpcStream.WriteDone | api-cpp-grpc/src/MeasurementStreamGRPC.cpp:280-296 | after a completed write the oldest queued request is written; with none queued the stream goes idle and, after the last chunk, sends writes-done; nothing is written once writes-done was sent |
| MeasurementStreamGRPC.GrpcStream.Cancel | api-cpp-grpc/src/MeasurementStreamGRPC.cpp:389-403 | a closed measurement reports its close status; an open one reports OK |
| MeasurementStreamGRPC.GrpcStream.Reset | api-cpp-grpc/src/MeasurementStreamGRPC.cpp:191-205 | the stream is back in its initial state with the measurement closed; the status is the earlier close status if it was closed, otherwise OK |
| MeasurementStreamGRPC.GrpcStream.HandleReadResponse | api-cpp-grpc/src/MeasurementStreamGRPC.cpp:417-467 | a setting reply sets and hands over the measurement ID every time it comes, a chunk result goes to the results, a metric to the metrics and an internal error to the warnings; no other queue changes |
| MeasurementStreamGRPC.GrpcStream.HandleQueued | api-cpp-grpc/src/MeasurementStreamGRPC.cpp:432-465 | the value goes to the one queue named and no other queue changes |
| MeasurementStreamGRPC.ChunkResults | api-cpp-grpc/src/MeasurementStreamGRPC.cpp:433-454 | a chunk result gives one result, with its chunk order, the reply's timestamp and one key per signal name; any other reply gives none |
| MeasurementStreamGRPC.Warnings | api-cpp-grpc/src/MeasurementStreamGRPC.cpp:459-466 | an internal error gives one warning, and any other reply none |
| MeasurementStreamGRPC.ChunksInSendOrder | api-cpp-grpc/src/MeasurementStreamGRPC.cpp:366-384 | three chunks sent on a fresh stream with a measurement ID go out numbered 0, 1 and 2 with FIRST, PROCESS and LAST |
| MeasurementCommand.Appended | tool-dfxcli/src/MeasurementCommand.cpp:357-360 | one more entry on a signal's vectors: the old entries are kept and the new sample list is last, and aligned vectors stay aligned |
| MeasurementCommand.SavedSignalsSnoc | tool-dfxcli/src/MeasurementCommand.cpp:351-361 | saving one more signal of the result is one more step of the loop over its signals |
| MeasurementCommand.SavedSignalsMeaning | tool-dfxcli/src/MeasurementCommand.cpp:351-361 | saving distinct signals gives the face exactly its old signals plus those, each saved one getting one more entry and every other one unchanged |
| MeasurementCommand.NewFace | tool-dfxcli/src/MeasurementCommand.cpp:350-361 | after a save the face holds its old signals and the result's; each of the result's signals has one more entry with its samples and the result's timestamps; the rest are unchanged |
| MeasurementCommand.FoldIsNewFace | tool-dfxcli/src/MeasurementCommand.cpp:351-361 | saving the result's signals one after another, in any order that visits each once, gives the same face |
| MeasurementCommand.SaveResult | tool-dfxcli/src/MeasurementCommand.cpp:342-362 | the result's face is created when missing and gets the result's signals; every other face is unchanged |
| MeasurementCommand.SaveResultAligned | tool-dfxcli/src/MeasurementCommand.cpp:342-362 | saving a result keeps every signal's data, timestamps and frame-end timestamps the same length |
| MeasurementCommand.SortedDistinct | tool-dfxcli/src/MeasurementCommand.cpp:351 | the keys a map visits are distinct |
| MeasurementCommand.PushEntry | tool-dfxcli/src/MeasurementCommand.cpp:358-360 | the three `push_back`s on a signal's entry add one entry to each vector |
| MeasurementCommand.SignalOrder | tool-dfxcli/src/MeasurementCommand.cpp:351 | the signals are visited once each, and every signal of the result is visited |
| MeasurementCommand.MeasurementData.constructor | tool-dfxcli/include/dfx/api/cli/MeasurementCommand.hpp:45-62 | new data holds no metrics, no warnings and no results |
| MeasurementCommand.MeasurementData.SaveMetricData | tool-dfxcli/src/MeasurementCommand.cpp:329-332 | the upload rate is appended to the metrics |
| MeasurementCommand.MeasurementData.SaveWarningData | tool-dfxcli/src/MeasurementCommand.cpp:334-337 | the warning is appended to the warnings |
| MeasurementCommand.MeasurementData.SaveResultData | tool-dfxcli/src/MeasurementCommand.cpp:342-362 | the stored results become `SaveResult` of the old ones |
| MeasurementCommand.SaveSignals | tool-dfxcli/src/MeasurementCommand.cpp:350-361 | the loop over the result's signals gives the face `NewFace` describes |
| MeasurementCommand.DataJson | tool-dfxcli/src/MeasurementCommand.cpp:253-266 | "data" has one item per saved entry: the single samples as plain numbers when every entry has exactly one, otherwise each entry as an array |
| MeasurementCommand.DataFlatIffScalar | tool-dfxcli/src/MeasurementCommand.cpp:254-266 | a non-empty "data" holds plain numbers exactly when every saved entry had a single sample |
| MeasurementCommand.BuildData | tool-dfxcli/src/MeasurementCommand.cpp:252-266 | the loop that scans the entries builds the "data" that `DataJson` describes |
| MeasurementCommand.SignalJson | tool-dfxcli/src/MeasurementCommand.cpp:252-268 | a signal is an object of exactly "data", "timestamp" and "frameEndTimestamp", holding its data and its two timestamp vectors |
| MeasurementCommand.FaceJson | tool-dfxcli/src/MeasurementCommand.cpp:250-271 | a face with no signals is null; otherwise an object with one member per signal |
| MeasurementCommand.ToJson | tool-dfxcli/src/MeasurementCommand.cpp:247-289 | one member per face, then "metrics" when there are metrics and "warnings" when there are warnings, each warning in order; the output is null only when everything is empty and holds no other member |
| MeasurementCommand.AlignedJson | tool-dfxcli/src/MeasurementCommand.cpp:247-289 | aligned data gives every signal's three JSON arrays the same length |
| AppCommand.RunAll | tool-dfxcli/src/DFXAppCommand.cpp:20-193 | after the cleanup callbacks run in registration order the user token is empty when a logout callback was registered, and otherwise the configuration is unchanged; the client is logged out exactly when a logout callback was registered and there was a user token; an OK logout from a client that clears the device (the protobuf WebSocket one) also empties the device ID and device token, which otherwise stay; nothing else in the configuration changes; no callback makes more than one client call, and the device is unregistered exactly when an unregister callback was registered and the transport is not REST |
| AppCommand.LogoutAtMostOnce | tool-dfxcli/src/DFXAppCommand.cpp:182-193 | however many logout callbacks are registered, the client is logged out at most once, never when it started without a token, and not at all when the token survives the cleanup |
| AppCommand.RestNeverUnregisters | tool-dfxcli/src/DFXAppCommand.cpp:154-164 | over the REST transport the cleanup never unregisters the device |
| AppCommand.ToUpper | tool-dfxcli/src/DFXAppCommand.cpp:223 | `toupper` in the C locale shifts exactly the letters a to z to upper case and leaves every other character alone |
| AppCommand.Capitalized | tool-dfxcli/src/DFXAppCommand.cpp:221-224 | the IDs help name keeps its length, has its first character upper-cased and the rest unchanged; an empty name stays empty |
| AppCommand.CapitalizedIdempotent | tool-dfxcli/src/DFXAppCommand.cpp:221-224 | capitalising twice is capitalising once, and a name already starting with a capital is unchanged |
| AppCommand.CreateGetCommand | tool-dfxcli/src/DFXAppCommand.cpp:219-240 | a get sub-command's description, offset and limit help name the entity, and the IDs argument is present exactly when requested, with the capitalised name |
| AppCommand.Connect | tool-dfxcli/src/DFXAppCommand.cpp:120-133 | a failure passes through; otherwise connecting succeeds exactly when the client is created with OK |
| AppCommand.Execute | tool-dfxcli/src/DFXAppCommand.cpp:199-205 | the command's own work decides the exit code only when every earlier stage succeeded; a failure passes through |
| AppCommand.App.constructor | tool-dfxcli/src/DFXAppCommand.cpp:15-28 | a command starts with its configuration, no cleanup callbacks and no client calls |
| AppCommand.App.AddCleanupOperation | tool-dfxcli/src/DFXAppCommand.cpp:16-19 | the callback is appended after every earlier one |
| AppCommand.App.RegisterDevice | tool-dfxcli/src/DFXAppCommand.cpp:135-167 | a failure passes through unchanged; a device token already present, or no license, skips registration; otherwise it succeeds exactly when the registration returns OK, and then stores the device ID and device token the client returned and registers exactly one unregister callback; a failure changes nothing |
| AppCommand.App.Login | tool-dfxcli/src/DFXAppCommand.cpp:169-197 | a failure passes through unchanged; a user token already present skips the login; otherwise it succeeds exactly when the login returns OK, and then stores the user token and registers exactly one logout callback; a failure changes nothing |
| AppCommand.App.SetupAndExecute | tool-dfxcli/src/DFXAppCommand.cpp:207-210 | a failed load or client creation fails with nothing changed; a registration (no device token, a license) or a login (no user token) that is attempted and fails ends the chain with FAILURE; the device ID and device token, and the user token, change exactly when their stage ran and succeeded, to what the client returned, and each such stage adds its cleanup callback; the result is SUCCESS exactly when every stage attempted and the command succeeded |
| AppCommand.App.RunCleanupOperations | tool-dfxcli/src/DFXAppCommand.cpp:20-26 | every callback runs once, in registration order, with the client calls and the configuration `RunAll` gives (the user token forgotten after a logout, and the device ID and token too after an OK protobuf WebSocket logout), and the list is then empty |
| AppCommand.App.Cleanup | tool-dfxcli/src/DFXAppCommand.cpp:212-217 | the cleanup callbacks run as `RunAll` gives, the configuration becomes what they leave (user token, and after an OK protobuf WebSocket logout the device ID and token), the list is emptied and the exit code is passed on unchanged |
| AppCommand.CleanupRunsOnce | tool-dfxcli/src/DFXAppCommand.cpp:20-26 | a second cleanup makes no further client call |
| AndroidSdk.Configure | conan/recipes/android-sdk/conanfile.py:113-119 | the configuration is accepted exactly when the platform version is in 7..32, the build OS is Windows, Macos or Linux and the build architecture is x86_64; otherwise the first check that fails, in that order, gives its exception message |
| AndroidSdk.Signature | conan/recipes/android-sdk/conanfile.py:90-95 | the signature is the file's first four bytes, or the whole file when it is shorter |
| AndroidSdk.ClassifyWith | conan/recipes/android-sdk/conanfile.py:96-111 | a file is a script exactly when more than two bytes were read and they start with "#!", ELF exactly when its four bytes are the ELF magic, and Mach-O exactly when they are in the Mach-O list and it is neither of the others |
| AndroidSdk.ClassifyAsWritten | conan/recipes/android-sdk/conanfile.py:96-111 | as written, a signature is Mach-O exactly when it is one of the six listed, so FE ED FA CE is not Mach-O and FE EF FA CE is |
| AndroidSdk.Classify | conan/recipes/android-sdk/conanfile.py:96-111 | with the corrected fifth signature, a signature is Mach-O exactly when it is one of the six, so FE ED FA CE is Mach-O and FE EF FA CE is not |
| AndroidSdk.BigEndianMachOMissed | conan/recipes/android-sdk/conanfile.py:102-109 | as written, a 32-bit big-endian Mach-O file is not made executable while the corrected list recognises it, and every other signature is classified alike by both |
| AndroidSdk.ShortFilesNotExecutable | conan/recipes/android-sdk/conanfile.py:91-109 | a file of two bytes or fewer is never made executable, not even one holding just "#!" |
| AndroidSdk.ExecutablesAmong | conan/recipes/android-sdk/conanfile.py:87-111 | only walked files are made executable |
| AndroidSdk.ExecutablesAmongMeaning | conan/recipes/android-sdk/conanfile.py:87-111 | a file is made executable exactly when the walk yields it and its signature is a script, ELF or Mach-O one |
| AndroidSdk.AddExecute | conan/recipes/android-sdk/conanfile.py:82 | the new mode has the execute bit for owner, group and others set |
| AndroidSdk.AddExecuteKeepsBits | conan/recipes/android-sdk/conanfile.py:82 | adding execute permission keeps every bit the mode had |
| AndroidSdk.AddExecuteIdempotent | conan/recipes/android-sdk/conanfile.py:82 | adding execute permission twice is adding it once |
| AndroidSdk.FixedModes | conan/recipes/android-sdk/conanfile.py:84-111 | fixing permissions keeps the same files and changes nothing on a system that is not POSIX |
| AndroidSdk.FixedModesKeepBits | conan/recipes/android-sdk/conanfile.py:84-111 | fixing permissions only ever adds bits to a mode |
| AndroidSdk.FixedModesAddOne | conan/recipes/android-sdk/conanfile.py:87-111 | one more executable file changes exactly that file's mode, by adding the execute bits |
| AndroidSdk.FixedModesIdempotent | conan/recipes/android-sdk/conanfile.py:84-111 | fixing the permissions twice is fixing them once |
| AndroidSdk.ToolsFolder.constructor | conan/recipes/android-sdk/conanfile.py:133-136 | the unpacked folder holds the given contents and modes |
| AndroidSdk.ToolsFolder.ChmodPlusX | conan/recipes/android-sdk/conanfile.py:79-82 | on POSIX exactly the named file gains the execute bits; elsewhere nothing changes |
| AndroidSdk.ToolsFolder.FixPermissions | conan/recipes/android-sdk/conanfile.py:84-111 | after the walk the modes are the old ones with the execute bits added to exactly the walked script, ELF and Mach-O files, on POSIX only |
| AndroidSdk.Recipe.constructor | conan/recipes/android-sdk/conanfile.py:149 | a fresh recipe has copied nothing and `sdk_copied` is false |
| AndroidSdk.Recipe.Package | conan/recipes/android-sdk/conanfile.py:151-159 | the first call copies the four subtrees in order and sets `sdk_copied`; later calls copy nothing |
| AndroidSdk.PackageCalledTwice | conan/recipes/android-sdk/conanfile.py:151-159 | packaging from the source folder and then from the build folder copies the SDK exactly once |

## Left out

- AppCommand.App.RunCleanupOperations: which client the command holds is a parameter (`clearsDevice`), as is the status its `logout` returns, because `CloudAPI::createInstance` picks the transport at run time; only the protobuf WebSocket client's `logout` clears the device ID and token (api-cpp-websocket/src/CloudWebSocket.cpp:470-473).
- UserTypes.User: `dateOfBirth` is modelled as the unsigned epoch-seconds number that `to_json`/`from_json` write and read as `u.dateOfBirthEpochSeconds` (api-cpp/src/UserTypes.cpp:55,77), not as the `std::string dateOfBirth` the header declares (api-cpp/include/dfx/api/types/UserTypes.hpp:55); the header declares no `dateOfBirthEpochSeconds`, so the source does not build as it stands, and the serialisation code is the reading that says what goes on the wire.
- Networking is not modelled: libwebsockets, curl, gRPC channels and TLS. Each call's outcome (sent or not, the HTTP code and body, the gRPC status, the client created or not) is a parameter.
- Threads, mutexes and condition variables are not modelled. The stream and socket classes are modelled as the serialised run of their methods. A wait that would block is reported as blocking (`MeasurementStreamAPI.Completion.Blocked`); it is not simulated.
- The reader threads that drain gRPC responses are not modelled. Only the handlers for one write completing (`WriteDone`) and one response arriving (`handleReadResponse`) are.
- Protobuf and JSON serialisation are not modelled. A message that does not decode is a parameter. JSON values are an algebraic type, and `dump` is a parameter wherever text is built from a value: the warning messages of the JSON stream and the VALIDATION_ERROR message of REST.
- YAML parsing by yaml-cpp is not modelled. A parsed document is a tree of nodes. Of yaml-cpp's exceptions, the model keeps the conversion error, the subscript of a scalar node and the subscript of an entry taken from an iterated mapping. The `verbose` key only sets the logger level (api-cpp/src/CloudConfig.cpp:209-225) and is not modelled.
- The environment variables `HOME` and `USERPROFILE` are parameters, `None` when unset, as POSIX `getenv` reports them. Assigning its null result to a `std::string` is undefined behaviour, which `Config.LoadOutcome.Undefined` stands for. The Windows `_dupenv_s` branch (api-cpp/src/CloudConfig.cpp:32-41), which reads an unset variable as "", is not modelled.
- Floating point is carried as `real`: the division of samples by their multiplier, upload rates and signal amplitudes. Rounding is not modelled. A JSON multiplier of 0 is passed to the division as it is.
- Base64, and `epocToString`/`strToEpoch`, which work through `localtime`/`mktime`, are not part of this model.
- `std::map` iteration order is modelled as ascending key order. nlohmann::json objects are `std::map`s too, so their members are visited and dumped in ascending key order as well.
- Logging is not modelled, apart from the level gate and the 2048-byte buffer of `WebSocket::log`. That covers `cloudLog`, `outputError` and the `dfxcli` console output.
- `WebSocket::create`, `setLogLevel` and `setRootCertificate` (websocket/src/WebSocket.cpp:16-23 and websocket/src/WebSocket.cpp:69-71) are not modelled. The last two have empty bodies. The library-specific socket in WebSocketLibWebSocket.cpp is not part of this model.
- The base `MeasurementStreamAPI` `setupStream`, `sendChunk` and `cancel` are not modelled. They only report UNIMPLEMENTED_FEATURE (api-cpp/src/MeasurementStreamAPI.cpp:21-36). Its `reset` is modelled, as the `Reset` member of each stream class.
- `dfxcli` `loadConfig` (tool-dfxcli/src/DFXAppCommand.cpp:58-118) is not modelled. It walks the CLI11 option tree and then calls `getAvailableContexts`/`loadCloudConfig`, which `Config` models. `SetupAndExecute` takes its exit code as a parameter.
- `MeasurementCommand` is modelled only for its result saving and `to_json`. Its directory scan, natural sort, sleeps and `writeEventData` printing are not modelled.
- The Android recipe's `os.walk` is the list of paths it yields, and `f.read(4)` is the file's first bytes. `build`, `generate`, `layout`, `source` and `package_info` are not modelled: they only download, run `sdkmanager` or set paths.
- The per-entity transport files are not part of this model. They copy fields between requests and responses around network calls. So are CloudAPI.cpp, CloudLog.cpp, FileUtils.cpp, LicenseTypes.cpp and the license, measurement and measurement-stream validators.
- MeasurementStreamWebSocket.WebSocketStream.SendChunk: models the evidently intended result of a failed send, the failing status. The source returns `closeStream()`'s OK (api-cpp-websocket/src/MeasurementStreamWebSocket.cpp:146-151); `MeasurementStreamWebSocket.WebSocketStream.SendChunkAsWritten` models that, under "## Findings".
- FilterHelpers.GetFilterInt64: takes `long` as 64-bit, as on LP64 platforms (Linux, macOS). On LLP64 Windows `std::stol` throws `out_of_range` for a value beyond the 32-bit range instead of returning it for truncation.
- Config.AvailableContexts: models only the ".yaml" branch. Any other path returns CONFIG_UNSUPPORTED_CONTENT_TYPE without reading anything; `LoadCloudConfig` states the same for loading.
- CloudREST.PerformRESTCall: requires that the route's placeholders match its argument count. `CloudREST.RoutesFormat` proves this for every route in the table.
- WebSocketConnection.Connection.HandleMessageEvent: requires at least ten bytes in a message. The source reads the request ID without a length check.
- MeasurementStreamJson.JsonStream.HandleStreamResponse: requires at least 13 bytes. The source reads the status at offset 10 and the body at offset 13 without a length check.
- MeasurementStreamWebSocket.WebSocketStream.HandleStreamResponse: requires at least 13 bytes, for the same reason. It decodes a failed reply's error from the whole payload after offset 13 (`MeasurementStreams.ReplyBody`), as evidently intended. The source passes only the bytes up to `messageSize - 13` (api-cpp-websocket/src/MeasurementStreamWebSocket.cpp:187); `MeasurementStreams.ErrorBodyAsWritten` models that range under "## Findings".
- MeasurementStreamProtobuf.ProtobufStream.HandleStreamResponse: requires at least 13 bytes, for the same reason. Like the WebSocket stream, it decodes the whole payload after offset 13, where the source stops at `messageSize - 13` (api-cpp-websocket-protobuf/src/MeasurementStreamWebSocketProtobuf.cpp:246).
- Config.TopLevel: loads the service entry with `Config.ServiceNode`, which reads the legacy `rootCA` value as evidently intended. The source reads the absent "root-ca" key instead and throws (`Config.ServiceNodeAsWritten`, under "## Findings").
- Config.ServiceLayer: loads the service entry with the corrected `Config.ServiceNode`, for the same reason.
- Config.Layers: uses the corrected service loader through `Config.ServiceLayer`.
- Config.LoadYaml: uses the corrected service loader through `Config.TopLevel` and `Config.ServiceLayer`, so a file with only the legacy `rootCA` key loads here but throws in the source.
- Config.LoadYamlFile: uses the corrected service loader through `Config.LoadYaml`.
- Config.LoadCloudConfig: uses the corrected service loader through `Config.LoadYamlFile`.
- AndroidSdk.Executable: the recipe is modelled with the corrected fifth Mach-O signature FE ED FA CE (`AndroidSdk.Classify`). The recipe writes FE EF FA CE (`AndroidSdk.ClassifyAsWritten`, under "## Findings"). The two differ only on files that start with one of those two signatures.
- AndroidSdk.ExecutablesAmong: uses the corrected signatures, so a 32-bit big-endian Mach-O file counts as executable here but not in the recipe.
- AndroidSdk.ExecutablesAmongMeaning: is stated for the corrected signatures.
- AndroidSdk.ToolsFolder.FixPermissions: makes executable the files the corrected signatures recognise.

Two behaviours of the code are modelled as written, though they may not be what was intended:
- `Signal` `to_json` writes ModelMinSeconds, but `from_json` never reads it back.
- The stream in api-cpp-websocket/src/MeasurementStreamWebSocket.cpp never advances `chunkOrder`, so every chunk before the last goes out as FIRST (`MeasurementStreamWebSocket.WebSocketStream.SecondChunkIsFirst`).

## Findings

| source | as written | input that shows it | evidently intended | confidence | as-written member | corrected member |
|---|---|---|---|---|---|---|
| api-cpp/src/CloudConfig.cpp:245-247 | the legacy `rootCA` branch reads the "root-ca" key again, which it has just found absent | a service entry with `rootCA: abc` and no `root-ca` key: the read of a missing node throws | read the legacy `rootCA` value | not executed | Config.ServiceNodeAsWritten, Config.LegacyRootCAThrows | Config.ServiceNode |
| api-cpp-websocket/src/MeasurementStreamWebSocket.cpp:186-187 | the error body passed to `decodeWebSocketError` ends at `messageSize - 13` | a 400 reply with a 20-byte payload: only its first 7 bytes are decoded, and a payload under 13 bytes gives an invalid range | the whole payload after the 13-byte header | not executed | MeasurementStreams.ErrorBodyAsWritten, MeasurementStreams.ErrorBodyDropsTail | MeasurementStreams.ReplyBody, MeasurementStreams.ReplyBodyRoundTrip |
| api-cpp-websocket/src/MeasurementStreamWebSocket.cpp:146-151 | a failed send returns `closeStream()`'s status, which is OK | a chunk whose send reports TRANSPORT_CLOSED: `sendChunk` reports OK | return the failing status, as the protobuf stream does | not executed | MeasurementStreamWebSocket.WebSocketStream.SendChunkAsWritten | MeasurementStreamWebSocket.WebSocketStream.SendChunk |
| conan/recipes/android-sdk/conanfile.py:107 | the fifth Mach-O signature is FE EF FA CE | a 32-bit big-endian Mach-O binary, starting FE ED FA CE, is not made executable | FE ED FA CE, the byte swap of the sixth signature | not executed | AndroidSdk.ClassifyAsWritten, AndroidSdk.BigEndianMachOMissed | AndroidSdk.Classify |
| api-cpp/include/dfx/api/types/FilterHelpers.hpp:57 | `getFilterInt64` stores the parsed value in an `int` | on an LP64 platform (Linux, macOS), the filter value "2147483648" reads back as -2147483648; on LLP64 Windows `std::stol` throws `out_of_range` for it instead | keep the 64-bit value | not executed | FilterHelpers.GetFilterInt64, FilterHelpers.Int64Truncates | FilterHelpers.GetFilterInt64Intended, FilterHelpers.Int64IntendedRoundTrip |
| api-cpp/src/UserTypes.cpp:52-103 | `to_json` writes HeightCM, WeightKG and AvatarURL, but `from_json` reads HeightCm, WeightKg and AvatarURI | a user of height 170 cm reads back with height 0 | use the same keys on both sides | not executed | UserTypes.JsonRoundTripAsWritten, UserTypes.HeightLost | UserTypes.JsonRoundTripIntended, UserTypes.ToJsonIntended |
