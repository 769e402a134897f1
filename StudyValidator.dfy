/** Argument checks run before a study request is sent. */
module StudyValidator {
  import Status
  import Config
  import opened ValidatorMacros

  /** `create`: name, description and template ID, in that order. */
  function Create(config: Config.CloudConfig, name: string, description: string, studyTemplateID: string): (r: Status.CloudStatus)
    ensures r.IsOk() <==> !MissingUserToken(config) && name != "" && description != "" && studyTemplateID != ""
    ensures MissingUserToken(config) ==> r == TokenMissing
    ensures !MissingUserToken(config) && name == "" ==> r == EmptyError("name")
    ensures !MissingUserToken(config) && name != "" && description == "" ==> r == EmptyError("description")
    ensures !MissingUserToken(config) && name != "" && description != "" && studyTemplateID == "" ==> r == EmptyError("studyTemplateID")
  {
    Guarded(IfNoUserToken(config),
    Guarded(IfEmpty("name", name == ""),
    Guarded(IfEmpty("description", description == ""),
    Guarded(IfEmpty("studyTemplateID", studyTemplateID == ""),
    Accepted))))
  }

  /** `list`: only the user token is checked. */
  function List(config: Config.CloudConfig): (r: Status.CloudStatus)
    ensures r.IsOk() <==> !MissingUserToken(config)
    ensures MissingUserToken(config) ==> r == TokenMissing
  {
    Guarded(IfNoUserToken(config),
    Accepted)
  }

  /** `retrieve`: the study ID is required. */
  function Retrieve(config: Config.CloudConfig, studyID: string): (r: Status.CloudStatus)
    ensures r.IsOk() <==> !MissingUserToken(config) && studyID != ""
    ensures MissingUserToken(config) ==> r == TokenMissing
    ensures !MissingUserToken(config) && studyID == "" ==> r == EmptyError("studyID")
  {
    Guarded(IfNoUserToken(config),
    Guarded(IfEmpty("studyID", studyID == ""),
    Accepted))
  }

  /** `retrieveMultiple`: the list of IDs must not be empty. */
  function RetrieveMultiple(config: Config.CloudConfig, studyIDs: seq<string>): (r: Status.CloudStatus)
    ensures r.IsOk() <==> !MissingUserToken(config) && |studyIDs| > 0
    ensures MissingUserToken(config) ==> r == TokenMissing
    ensures !MissingUserToken(config) && |studyIDs| == 0 ==> r == EmptyError("studyIDs")
  {
    Guarded(IfNoUserToken(config),
    Guarded(IfEmpty("studyIDs", |studyIDs| == 0),
    Accepted))
  }

  /** `update`: study ID, name, then description; the status is not checked. */
  function Update(config: Config.CloudConfig, studyID: string, name: string, description: string): (r: Status.CloudStatus)
    ensures r.IsOk() <==> !MissingUserToken(config) && studyID != "" && name != "" && description != ""
    ensures MissingUserToken(config) ==> r == TokenMissing
    ensures !MissingUserToken(config) && studyID == "" ==> r == EmptyError("studyID")
    ensures !MissingUserToken(config) && studyID != "" && name == "" ==> r == EmptyError("name")
    ensures !MissingUserToken(config) && studyID != "" && name != "" && description == "" ==> r == EmptyError("description")
  {
    Guarded(IfNoUserToken(config),
    Guarded(IfEmpty("studyID", studyID == ""),
    Guarded(IfEmpty("name", name == ""),
    Guarded(IfEmpty("description", description == ""),
    Accepted))))
  }

  /** `remove`: the study ID is required. */
  function Remove(config: Config.CloudConfig, studyID: string): (r: Status.CloudStatus)
    ensures r.IsOk() <==> !MissingUserToken(config) && studyID != ""
    ensures MissingUserToken(config) ==> r == TokenMissing
    ensures !MissingUserToken(config) && studyID == "" ==> r == EmptyError("studyID")
  {
    Guarded(IfNoUserToken(config),
    Guarded(IfEmpty("studyID", studyID == ""),
    Accepted))
  }

  /** `retrieveStudyConfig`: study ID, SDK ID, then the current hash ID. */
  function RetrieveStudyConfig(config: Config.CloudConfig, studyID: string, sdkID: string, currentHashID: string): (r: Status.CloudStatus)
    ensures r.IsOk() <==> !MissingUserToken(config) && studyID != "" && sdkID != "" && currentHashID != ""
    ensures MissingUserToken(config) ==> r == TokenMissing
    ensures !MissingUserToken(config) && studyID == "" ==> r == EmptyError("studyID")
    ensures !MissingUserToken(config) && studyID != "" && sdkID == "" ==> r == EmptyError("sdkID")
    ensures !MissingUserToken(config) && studyID != "" && sdkID != "" && currentHashID == "" ==> r == EmptyError("currentHashID")
  {
    Guarded(IfNoUserToken(config),
    Guarded(IfEmpty("studyID", studyID == ""),
    Guarded(IfEmpty("sdkID", sdkID == ""),
    Guarded(IfEmpty("currentHashID", currentHashID == ""),
    Accepted))))
  }

  /** `retrieveStudyTypes`: only the user token is checked. */
  function RetrieveStudyTypes(config: Config.CloudConfig): (r: Status.CloudStatus)
    ensures r.IsOk() <==> !MissingUserToken(config)
    ensures MissingUserToken(config) ==> r == TokenMissing
  {
    Guarded(IfNoUserToken(config),
    Accepted)
  }

  /** `listStudyTemplates`: the template type is required. */
  function ListStudyTemplates(config: Config.CloudConfig, templateType: string): (r: Status.CloudStatus)
    ensures r.IsOk() <==> !MissingUserToken(config) && templateType != ""
    ensures MissingUserToken(config) ==> r == TokenMissing
    ensures !MissingUserToken(config) && templateType == "" ==> r == EmptyError("type")
  {
    Guarded(IfNoUserToken(config),
    Guarded(IfEmpty("type", templateType == ""),
    Accepted))
  }
}
