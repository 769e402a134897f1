/** Argument checks run before a profile request is sent. */
module ProfileValidator {
  import Status
  import Config
  import opened ValidatorMacros
  import ProfileTypes

  /** `create`: name, then email. */
  function Create(config: Config.CloudConfig, name: string, email: string): (r: Status.CloudStatus)
    ensures r.IsOk() <==> !MissingUserToken(config) && name != "" && email != ""
    ensures MissingUserToken(config) ==> r == TokenMissing
    ensures !MissingUserToken(config) && name == "" ==> r == EmptyError("name")
    ensures !MissingUserToken(config) && name != "" && email == "" ==> r == EmptyError("email")
  {
    Guarded(IfNoUserToken(config),
    Guarded(IfEmpty("name", name == ""),
    Guarded(IfEmpty("email", email == ""),
    Accepted)))
  }

  /** `list`: only the user token is checked. */
  function List(config: Config.CloudConfig): (r: Status.CloudStatus)
    ensures r.IsOk() <==> !MissingUserToken(config)
    ensures MissingUserToken(config) ==> r == TokenMissing
  {
    Guarded(IfNoUserToken(config),
    Accepted)
  }

  /** `retrieve`: the profile ID is required. */
  function Retrieve(config: Config.CloudConfig, profileID: string): (r: Status.CloudStatus)
    ensures r.IsOk() <==> !MissingUserToken(config) && profileID != ""
    ensures MissingUserToken(config) ==> r == TokenMissing
    ensures !MissingUserToken(config) && profileID == "" ==> r == EmptyError("profileID")
  {
    Guarded(IfNoUserToken(config),
    Guarded(IfEmpty("profileID", profileID == ""),
    Accepted))
  }

  /** `update`: the profile's ID, name, then email. */
  function Update(config: Config.CloudConfig, profile: ProfileTypes.Profile): (r: Status.CloudStatus)
    ensures r.IsOk() <==> !MissingUserToken(config) && profile.id != "" && profile.name != "" && profile.email != ""
    ensures MissingUserToken(config) ==> r == TokenMissing
    ensures !MissingUserToken(config) && profile.id == "" ==> r == EmptyError("profile.id")
    ensures !MissingUserToken(config) && profile.id != "" && profile.name == "" ==> r == EmptyError("profile.name")
    ensures !MissingUserToken(config) && profile.id != "" && profile.name != "" && profile.email == "" ==> r == EmptyError("profile.email")
  {
    Guarded(IfNoUserToken(config),
    Guarded(IfEmpty("profile.id", profile.id == ""),
    Guarded(IfEmpty("profile.name", profile.name == ""),
    Guarded(IfEmpty("profile.email", profile.email == ""),
    Accepted))))
  }

  /** `remove`: the profile ID is required. */
  function Remove(config: Config.CloudConfig, profileID: string): (r: Status.CloudStatus)
    ensures r.IsOk() <==> !MissingUserToken(config) && profileID != ""
    ensures MissingUserToken(config) ==> r == TokenMissing
    ensures !MissingUserToken(config) && profileID == "" ==> r == EmptyError("profileID")
  {
    Guarded(IfNoUserToken(config),
    Guarded(IfEmpty("profileID", profileID == ""),
    Accepted))
  }
}
