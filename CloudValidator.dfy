/** Argument checks of the connection-level requests. None of them checks the user token. */
module CloudValidator {
  import Status
  import Config
  import opened ValidatorMacros

  /** `connect`: the server host is required. */
  function Connect(config: Config.CloudConfig): (r: Status.CloudStatus)
    ensures r.IsOk() <==> config.serverHost != ""
    ensures config.serverHost == "" ==> r == EmptyError("config.serverHost")
  {
    Guarded(IfEmpty("config.serverHost", config.serverHost == ""),
    Accepted)
  }

  /** `logout`: the user token is required. */
  function Logout(config: Config.CloudConfig): (r: Status.CloudStatus)
    ensures r.IsOk() <==> config.authToken != ""
    ensures config.authToken == "" ==> r == EmptyError("config.authToken")
  {
    Guarded(IfEmpty("config.authToken", config.authToken == ""),
    Accepted)
  }

  /** `registerDevice`: license, application name, then application version. */
  function RegisterDevice(config: Config.CloudConfig, appName: string, appVersion: string): (r: Status.CloudStatus)
    ensures r.IsOk() <==> config.license != "" && appName != "" && appVersion != ""
    ensures config.license == "" ==> r == EmptyError("config.license")
    ensures config.license != "" && appName == "" ==> r == EmptyError("appName")
    ensures config.license != "" && appName != "" && appVersion == "" ==> r == EmptyError("appVersion")
  {
    Guarded(IfEmpty("config.license", config.license == ""),
    Guarded(IfEmpty("appName", appName == ""),
    Guarded(IfEmpty("appVersion", appVersion == ""),
    Accepted)))
  }

  /** `unregisterDevice`: license, then device ID. */
  function UnregisterDevice(config: Config.CloudConfig): (r: Status.CloudStatus)
    ensures r.IsOk() <==> config.license != "" && config.deviceID != ""
    ensures config.license == "" ==> r == EmptyError("config.license")
    ensures config.license != "" && config.deviceID == "" ==> r == EmptyError("config.deviceID")
  {
    Guarded(IfEmpty("config.license", config.license == ""),
    Guarded(IfEmpty("config.deviceID", config.deviceID == ""),
    Accepted))
  }

  /** `validateToken`: license, organisation, then the token to validate. */
  function ValidateToken(config: Config.CloudConfig, userToken: string): (r: Status.CloudStatus)
    ensures r.IsOk() <==> config.license != "" && config.authOrg != "" && userToken != ""
    ensures config.license == "" ==> r == EmptyError("config.license")
    ensures config.license != "" && config.authOrg == "" ==> r == EmptyError("config.authOrg")
    ensures config.license != "" && config.authOrg != "" && userToken == "" ==> r == EmptyError("userToken")
  {
    Guarded(IfEmpty("config.license", config.license == ""),
    Guarded(IfEmpty("config.authOrg", config.authOrg == ""),
    Guarded(IfEmpty("userToken", userToken == ""),
    Accepted)))
  }

  /** `switchEffectiveOrganization`: accepts every request. */
  function SwitchEffectiveOrganization(config: Config.CloudConfig, organizationID: string): (r: Status.CloudStatus)
    ensures r.IsOk()
  {
    Accepted
  }

  const AlreadyHaveToken: Status.CloudStatus :=
    Status.WithMessage(Status.AlreadyHaveUserToken, "Config already contains user token")

  /** `login`: a configuration that already holds a user token is refused before
      any field is checked; then email, password and organisation, in that order. */
  function Login(config: Config.CloudConfig): (r: Status.CloudStatus)
    ensures r.IsOk() <==> config.authToken == "" && config.authEmail != "" && config.authPassword != "" && config.authOrg != ""
    ensures config.authToken != "" ==> r == AlreadyHaveToken
    ensures config.authToken == "" && config.authEmail == "" ==> r == EmptyError("config.authEmail")
    ensures config.authToken == "" && config.authEmail != "" && config.authPassword == "" ==> r == EmptyError("config.authPassword")
    ensures config.authToken == "" && config.authEmail != "" && config.authPassword != "" && config.authOrg == "" ==>
      r == EmptyError("config.authOrg")
  {
    if config.authToken != "" then AlreadyHaveToken
    else Guarded(IfEmpty("config.authEmail", config.authEmail == ""),
         Guarded(IfEmpty("config.authPassword", config.authPassword == ""),
         Guarded(IfEmpty("config.authOrg", config.authOrg == ""), Accepted)))
  }

  /** `getServerStatus` is not something a validator can check. */
  function GetServerStatus(config: Config.CloudConfig): (r: Status.CloudStatus)
    ensures r.code == Status.UnsupportedFeature && !r.IsOk()
  {
    Status.Of(Status.UnsupportedFeature)
  }
}
