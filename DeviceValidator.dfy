/** Argument checks run before a device request is sent. */
module DeviceValidator {
  import Status
  import Config
  import opened ValidatorMacros

  /** `create`: name, identifier, then version; the device type is not checked. */
  function Create(config: Config.CloudConfig, name: string, identifier: string, version: string): (r: Status.CloudStatus)
    ensures r.IsOk() <==> !MissingUserToken(config) && name != "" && identifier != "" && version != ""
    ensures MissingUserToken(config) ==> r == TokenMissing
    ensures !MissingUserToken(config) && name == "" ==> r == EmptyError("name")
    ensures !MissingUserToken(config) && name != "" && identifier == "" ==> r == EmptyError("identifier")
    ensures !MissingUserToken(config) && name != "" && identifier != "" && version == "" ==> r == EmptyError("version")
  {
    Guarded(IfNoUserToken(config),
    Guarded(IfEmpty("name", name == ""),
    Guarded(IfEmpty("identifier", identifier == ""),
    Guarded(IfEmpty("version", version == ""),
    Accepted))))
  }

  /** `list`: only the user token is checked. */
  function List(config: Config.CloudConfig): (r: Status.CloudStatus)
    ensures r.IsOk() <==> !MissingUserToken(config)
    ensures MissingUserToken(config) ==> r == TokenMissing
  {
    Guarded(IfNoUserToken(config),
    Accepted)
  }

  /** `retrieve`: the device ID is required. */
  function Retrieve(config: Config.CloudConfig, deviceID: string): (r: Status.CloudStatus)
    ensures r.IsOk() <==> !MissingUserToken(config) && deviceID != ""
    ensures MissingUserToken(config) ==> r == TokenMissing
    ensures !MissingUserToken(config) && deviceID == "" ==> r == EmptyError("deviceID")
  {
    Guarded(IfNoUserToken(config),
    Guarded(IfEmpty("deviceID", deviceID == ""),
    Accepted))
  }

  /** `retrieveMultiple`: the list of IDs must not be empty. */
  function RetrieveMultiple(config: Config.CloudConfig, deviceIDs: seq<string>): (r: Status.CloudStatus)
    ensures r.IsOk() <==> !MissingUserToken(config) && |deviceIDs| > 0
    ensures MissingUserToken(config) ==> r == TokenMissing
    ensures !MissingUserToken(config) && |deviceIDs| == 0 ==> r == EmptyError("deviceIDs")
  {
    Guarded(IfNoUserToken(config),
    Guarded(IfEmpty("deviceIDs", |deviceIDs| == 0),
    Accepted))
  }

  /** `update`: only the user token is checked. */
  function Update(config: Config.CloudConfig): (r: Status.CloudStatus)
    ensures r.IsOk() <==> !MissingUserToken(config)
    ensures MissingUserToken(config) ==> r == TokenMissing
  {
    Guarded(IfNoUserToken(config),
    Accepted)
  }

  /** `remove`: the device ID is required. */
  function Remove(config: Config.CloudConfig, deviceID: string): (r: Status.CloudStatus)
    ensures r.IsOk() <==> !MissingUserToken(config) && deviceID != ""
    ensures MissingUserToken(config) ==> r == TokenMissing
    ensures !MissingUserToken(config) && deviceID == "" ==> r == EmptyError("deviceID")
  {
    Guarded(IfNoUserToken(config),
    Guarded(IfEmpty("deviceID", deviceID == ""),
    Accepted))
  }
}
