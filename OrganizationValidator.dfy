/** Argument checks run before an organization request is sent. */
module OrganizationValidator {
  import Status
  import Config
  import opened ValidatorMacros

  /** `create`: name, identifier, public key, then logo; the status is not checked. */
  function Create(config: Config.CloudConfig, name: string, identifier: string, publicKey: string, logo: string): (r: Status.CloudStatus)
    ensures r.IsOk() <==> !MissingUserToken(config) && name != "" && identifier != "" && publicKey != "" && logo != ""
    ensures MissingUserToken(config) ==> r == TokenMissing
    ensures !MissingUserToken(config) && name == "" ==> r == EmptyError("name")
    ensures !MissingUserToken(config) && name != "" && identifier == "" ==> r == EmptyError("identifier")
    ensures !MissingUserToken(config) && name != "" && identifier != "" && publicKey == "" ==> r == EmptyError("public_key")
    ensures !MissingUserToken(config) && name != "" && identifier != "" && publicKey != "" && logo == "" ==> r == EmptyError("logo")
  {
    Guarded(IfNoUserToken(config),
    Guarded(IfEmpty("name", name == ""),
    Guarded(IfEmpty("identifier", identifier == ""),
    Guarded(IfEmpty("public_key", publicKey == ""),
    Guarded(IfEmpty("logo", logo == ""),
    Accepted)))))
  }

  /** `list`: only the user token is checked. */
  function List(config: Config.CloudConfig): (r: Status.CloudStatus)
    ensures r.IsOk() <==> !MissingUserToken(config)
    ensures MissingUserToken(config) ==> r == TokenMissing
  {
    Guarded(IfNoUserToken(config),
    Accepted)
  }

  /** `retrieve`: the organization ID is required. */
  function Retrieve(config: Config.CloudConfig, organizationID: string): (r: Status.CloudStatus)
    ensures r.IsOk() <==> !MissingUserToken(config) && organizationID != ""
    ensures MissingUserToken(config) ==> r == TokenMissing
    ensures !MissingUserToken(config) && organizationID == "" ==> r == EmptyError("organizationID")
  {
    Guarded(IfNoUserToken(config),
    Guarded(IfEmpty("organizationID", organizationID == ""),
    Accepted))
  }

  /** `retrieveMultiple`: the list of IDs must not be empty. */
  function RetrieveMultiple(config: Config.CloudConfig, organizationIDs: seq<string>): (r: Status.CloudStatus)
    ensures r.IsOk() <==> !MissingUserToken(config) && |organizationIDs| > 0
    ensures MissingUserToken(config) ==> r == TokenMissing
    ensures !MissingUserToken(config) && |organizationIDs| == 0 ==> r == EmptyError("organizationIDs")
  {
    Guarded(IfNoUserToken(config),
    Guarded(IfEmpty("organizationIDs", |organizationIDs| == 0),
    Accepted))
  }

  /** `update`: only the user token is checked. */
  function Update(config: Config.CloudConfig): (r: Status.CloudStatus)
    ensures r.IsOk() <==> !MissingUserToken(config)
    ensures MissingUserToken(config) ==> r == TokenMissing
  {
    Guarded(IfNoUserToken(config),
    Accepted)
  }

  /** `remove`: the organization ID is required. */
  function Remove(config: Config.CloudConfig, organizationID: string): (r: Status.CloudStatus)
    ensures r.IsOk() <==> !MissingUserToken(config) && organizationID != ""
    ensures MissingUserToken(config) ==> r == TokenMissing
    ensures !MissingUserToken(config) && organizationID == "" ==> r == EmptyError("organizationID")
  {
    Guarded(IfNoUserToken(config),
    Guarded(IfEmpty("organizationID", organizationID == ""),
    Accepted))
  }

  /** `listUsers`: only the user token is checked. */
  function ListUsers(config: Config.CloudConfig): (r: Status.CloudStatus)
    ensures r.IsOk() <==> !MissingUserToken(config)
    ensures MissingUserToken(config) ==> r == TokenMissing
  {
    Guarded(IfNoUserToken(config),
    Accepted)
  }

  /** `retrieveUser`: user ID, then email. */
  function RetrieveUser(config: Config.CloudConfig, userID: string, email: string): (r: Status.CloudStatus)
    ensures r.IsOk() <==> !MissingUserToken(config) && userID != "" && email != ""
    ensures MissingUserToken(config) ==> r == TokenMissing
    ensures !MissingUserToken(config) && userID == "" ==> r == EmptyError("userID")
    ensures !MissingUserToken(config) && userID != "" && email == "" ==> r == EmptyError("email")
  {
    Guarded(IfNoUserToken(config),
    Guarded(IfEmpty("userID", userID == ""),
    Guarded(IfEmpty("email", email == ""),
    Accepted)))
  }

  /** `updateUser`: user ID, then email. */
  function UpdateUser(config: Config.CloudConfig, userID: string, email: string): (r: Status.CloudStatus)
    ensures r.IsOk() <==> !MissingUserToken(config) && userID != "" && email != ""
    ensures MissingUserToken(config) ==> r == TokenMissing
    ensures !MissingUserToken(config) && userID == "" ==> r == EmptyError("userID")
    ensures !MissingUserToken(config) && userID != "" && email == "" ==> r == EmptyError("email")
  {
    Guarded(IfNoUserToken(config),
    Guarded(IfEmpty("userID", userID == ""),
    Guarded(IfEmpty("email", email == ""),
    Accepted)))
  }

  /** `removeUser`: user ID, then email. */
  function RemoveUser(config: Config.CloudConfig, userID: string, email: string): (r: Status.CloudStatus)
    ensures r.IsOk() <==> !MissingUserToken(config) && userID != "" && email != ""
    ensures MissingUserToken(config) ==> r == TokenMissing
    ensures !MissingUserToken(config) && userID == "" ==> r == EmptyError("userID")
    ensures !MissingUserToken(config) && userID != "" && email == "" ==> r == EmptyError("email")
  {
    Guarded(IfNoUserToken(config),
    Guarded(IfEmpty("userID", userID == ""),
    Guarded(IfEmpty("email", email == ""),
    Accepted)))
  }
}
