/** Argument checks run before a user request is sent. */
module UserValidator {
  import Status
  import Config
  import opened ValidatorMacros

  /** `create`: email, first name, password and role are required; the last name, phone, gender and birth date are not. */
  function Create(config: Config.CloudConfig, email: string, password: string, role: string, firstName: string, lastName: string): (r: Status.CloudStatus)
    ensures r.IsOk() <==> !MissingUserToken(config) && email != "" && firstName != "" && password != "" && role != ""
    ensures MissingUserToken(config) ==> r == TokenMissing
    ensures !MissingUserToken(config) && email == "" ==> r == EmptyError("email")
    ensures !MissingUserToken(config) && email != "" && firstName == "" ==> r == EmptyError("firstName")
    ensures !MissingUserToken(config) && email != "" && firstName != "" && password == "" ==> r == EmptyError("password")
    ensures !MissingUserToken(config) && email != "" && firstName != "" && password != "" && role == "" ==> r == EmptyError("role")
  {
    Guarded(IfNoUserToken(config),
    Guarded(IfEmpty("email", email == ""),
    Guarded(IfEmpty("firstName", firstName == ""),
    Guarded(IfEmpty("password", password == ""),
    Guarded(IfEmpty("role", role == ""),
    Accepted)))))
  }

  /** `list`: only the user token is checked. */
  function List(config: Config.CloudConfig): (r: Status.CloudStatus)
    ensures r.IsOk() <==> !MissingUserToken(config)
    ensures MissingUserToken(config) ==> r == TokenMissing
  {
    Guarded(IfNoUserToken(config),
    Accepted)
  }

  /** `retrieve`: only the user token is checked. */
  function Retrieve(config: Config.CloudConfig): (r: Status.CloudStatus)
    ensures r.IsOk() <==> !MissingUserToken(config)
    ensures MissingUserToken(config) ==> r == TokenMissing
  {
    Guarded(IfNoUserToken(config),
    Accepted)
  }

  /** `update`: only the user token is checked. */
  function Update(config: Config.CloudConfig): (r: Status.CloudStatus)
    ensures r.IsOk() <==> !MissingUserToken(config)
    ensures MissingUserToken(config) ==> r == TokenMissing
  {
    Guarded(IfNoUserToken(config),
    Accepted)
  }

  /** `reqLoginCode`: organisation key, then phone number. */
  function ReqLoginCode(config: Config.CloudConfig, orgKey: string, phoneNumber: string): (r: Status.CloudStatus)
    ensures r.IsOk() <==> !MissingUserToken(config) && orgKey != "" && phoneNumber != ""
    ensures MissingUserToken(config) ==> r == TokenMissing
    ensures !MissingUserToken(config) && orgKey == "" ==> r == EmptyError("sOrgKey")
    ensures !MissingUserToken(config) && orgKey != "" && phoneNumber == "" ==> r == EmptyError("sPhoNum")
  {
    Guarded(IfNoUserToken(config),
    Guarded(IfEmpty("sOrgKey", orgKey == ""),
    Guarded(IfEmpty("sPhoNum", phoneNumber == ""),
    Accepted)))
  }

  /** `loginWithPhoneCode`: organisation key, phone number, then code. */
  function LoginWithPhoneCode(config: Config.CloudConfig, orgKey: string, phoneNumber: string, code: string): (r: Status.CloudStatus)
    ensures r.IsOk() <==> !MissingUserToken(config) && orgKey != "" && phoneNumber != "" && code != ""
    ensures MissingUserToken(config) ==> r == TokenMissing
    ensures !MissingUserToken(config) && orgKey == "" ==> r == EmptyError("sOrgKey")
    ensures !MissingUserToken(config) && orgKey != "" && phoneNumber == "" ==> r == EmptyError("sPhoNum")
    ensures !MissingUserToken(config) && orgKey != "" && phoneNumber != "" && code == "" ==> r == EmptyError("sPhoCode")
  {
    Guarded(IfNoUserToken(config),
    Guarded(IfEmpty("sOrgKey", orgKey == ""),
    Guarded(IfEmpty("sPhoNum", phoneNumber == ""),
    Guarded(IfEmpty("sPhoCode", code == ""),
    Accepted))))
  }

  /** `retrieveUserRole`: only the user token is checked. */
  function RetrieveUserRole(config: Config.CloudConfig): (r: Status.CloudStatus)
    ensures r.IsOk() <==> !MissingUserToken(config)
    ensures MissingUserToken(config) ==> r == TokenMissing
  {
    Guarded(IfNoUserToken(config),
    Accepted)
  }

  /** `sendPasswordReset`: the identifier is required. */
  function SendPasswordReset(config: Config.CloudConfig, identifier: string): (r: Status.CloudStatus)
    ensures r.IsOk() <==> !MissingUserToken(config) && identifier != ""
    ensures MissingUserToken(config) ==> r == TokenMissing
    ensures !MissingUserToken(config) && identifier == "" ==> r == EmptyError("sIdentifier")
  {
    Guarded(IfNoUserToken(config),
    Guarded(IfEmpty("sIdentifier", identifier == ""),
    Accepted))
  }

  /** `resetPassword`: the password, then the reset token. */
  function ResetPassword(config: Config.CloudConfig, password: string, resetToken: string): (r: Status.CloudStatus)
    ensures r.IsOk() <==> !MissingUserToken(config) && password != "" && resetToken != ""
    ensures MissingUserToken(config) ==> r == TokenMissing
    ensures !MissingUserToken(config) && password == "" ==> r == EmptyError("sPassword")
    ensures !MissingUserToken(config) && password != "" && resetToken == "" ==> r == EmptyError("sResetToken")
  {
    Guarded(IfNoUserToken(config),
    Guarded(IfEmpty("sPassword", password == ""),
    Guarded(IfEmpty("sResetToken", resetToken == ""),
    Accepted)))
  }

  /** `sendVerificationCode`: user ID, then organisation key. */
  function SendVerificationCode(config: Config.CloudConfig, userID: string, orgKey: string): (r: Status.CloudStatus)
    ensures r.IsOk() <==> !MissingUserToken(config) && userID != "" && orgKey != ""
    ensures MissingUserToken(config) ==> r == TokenMissing
    ensures !MissingUserToken(config) && userID == "" ==> r == EmptyError("sUserID")
    ensures !MissingUserToken(config) && userID != "" && orgKey == "" ==> r == EmptyError("sOrgKey")
  {
    Guarded(IfNoUserToken(config),
    Guarded(IfEmpty("sUserID", userID == ""),
    Guarded(IfEmpty("sOrgKey", orgKey == ""),
    Accepted)))
  }

  /** `verifyAccount`: user ID, then verification code. */
  function VerifyAccount(config: Config.CloudConfig, userID: string, verificationCode: string): (r: Status.CloudStatus)
    ensures r.IsOk() <==> !MissingUserToken(config) && userID != "" && verificationCode != ""
    ensures MissingUserToken(config) ==> r == TokenMissing
    ensures !MissingUserToken(config) && userID == "" ==> r == EmptyError("sUserID")
    ensures !MissingUserToken(config) && userID != "" && verificationCode == "" ==> r == EmptyError("sVerCode")
  {
    Guarded(IfNoUserToken(config),
    Guarded(IfEmpty("sUserID", userID == ""),
    Guarded(IfEmpty("sVerCode", verificationCode == ""),
    Accepted)))
  }
}
