/** The two guards every request validator is built from, and how a validator
    chains them: the first guard that fails decides the status, and a request
    that passes them all is accepted. */
module ValidatorMacros {
  import opened Wrappers
  import Status
  import Config

  /** A request with a password but no user token has not logged in. */
  predicate MissingUserToken(config: Config.CloudConfig)
  {
    config.authPassword != "" && config.authToken == ""
  }

  const TokenMissing: Status.CloudStatus :=
    Status.WithMessage(Status.ConfigUserTokenMissing, "Require Config.m_sUserToken, have you logged in?")

  const Accepted: Status.CloudStatus := Status.Of(Status.Ok)

  /** The status naming the empty argument by the expression written in the call. */
  function EmptyError(expression: string): (r: Status.CloudStatus)
    ensures r.code == Status.ParameterValidationError && !r.IsOk()
    ensures r.message == expression + " is empty"
  {
    Status.WithMessage(Status.ParameterValidationError, expression + " is empty")
  }

  /** `MACRO_RETURN_ERROR_IF_NO_USER_TOKEN`: `Some` is the early return. */
  function IfNoUserToken(config: Config.CloudConfig): (r: Option<Status.CloudStatus>)
    ensures r.Some? <==> config.authPassword != "" && config.authToken == ""
    ensures r.Some? ==> r.value.code == Status.ConfigUserTokenMissing
    ensures config.authPassword == "" ==> r.None?
  {
    if MissingUserToken(config) then Some(TokenMissing) else None
  }

  /** `MACRO_RETURN_ERROR_IF_EMPTY(expression)` for a value whose emptiness is `isEmpty`. */
  function IfEmpty(expression: string, isEmpty: bool): (r: Option<Status.CloudStatus>)
    ensures r.Some? <==> isEmpty
    ensures r.Some? ==> r.value.code == Status.ParameterValidationError && r.value.message == expression + " is empty"
  {
    if isEmpty then Some(EmptyError(expression)) else None
  }

  /** A macro's early return: the guard's status when it fails, otherwise what
      the rest of the validator returns. */
  function Guarded(check: Option<Status.CloudStatus>, otherwise: Status.CloudStatus): (r: Status.CloudStatus)
    ensures check.Some? ==> r == check.value
    ensures check.None? ==> r == otherwise
  {
    match check
    case Some(status) => status
    case None => otherwise
  }
}
