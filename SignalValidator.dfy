/** Argument checks run before a signal request is sent. */
module SignalValidator {
  import Status
  import Config
  import opened ValidatorMacros
  import SignalTypes

  /** `list`: accepts every request, without even the token check. */
  function List(config: Config.CloudConfig): (r: Status.CloudStatus)
    ensures r.IsOk()
  {
    Accepted
  }

  /** `retrieve`: checks the ID of the output signal, not the `signalID` argument, and not the token. */
  function Retrieve(config: Config.CloudConfig, signalID: string, signal: SignalTypes.Signal): (r: Status.CloudStatus)
    ensures r.IsOk() <==> signal.id != ""
    ensures signal.id == "" ==> r == EmptyError("signal.id")
  {
    Guarded(IfEmpty("signal.id", signal.id == ""),
    Accepted)
  }

  /** `retrieveMultiple`: only the user token is checked, not that the list is non-empty. */
  function RetrieveMultiple(config: Config.CloudConfig, signalIDs: seq<string>): (r: Status.CloudStatus)
    ensures r.IsOk() <==> !MissingUserToken(config)
    ensures MissingUserToken(config) ==> r == TokenMissing
  {
    Guarded(IfNoUserToken(config),
    Accepted)
  }

  /** `retrieveStudySignalIDs`: the study ID is required. */
  function RetrieveStudySignalIDs(config: Config.CloudConfig, studyID: string): (r: Status.CloudStatus)
    ensures r.IsOk() <==> !MissingUserToken(config) && studyID != ""
    ensures MissingUserToken(config) ==> r == TokenMissing
    ensures !MissingUserToken(config) && studyID == "" ==> r == EmptyError("studyID")
  {
    Guarded(IfNoUserToken(config),
    Guarded(IfEmpty("studyID", studyID == ""),
    Accepted))
  }

  /** `retrieveSignalDetail`: the signal ID is required. */
  function RetrieveSignalDetail(config: Config.CloudConfig, signalID: string): (r: Status.CloudStatus)
    ensures r.IsOk() <==> !MissingUserToken(config) && signalID != ""
    ensures MissingUserToken(config) ==> r == TokenMissing
    ensures !MissingUserToken(config) && signalID == "" ==> r == EmptyError("signalID")
  {
    Guarded(IfNoUserToken(config),
    Guarded(IfEmpty("signalID", signalID == ""),
    Accepted))
  }

  /** `retrieveSignalDetails`: the list of IDs must not be empty. */
  function RetrieveSignalDetails(config: Config.CloudConfig, signalIDs: seq<string>): (r: Status.CloudStatus)
    ensures r.IsOk() <==> !MissingUserToken(config) && |signalIDs| > 0
    ensures MissingUserToken(config) ==> r == TokenMissing
    ensures !MissingUserToken(config) && |signalIDs| == 0 ==> r == EmptyError("signalIDs")
  {
    Guarded(IfNoUserToken(config),
    Guarded(IfEmpty("signalIDs", |signalIDs| == 0),
    Accepted))
  }
}
