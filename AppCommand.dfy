/** The base of every `dfxcli` command (tool-dfxcli/src/DFXAppCommand.cpp):
    the stages a command runs through before its own work, each passing a
    failure on untouched, the cleanup callbacks that release the tokens the
    stages obtained, and the help text of the shared "get" sub-commands.

    What the client reports for a stage is a parameter; so are the device ID
    and token it stores into the configuration when it succeeds, and what its
    `logout` does to the device fields. */
module AppCommand {
  import Status
  import Config

  /** `DFXExitCode`. */
  datatype ExitCode = Success | Failure

  /** The two cleanup callbacks the stages register. */
  datatype CleanupOp =
    /** Registered by `registerDevice`: unregister unless the transport is REST. */
    | UnregisterDevice
    /** Registered by `login`: log out and forget the token, if there still is one. */
    | Logout

  /** A client call a cleanup callback makes. */
  datatype ClientCall = UnregisterCall | LogoutCall

  /** What running `ops` in order does: the client calls made, and the
      configuration left. */
  datatype CleanupOutcome = CleanupOutcome(calls: seq<ClientCall>, config: Config.CloudConfig)

  /** The logout callback once it has called the client: `logout` is the
      client's status, and `clearsDevice` says the client is the protobuf
      WebSocket one, whose successful `logout` also empties the device ID and
      device token (api-cpp-websocket/src/CloudWebSocket.cpp:470-473); the
      callback then forgets the user token whatever the status. */
  function LoggedOut(config: Config.CloudConfig, logout: Status.CloudStatus, clearsDevice: bool): Config.CloudConfig
  {
    var c := if logout.code == Status.Ok && clearsDevice then config.(deviceID := "", deviceToken := "") else config;
    c.(authToken := "")
  }

  /** Running the callbacks `ops`, first to last, against `config`; every
      logout call the client makes returns `logout`. */
  function RunAll(ops: seq<CleanupOp>, config: Config.CloudConfig, logout: Status.CloudStatus, clearsDevice: bool)
    : (r: CleanupOutcome)
    ensures Logout in ops ==> r.config.authToken == ""
    ensures Logout !in ops ==> r.config == config
    ensures LogoutCall in r.calls <==> Logout in ops && config.authToken != ""
    ensures r.config == config.(authToken := r.config.authToken, deviceID := r.config.deviceID,
                                deviceToken := r.config.deviceToken)
    ensures LogoutCall in r.calls && logout.code == Status.Ok && clearsDevice ==>
      r.config.deviceID == "" && r.config.deviceToken == ""
    ensures !(LogoutCall in r.calls && logout.code == Status.Ok && clearsDevice) ==>
      r.config.deviceID == config.deviceID && r.config.deviceToken == config.deviceToken
    ensures |r.calls| <= |ops|
    ensures UnregisterCall in r.calls <==> UnregisterDevice in ops && config.transportType != "REST"
  {
    if ops == [] then CleanupOutcome([], config)
    else
      var before := RunAll(ops[..|ops| - 1], config, logout, clearsDevice);
      var op := ops[|ops| - 1];
      assert ops == ops[..|ops| - 1] + [op];
      match op
      case UnregisterDevice =>
        if config.transportType != "REST" then CleanupOutcome(before.calls + [UnregisterCall], before.config)
        else before
      case Logout =>
        if before.config.authToken != "" then
          CleanupOutcome(before.calls + [LogoutCall], LoggedOut(before.config, logout, clearsDevice))
        else before
  }

  /** How many times `c` was called. */
  function Count(calls: seq<ClientCall>, c: ClientCall): nat
  {
    if calls == [] then 0
    else Count(calls[..|calls| - 1], c) + (if calls[|calls| - 1] == c then 1 else 0)
  }

  /** However many logout callbacks are registered, the client is logged
      out at most once, since the first one forgets the token. */
  lemma {:induction false} LogoutAtMostOnce(ops: seq<CleanupOp>, config: Config.CloudConfig,
                                            logout: Status.CloudStatus, clearsDevice: bool)
    ensures Count(RunAll(ops, config, logout, clearsDevice).calls, LogoutCall) <= 1
    ensures RunAll(ops, config, logout, clearsDevice).config.authToken == "" ==>
      Count(RunAll(ops, config, logout, clearsDevice).calls, LogoutCall) <= (if config.authToken == "" then 0 else 1)
    ensures RunAll(ops, config, logout, clearsDevice).config.authToken != "" ==>
      Count(RunAll(ops, config, logout, clearsDevice).calls, LogoutCall) == 0
  {
    if ops != [] {
      var front := ops[..|ops| - 1];
      LogoutAtMostOnce(front, config, logout, clearsDevice);
      var before := RunAll(front, config, logout, clearsDevice);
      var r := RunAll(ops, config, logout, clearsDevice);
      match ops[|ops| - 1]
      case UnregisterDevice =>
        if config.transportType != "REST" {
          assert r.calls == before.calls + [UnregisterCall] && r.config == before.config;
          assert r.calls[..|r.calls| - 1] == before.calls;
        } else {
          assert r == before;
        }
      case Logout =>
        if before.config.authToken != "" {
          assert r.calls == before.calls + [LogoutCall] && r.config.authToken == "";
          assert r.calls[..|r.calls| - 1] == before.calls;
        } else {
          assert r == before;
        }
    }
  }

  /** Over a REST transport the device is never unregistered. */
  lemma {:induction false} RestNeverUnregisters(ops: seq<CleanupOp>, config: Config.CloudConfig,
                                                logout: Status.CloudStatus, clearsDevice: bool)
    requires config.transportType == "REST"
    ensures UnregisterCall !in RunAll(ops, config, logout, clearsDevice).calls
  {
    if ops != [] {
      RestNeverUnregisters(ops[..|ops| - 1], config, logout, clearsDevice);
    }
  }

  /** `toupper` in the "C" locale. */
  function ToUpper(c: char): (r: char)
    ensures 'a' <= c <= 'z' ==> r as int == c as int - 32
    ensures !('a' <= c <= 'z') ==> r == c
  {
    if 'a' <= c <= 'z' then (c as int - 32) as char else c
  }

  /** The name `createGetCommand` shows in the IDs help: its first character
      upper-cased, the rest as given. */
  function Capitalized(name: string): (r: string)
    ensures |r| == |name|
    ensures name != "" ==> r[0] == ToUpper(name[0]) && r[1..] == name[1..]
    ensures name == "" ==> r == ""
  {
    if name == "" then "" else [ToUpper(name[0])] + name[1..]
  }

  /** Capitalising twice is capitalising once, and a name that already
      starts with an upper-case letter is left alone. */
  lemma CapitalizedIdempotent(name: string)
    ensures Capitalized(Capitalized(name)) == Capitalized(name)
    ensures name != "" && 'A' <= name[0] <= 'Z' ==> Capitalized(name) == name
  {
    if name != "" {
      assert Capitalized(name)[0] == ToUpper(name[0]);
      assert Capitalized(name) == [ToUpper(name[0])] + name[1..];
    }
  }

  /** The help texts of a "get" sub-command. */
  datatype GetCommandHelp = GetCommandHelp(description: string, offsetHelp: string, limitHelp: string, idsHelp: string)

  /** `createGetCommand`'s help texts: only the IDs argument, present when
      `includeIDs`, uses the capitalised name. */
  function CreateGetCommand(name: string, includeIDs: bool): (r: (GetCommandHelp, bool))
    ensures r.1 == includeIDs
    ensures r.0.description == "Display " + name + " information"
    ensures r.0.offsetHelp == "Offset to start retrieving " + name + "s"
    ensures r.0.limitHelp == "Limit on number of " + name + "s to retrieve"
    ensures r.0.idsHelp == Capitalized(name) + " IDs to retrieve"
  {
    (GetCommandHelp("Display " + name + " information",
                    "Offset to start retrieving " + name + "s",
                    "Limit on number of " + name + "s to retrieve",
                    Capitalized(name) + " IDs to retrieve"),
     includeIDs)
  }

  /** `connect`: a failure passes through; otherwise the client is created,
      and a status other than OK fails. */
  function Connect(code: ExitCode, created: Status.CloudStatus): (r: ExitCode)
    ensures code == Failure ==> r == Failure
    ensures code == Success ==> (r == Success <==> created.code == Status.Ok)
  {
    if code != Success then code
    else if created.code != Status.Ok then Failure
    else Success
  }

  /** `execute(code)`: the command's own work runs only after every stage
      succeeded. */
  function Execute(code: ExitCode, run: ExitCode): (r: ExitCode)
    ensures code == Failure ==> r == Failure
    ensures code == Success ==> r == run
  {
    if code != Success then code else run
  }

  /** `registerDevice` registers only without a device token and with a license. */
  predicate NeedsRegistration(config: Config.CloudConfig)
  {
    config.deviceToken == "" && config.license != ""
  }

  /** `login` logs in only without a user token. */
  predicate NeedsLogin(config: Config.CloudConfig)
  {
    config.authToken == ""
  }

  class App {
    var config: Config.CloudConfig
    /** The process-wide `callbacks` vector. */
    var callbacks: seq<CleanupOp>
    /** The client calls the cleanup callbacks have made, in order. */
    var calls: seq<ClientCall>

    constructor(config: Config.CloudConfig)
      ensures this.config == config && callbacks == [] && calls == []
    {
      this.config := config;
      callbacks := [];
      calls := [];
    }

    /** `addCleanupOperation`. */
    method AddCleanupOperation(op: CleanupOp)
      modifies this`callbacks
      ensures callbacks == old(callbacks) + [op]
    {
      callbacks := callbacks + [op];
    }

    /** `registerDevice`: a failure passes through; a device token already
        in the configuration, or no license, skips the registration;
        otherwise a registration that does not return OK fails, and one that
        does stores the device ID and token the client returned and registers
        the unregistration. */
    method RegisterDevice(code: ExitCode, registered: Status.CloudStatus, deviceID: string, deviceToken: string)
      returns (r: ExitCode)
      modifies this`config, this`callbacks
      ensures code == Failure ==> r == Failure && config == old(config) && callbacks == old(callbacks)
      ensures code == Success && (old(config).deviceToken != "" || old(config).license == "") ==>
        r == Success && config == old(config) && callbacks == old(callbacks)
      ensures code == Success && old(config).deviceToken == "" && old(config).license != "" ==>
        (r == Success <==> registered.code == Status.Ok)
      ensures r == Failure ==> config == old(config) && callbacks == old(callbacks)
      ensures code == Success && old(config).deviceToken == "" && old(config).license != "" && r == Success ==>
        config == old(config).(deviceID := deviceID, deviceToken := deviceToken)
        && callbacks == old(callbacks) + [UnregisterDevice]
    {
      if code != Success {
        return code;
      }
      if config.deviceToken == "" && config.license != "" {
        if registered.code != Status.Ok {
          return Failure;
        }
        config := config.(deviceID := deviceID, deviceToken := deviceToken);
        AddCleanupOperation(UnregisterDevice);
      }
      return Success;
    }

    /** `login`: a failure passes through; a user token already in the
        configuration skips the login; otherwise a login that does not
        return OK fails, and one that does stores the client's token and
        registers the logout. */
    method Login(code: ExitCode, loggedIn: Status.CloudStatus, authToken: string) returns (r: ExitCode)
      modifies this`config, this`callbacks
      ensures code == Failure ==> r == Failure && config == old(config) && callbacks == old(callbacks)
      ensures code == Success && old(config).authToken != "" ==>
        r == Success && config == old(config) && callbacks == old(callbacks)
      ensures code == Success && old(config).authToken == "" ==> (r == Success <==> loggedIn.code == Status.Ok)
      ensures r == Failure ==> config == old(config) && callbacks == old(callbacks)
      ensures code == Success && old(config).authToken == "" && r == Success ==>
        config == old(config).(authToken := authToken) && callbacks == old(callbacks) + [Logout]
    {
      if code != Success {
        return code;
      }
      if config.authToken == "" {
        if loggedIn.code != Status.Ok {
          return Failure;
        }
        config := config.(authToken := authToken);
        AddCleanupOperation(Logout);
      }
      return Success;
    }

    /** `setupAndExecute`: load the configuration, connect, register the
        device, log in and run the command, stopping at the first stage
        that fails. */
    method SetupAndExecute(loaded: ExitCode, created: Status.CloudStatus,
                           registered: Status.CloudStatus, deviceID: string, deviceToken: string,
                           loggedIn: Status.CloudStatus, authToken: string, run: ExitCode)
      returns (r: ExitCode)
      modifies this`config, this`callbacks
      ensures loaded == Failure || created.code != Status.Ok ==>
        r == Failure && config == old(config) && callbacks == old(callbacks)
      ensures var registers := loaded == Success && created.code == Status.Ok && NeedsRegistration(old(config));
        var registeredOk := loaded == Success && created.code == Status.Ok
                            && (!NeedsRegistration(old(config)) || registered.code == Status.Ok);
        var logsIn := registeredOk && NeedsLogin(old(config));
        var loggedInOk := registeredOk && (!NeedsLogin(old(config)) || loggedIn.code == Status.Ok);
        && (r == Success <==> loggedInOk && run == Success)
        && config == old(config).(deviceID := if registers && registeredOk then deviceID else old(config).deviceID,
                                  deviceToken := if registers && registeredOk then deviceToken else old(config).deviceToken,
                                  authToken := if logsIn && loggedInOk then authToken else old(config).authToken)
        && callbacks == old(callbacks) + (if registers && registeredOk then [UnregisterDevice] else [])
                                       + (if logsIn && loggedInOk then [Logout] else [])
    {
      var code := Connect(loaded, created);
      code := RegisterDevice(code, registered, deviceID, deviceToken);
      code := Login(code, loggedIn, authToken);
      r := Execute(code, run);
    }

    /** `runCleanupOperations`: every callback runs, in the order it was
        added, and then the list is cleared; a logout call returns `logout`,
        and `clearsDevice` says the client empties the device fields on a
        successful logout. */
    method RunCleanupOperations(logout: Status.CloudStatus, clearsDevice: bool)
      modifies this`config, this`callbacks, this`calls
      ensures callbacks == []
      ensures calls == old(calls) + RunAll(old(callbacks), old(config), logout, clearsDevice).calls
      ensures config == RunAll(old(callbacks), old(config), logout, clearsDevice).config
    {
      var i := 0;
      while i < |callbacks|
        invariant 0 <= i <= |callbacks| && callbacks == old(callbacks)
        invariant config == RunAll(callbacks[..i], old(config), logout, clearsDevice).config
        invariant calls == old(calls) + RunAll(callbacks[..i], old(config), logout, clearsDevice).calls
      {
        assert callbacks[..i + 1][..i] == callbacks[..i];
        match callbacks[i] {
          case UnregisterDevice =>
            if config.transportType != "REST" {
              calls := calls + [UnregisterCall];
            }
          case Logout =>
            if config.authToken != "" {
              calls := calls + [LogoutCall];
              if logout.code == Status.Ok && clearsDevice {
                config := config.(deviceID := "", deviceToken := "");
              }
              config := config.(authToken := "");
            }
        }
        i := i + 1;
      }
      assert callbacks[..i] == callbacks;
      callbacks := [];
    }

    /** `cleanup`: the callbacks run and the exit code is passed on. */
    method Cleanup(code: ExitCode, logout: Status.CloudStatus, clearsDevice: bool) returns (r: ExitCode)
      modifies this`config, this`callbacks, this`calls
      ensures r == code && callbacks == []
      ensures calls == old(calls) + RunAll(old(callbacks), old(config), logout, clearsDevice).calls
      ensures config == RunAll(old(callbacks), old(config), logout, clearsDevice).config
    {
      RunCleanupOperations(logout, clearsDevice);
      r := code;
    }
  }

  /** Cleaning up twice makes no further client call: the list is empty
      after the first run. */
  method CleanupRunsOnce(app: App, code: ExitCode, logout: Status.CloudStatus, clearsDevice: bool)
    returns (first: seq<ClientCall>, second: seq<ClientCall>)
    modifies app
    ensures second == first
  {
    var _ := app.Cleanup(code, logout, clearsDevice);
    first := app.calls;
    var _ := app.Cleanup(code, logout, clearsDevice);
    second := app.calls;
  }
}
