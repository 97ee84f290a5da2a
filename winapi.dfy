/**
 * The part of the operating system's service control manager, and of the
 * `windows_service` crate in front of it, that the lifecycle layer calls.
 *
 * The service registry is an abstract value: which services are registered,
 * with what configuration and in what run state. Failures that depend on the
 * environment (a caller without the rights for a call, a rejected parameter,
 * a broken RPC connection) are given by `faults`: a call listed there fails
 * with the recorded error and changes nothing. The one failure that follows
 * from the registry itself is opening a service that is not registered.
 */
module WinApi {
  import opened Wrappers

  /** Win32 system error codes that the model names. */
  const ERROR_ACCESS_DENIED := 5
  const ERROR_SERVICE_DOES_NOT_EXIST := 1060
  const ERROR_SERVICE_EXISTS := 1073

  /** A representative subset of `std::io::ErrorKind`. */
  datatype IoErrorKind = PermissionDenied | NotFound | AlreadyExists | Uncategorized | Other
  {
    /** The kind as `{:?}` prints it. */
    function DebugName(): string
    {
      match this
      case PermissionDenied => "PermissionDenied"
      case NotFound => "NotFound"
      case AlreadyExists => "AlreadyExists"
      case Uncategorized => "Uncategorized"
      case Other => "Other"
    }
  }

  /** A `std::io::Error`: its kind, its raw OS code if it has one, and its text as `{}` prints it. */
  datatype IoError = IoError(kind: IoErrorKind, rawOsError: Option<int>, message: string)

  /** An error built from a raw Win32 code, with the kind the standard library decodes for the codes named here. */
  function OsError(code: int, message: string): (e: IoError)
    ensures e.rawOsError == Some(code)
    ensures e.kind == PermissionDenied <==> code == ERROR_ACCESS_DENIED
  {
    IoError(if code == ERROR_ACCESS_DENIED then PermissionDenied else Uncategorized, Some(code), message)
  }

  /** `windows_service::Error`. The `detail` strings stand for the `{}` text of each wrapped parse error. */
  datatype Error =
    | InvalidAccountName(detail: string)
    | InvalidAccountPassword(detail: string)
    | InvalidDisplayName(detail: string)
    | InvalidDatabaseName(detail: string)
    | InvalidExecutablePath(detail: string)
    | InvalidLaunchArgument(index: nat, detail: string)
    | LaunchArgumentsNotSupported
    | InvalidDependency(detail: string)
    | InvalidMachineName(detail: string)
    | InvalidServiceName(detail: string)
    | InvalidStartArgument(detail: string)
    | InvalidServiceState(detail: string)
    | InvalidServiceStartType(detail: string)
    | InvalidServiceErrorControl(detail: string)
    | InvalidServiceActionType(detail: string)
    | InvalidServiceActionFailuresRebootMessage(detail: string)
    | InvalidServiceActionFailuresCommand(detail: string)
    | InvalidServiceDescription(detail: string)
    | Winapi(io: IoError)

  /** The run state the service control manager reports for a service. */
  datatype ServiceState = Stopped | StartPending | StopPending | Running | ContinuePending | PausePending | Paused

  datatype ServiceType = OwnProcess | ShareProcess
  datatype StartType = AutoStart | OnDemand | Disabled
  datatype ErrorControl = Ignore | Normal | Severe | Critical

  /** Access requested when connecting to the service control manager. */
  datatype ManagerAccess = ConnectAccess | CreateServiceAccess

  /** Access requested when opening a service. */
  datatype ServiceAccess = QueryStatusAccess | QueryConfigAccess | StartAccess | StopAccess | AllAccess

  /** What `create_service` is given. */
  datatype ServiceInfo = ServiceInfo(
    name: string,
    displayName: string,
    serviceType: ServiceType,
    startType: StartType,
    errorControl: ErrorControl,
    executablePath: string,
    launchArguments: seq<string>,
    dependencies: seq<string>,
    accountName: Option<string>,
    accountPassword: Option<string>)

  /**
   * A service's configuration as the manager keeps it and `query_config`
   * gives it back. `executablePath` is the whole launch command line: the
   * binary path and the launch arguments are not kept apart.
   */
  datatype ServiceConfig = ServiceConfig(
    displayName: string,
    executablePath: string,
    serviceType: ServiceType,
    startType: StartType,
    errorControl: ErrorControl,
    dependencies: seq<string>,
    accountName: Option<string>)

  datatype Registration = Registration(config: ServiceConfig, state: ServiceState)

  /** Characters after which a command-line word has to be quoted. */
  predicate NeedsQuotes(s: string)
  {
    s == [] || exists i :: 0 <= i < |s| && s[i] in {' ', '\t', '\n', '"'}
  }

  /** A word of a command line: quoted when it is empty or holds a blank or a quote. */
  function Escape(s: string): (w: string)
    ensures !NeedsQuotes(s) ==> w == s
    ensures |w| >= |s|
  {
    if NeedsQuotes(s) then "\"" + s + "\"" else s
  }

  /** The launch command line `create_service` builds: the escaped binary path, then each escaped argument after a space. */
  function LaunchCommand(path: string, args: seq<string>): string
  {
    if args == [] then Escape(path) else LaunchCommand(path, args[..|args| - 1]) + " " + Escape(args[|args| - 1])
  }

  /** What the manager records for a service created from `info`. */
  function ConfigOf(info: ServiceInfo): (c: ServiceConfig)
    ensures c.executablePath == LaunchCommand(info.executablePath, info.launchArguments)
    ensures c.displayName == info.displayName && c.dependencies == info.dependencies && c.accountName == info.accountName
  {
    ServiceConfig(info.displayName, LaunchCommand(info.executablePath, info.launchArguments), info.serviceType,
                  info.startType, info.errorControl, info.dependencies, info.accountName)
  }

  /** The calls into the service control manager, as keys of the fault table. */
  datatype ScmCall =
    | ConnectCall(managerAccess: ManagerAccess)
    | OpenCall(serviceAccess: ServiceAccess)
    | QueryStatusCall
    | QueryConfigCall
    | CreateCall
    | DeleteCall
    | StartCall
    | StopCall

  /**
   * The local computer's service registry. `replacesOnCreate` says what the
   * manager does when asked to create a service whose name is taken: replace
   * its configuration, keeping its run state, or refuse with
   * ERROR_SERVICE_EXISTS.
   */
  datatype Registry = Registry(services: map<string, Registration>, faults: map<ScmCall, Error>, replacesOnCreate: bool)
  {
    /** None of `calls` is made to fail by the environment. */
    predicate Answers(calls: set<ScmCall>)
    {
      calls !! faults.Keys
    }

    /** `ServiceManager::local_computer(None, access)`. */
    function Connect(access: ManagerAccess): (r: Result<(), Error>)
      ensures r.Ok? <==> Answers({ConnectCall(access)})
      ensures r.Err? ==> r.error == faults[ConnectCall(access)]
    {
      if ConnectCall(access) in faults then Err(faults[ConnectCall(access)]) else Ok(())
    }

    /** `open_service(name, access)`: a handle to a registered service. */
    function Open(name: string, access: ServiceAccess): (r: Result<(), Error>)
      ensures r.Ok? <==> Answers({OpenCall(access)}) && name in services
      ensures r.Err? && Answers({OpenCall(access)}) ==>
                r.error == Winapi(OsError(ERROR_SERVICE_DOES_NOT_EXIST, ServiceDoesNotExistText))
    {
      if OpenCall(access) in faults then Err(faults[OpenCall(access)])
      else if name !in services then Err(Winapi(OsError(ERROR_SERVICE_DOES_NOT_EXIST, ServiceDoesNotExistText)))
      else Ok(())
    }

    /** `query_status()` on an open handle. */
    function QueryStatus(name: string): (r: Result<ServiceState, Error>)
      requires name in services
      ensures Answers({QueryStatusCall}) ==> r == Ok(services[name].state)
    {
      if QueryStatusCall in faults then Err(faults[QueryStatusCall]) else Ok(services[name].state)
    }

    /** `query_config()` on an open handle. */
    function QueryConfig(name: string): (r: Result<ServiceConfig, Error>)
      requires name in services
      ensures r.Ok? <==> Answers({QueryConfigCall})
      ensures r.Ok? ==> r.value == services[name].config
    {
      if QueryConfigCall in faults then Err(faults[QueryConfigCall]) else Ok(services[name].config)
    }

    /**
     * `create_service(info, ..)`: the result and the registry afterwards. On
     * success the service is registered with the configuration made from
     * `info`; a new service is stopped and a replaced one keeps its state.
     */
    function Create(info: ServiceInfo): (r: (Result<(), Error>, Registry))
      ensures r.0.Err? ==> r.1 == this
      ensures r.0.Ok? <==> Answers({CreateCall}) && (info.name !in services || replacesOnCreate)
      ensures r.0.Ok? ==> r.1 == this.(services := services[info.name := Registration(ConfigOf(info),
                                         if info.name in services then services[info.name].state else Stopped)])
    {
      if CreateCall in faults then (Err(faults[CreateCall]), this)
      else if info.name in services && !replacesOnCreate then
        (Err(Winapi(OsError(ERROR_SERVICE_EXISTS, ServiceExistsText))), this)
      else
        var state := if info.name in services then services[info.name].state else Stopped;
        (Ok(()), this.(services := services[info.name := Registration(ConfigOf(info), state)]))
    }

    /** `delete()` on an open handle. */
    function Delete(name: string): (Result<(), Error>, Registry)
    {
      if DeleteCall in faults then (Err(faults[DeleteCall]), this)
      else (Ok(()), this.(services := services - {name}))
    }

    /** `start(&[])` on an open handle: a stopped service is asked to start; otherwise the request has no effect. */
    function Start(name: string): (Result<(), Error>, Registry)
      requires name in services
    {
      if StartCall in faults then (Err(faults[StartCall]), this)
      else (Ok(()), WithState(name, StartRequested(services[name].state)))
    }

    /** `stop()` on an open handle: a started service is asked to stop; otherwise the request has no effect. */
    function Stop(name: string): (Result<(), Error>, Registry)
      requires name in services
    {
      if StopCall in faults then (Err(faults[StopCall]), this)
      else (Ok(()), WithState(name, StopRequested(services[name].state)))
    }

    function WithState(name: string, state: ServiceState): (r: Registry)
      requires name in services
      ensures r.services.Keys == services.Keys && r.faults == faults && r.replacesOnCreate == replacesOnCreate
    {
      this.(services := services[name := services[name].(state := state)])
    }

    /** The manager, some time later, having finished every pending transition. */
    function Settled(): (r: Registry)
      ensures r.services.Keys == services.Keys && r.faults == faults && r.replacesOnCreate == replacesOnCreate
      ensures forall n :: n in r.services ==> r.services[n].state == Settle(services[n].state)
    {
      this.(services := map n | n in services :: services[n].(state := Settle(services[n].state)))
    }
  }

  /** The `{}` text of the two OS errors the manager raises by itself; opaque to the model. */
  const ServiceDoesNotExistText: string
  const ServiceExistsText: string

  /** The state a start request leads to: only a stopped service starts. */
  function StartRequested(s: ServiceState): (t: ServiceState)
    ensures t == s || (s == Stopped && t == StartPending)
  {
    if s == Stopped then StartPending else s
  }

  /** The state a stop request leads to: a service already stopped, stopping or still starting is left alone. */
  function StopRequested(s: ServiceState): (t: ServiceState)
    ensures t == s || t == StopPending
    ensures t == StopPending <==> s !in {Stopped, StartPending}
  {
    if s in {Stopped, StopPending, StartPending} then s else StopPending
  }

  /** The state a pending transition ends in. */
  function Settle(s: ServiceState): (t: ServiceState)
    ensures t !in {StartPending, StopPending, ContinuePending, PausePending}
  {
    match s
    case StartPending => Running
    case StopPending => Stopped
    case ContinuePending => Running
    case PausePending => Paused
    case _ => s
  }
}
