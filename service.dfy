/**
 * The service-lifecycle layer: the error taxonomy surfaced to callers, the
 * mapping of every library error into it, and `SystemService`, which queries,
 * installs, removes, starts and stops one named service in the registry.
 */
module Service {
  import opened Wrappers
  import WinApi

  /** The only errors that leave the lifecycle layer. */
  datatype ServiceError =
    | AccessDenied
    | InvalidServiceName
    | InstallationFailed(detail: string)
    | ServiceNotInstalled
    | ServiceRunning
    | UnknownError(detail: string)
  {
    /** The text each error displays as. */
    function Message(): string
    {
      match this
      case AccessDenied => "access to service manager was denied"
      case InvalidServiceName => "invalid service name"
      case InstallationFailed(d) => InstallationFailedPrefix + d
      case ServiceNotInstalled => "service is not installed"
      case ServiceRunning => "service is running"
      case UnknownError(d) => UnknownErrorPrefix + d
    }
  }

  const InstallationFailedPrefix := "failed to install service: "
  const UnknownErrorPrefix := "unknown error: "

  /** Library errors raised for a service configuration the manager cannot install. */
  predicate IsConfigurationError(e: WinApi.Error)
  {
    || e.InvalidAccountName? || e.InvalidAccountPassword? || e.InvalidDisplayName?
    || e.InvalidDatabaseName? || e.InvalidExecutablePath? || e.InvalidLaunchArgument?
    || e.LaunchArgumentsNotSupported? || e.InvalidDependency? || e.InvalidServiceDescription?
  }

  /** Library errors about parameters this layer never passes, which it reports as unknown. */
  predicate IsUnexpectedParameterError(e: WinApi.Error)
  {
    || e.InvalidMachineName? || e.InvalidStartArgument? || e.InvalidServiceState?
    || e.InvalidServiceStartType? || e.InvalidServiceErrorControl? || e.InvalidServiceActionType?
    || e.InvalidServiceActionFailuresRebootMessage? || e.InvalidServiceActionFailuresCommand?
  }

  /** An OS error the manager raised because the caller lacks the rights for the call. */
  predicate IsPermissionDenied(e: WinApi.Error)
  {
    e.Winapi? && e.io.kind == WinApi.PermissionDenied
  }

  /** An OS error carrying ERROR_SERVICE_DOES_NOT_EXIST. */
  predicate IsServiceMissing(e: WinApi.Error)
  {
    e.Winapi? && e.io.rawOsError == Some(WinApi.ERROR_SERVICE_DOES_NOT_EXIST)
  }

  /**
   * `From<windows_service::Error> for ServiceError`: every library error
   * becomes exactly one kind, and for OS errors a permission failure outranks
   * the "does not exist" code.
   */
  function FromLibraryError(e: WinApi.Error): (r: ServiceError)
    ensures r.InstallationFailed? <==> IsConfigurationError(e)
    ensures r == InvalidServiceName <==> e.InvalidServiceName?
    ensures r == AccessDenied <==> IsPermissionDenied(e)
    ensures r == ServiceNotInstalled <==> !IsPermissionDenied(e) && IsServiceMissing(e)
    ensures r.UnknownError? <==>
              IsUnexpectedParameterError(e) || (e.Winapi? && !IsPermissionDenied(e) && !IsServiceMissing(e))
    ensures r != ServiceRunning
    ensures r.InstallationFailed? ==>
              r.detail == if e.LaunchArgumentsNotSupported? then "launch arguments not supported" else e.detail
    ensures r.UnknownError? && !e.Winapi? ==> r.detail == e.detail
    ensures r.UnknownError? && e.Winapi? ==> r.detail == "Kind=" + e.io.kind.DebugName() + ", " + e.io.message
  {
    match e
    case InvalidAccountName(d) => InstallationFailed(d)
    case InvalidAccountPassword(d) => InstallationFailed(d)
    case InvalidDisplayName(d) => InstallationFailed(d)
    case InvalidDatabaseName(d) => InstallationFailed(d)
    case InvalidExecutablePath(d) => InstallationFailed(d)
    case InvalidLaunchArgument(_, d) => InstallationFailed(d)
    case LaunchArgumentsNotSupported => InstallationFailed("launch arguments not supported")
    case InvalidDependency(d) => InstallationFailed(d)
    case InvalidMachineName(d) => UnknownError(d)
    case InvalidServiceName(_) => InvalidServiceName
    case InvalidStartArgument(d) => UnknownError(d)
    case InvalidServiceState(d) => UnknownError(d)
    case InvalidServiceStartType(d) => UnknownError(d)
    case InvalidServiceErrorControl(d) => UnknownError(d)
    case InvalidServiceActionType(d) => UnknownError(d)
    case InvalidServiceActionFailuresRebootMessage(d) => UnknownError(d)
    case InvalidServiceActionFailuresCommand(d) => UnknownError(d)
    case InvalidServiceDescription(d) => InstallationFailed(d)
    case Winapi(io) =>
      if io.kind == WinApi.PermissionDenied then AccessDenied
      else if io.rawOsError == Some(WinApi.ERROR_SERVICE_DOES_NOT_EXIST) then ServiceNotInstalled
      else UnknownError("Kind=" + io.kind.DebugName() + ", " + io.message)
  }

  /**
   * Distinct errors display differently, so the message that `status()` wraps
   * into InstallationFailed still identifies the error it came from.
   */
  lemma {:induction false} MessageIdentifiesError(a: ServiceError, b: ServiceError)
    requires a.Message() == b.Message()
    ensures a == b
  {
    var m := a.Message();
    match a
    case InstallationFailed(d) =>
      assert m[..|InstallationFailedPrefix|] == InstallationFailedPrefix;
      assert m[0] == 'f';
      assert b.InstallationFailed? by { RuledOutByFirstChars(b, m); }
      assert d == m[|InstallationFailedPrefix|..] == b.detail;
    case UnknownError(d) =>
      assert m[..|UnknownErrorPrefix|] == UnknownErrorPrefix;
      assert m[0] == 'u';
      assert b.UnknownError? by { RuledOutByFirstChars(b, m); }
      assert d == m[|UnknownErrorPrefix|..] == b.detail;
    case _ =>
      assert m[0] in "ais";
      RuledOutByFirstChars(b, m);
  }

  /** What the first characters of a message say about the error it displays. */
  lemma RuledOutByFirstChars(e: ServiceError, m: string)
    requires e.Message() == m
    ensures m[0] == 'f' <==> e.InstallationFailed?
    ensures m[0] == 'u' <==> e.UnknownError?
    ensures m[0] == 'a' <==> e.AccessDenied?
    ensures m[0] == 'i' <==> e.InvalidServiceName?
    ensures m[0] == 's' <==> e.ServiceNotInstalled? || e.ServiceRunning?
    ensures m[0] == 's' ==> (m[11] == 'n' <==> e.ServiceNotInstalled?)
  {
  }

  /** What `status()` reports: the registry's run state, coarsened. */
  datatype ServiceStatus = Uninstalled | Stopped | Running

  /** A service's display name, binary and launch arguments. */
  datatype ServiceDescription = ServiceDescription(friendlyName: string, binaryPath: string, args: seq<string>)

  /** The calls each operation makes, in order: when none of them is made to fail, the operation's outcome follows from the registry alone. */
  const StatusCalls: set<WinApi.ScmCall> :=
    {WinApi.ConnectCall(WinApi.ConnectAccess), WinApi.OpenCall(WinApi.QueryStatusAccess), WinApi.QueryStatusCall}
  const DescriptionCalls: set<WinApi.ScmCall> :=
    {WinApi.ConnectCall(WinApi.ConnectAccess), WinApi.OpenCall(WinApi.QueryConfigAccess), WinApi.QueryConfigCall}
  const InstallCalls: set<WinApi.ScmCall> :=
    {WinApi.ConnectCall(WinApi.CreateServiceAccess), WinApi.CreateCall} + DescriptionCalls
  const UninstallCalls: set<WinApi.ScmCall> :=
    StatusCalls + {WinApi.OpenCall(WinApi.AllAccess), WinApi.DeleteCall}
  const StartCalls: set<WinApi.ScmCall> :=
    {WinApi.ConnectCall(WinApi.ConnectAccess), WinApi.OpenCall(WinApi.StartAccess), WinApi.StartCall}
  const StopCalls: set<WinApi.ScmCall> :=
    {WinApi.ConnectCall(WinApi.ConnectAccess), WinApi.OpenCall(WinApi.StopAccess), WinApi.StopCall}

  /** What `install` asks the manager to create: its own process, started automatically, normal error control, no dependencies, no account. */
  function InstallInfo(name: string, description: ServiceDescription): (info: WinApi.ServiceInfo)
    ensures info.name == name && info.displayName == description.friendlyName
    ensures info.executablePath == description.binaryPath && info.launchArguments == description.args
    ensures info.serviceType == WinApi.OwnProcess && info.startType == WinApi.AutoStart && info.errorControl == WinApi.Normal
    ensures info.dependencies == [] && info.accountName == None && info.accountPassword == None
  {
    WinApi.ServiceInfo(name, description.friendlyName, WinApi.OwnProcess, WinApi.AutoStart, WinApi.Normal,
                       description.binaryPath, description.args, [], None, None)
  }

  /**
   * The registering half of `install`: connect with the right to create
   * services, then `create_service`. The result and the registry afterwards.
   * Only success changes the registry, and then only this service's entry,
   * to the configuration `install` promises. When the manager answers, it
   * succeeds exactly when the name is free or the manager replaces existing
   * services; otherwise the "already exists" error is reported as unknown.
   */
  function Register(registry: WinApi.Registry, name: string, description: ServiceDescription)
    : (r: (Result<(), ServiceError>, WinApi.Registry))
    ensures r.0.Err? ==> r.1 == registry
    ensures r.0.Ok? ==> r.1 == registry.(services := registry.services[name := WinApi.Registration(
              WinApi.ServiceConfig(description.friendlyName, WinApi.LaunchCommand(description.binaryPath, description.args),
                                   WinApi.OwnProcess, WinApi.AutoStart, WinApi.Normal, [], None),
              if name in registry.services then registry.services[name].state else WinApi.Stopped)])
    ensures registry.Answers({WinApi.ConnectCall(WinApi.CreateServiceAccess), WinApi.CreateCall}) ==>
              (r.0.Ok? <==> name !in registry.services || registry.replacesOnCreate)
    ensures registry.Answers({WinApi.ConnectCall(WinApi.CreateServiceAccess), WinApi.CreateCall}) &&
            name in registry.services && !registry.replacesOnCreate ==>
              r.0 == Err(FromLibraryError(WinApi.Winapi(WinApi.OsError(WinApi.ERROR_SERVICE_EXISTS, WinApi.ServiceExistsText)))) &&
              r.0.error.UnknownError?
    ensures registry.Connect(WinApi.CreateServiceAccess).Err? ==>
              r.0 == Err(FromLibraryError(registry.Connect(WinApi.CreateServiceAccess).error))
    ensures registry.Answers({WinApi.ConnectCall(WinApi.CreateServiceAccess)}) && WinApi.CreateCall in registry.faults ==>
              r.0 == Err(FromLibraryError(registry.faults[WinApi.CreateCall]))
  {
    match registry.Connect(WinApi.CreateServiceAccess)
    case Err(e) => (Err(FromLibraryError(e)), registry)
    case Ok(_) =>
      var (created, after) := registry.Create(InstallInfo(name, description));
      if created.Err? then (Err(FromLibraryError(created.error)), after) else (Ok(()), after)
  }

  /**
   * The result of `start()` or `stop()`: connect, open the service with
   * `access`, then make the request `call`; the first failure is mapped and
   * returned. When the manager answers, it succeeds exactly when the service
   * is registered and otherwise fails with ServiceNotInstalled.
   */
  function RequestResult(registry: WinApi.Registry, name: string, access: WinApi.ServiceAccess, call: WinApi.ScmCall)
    : (r: Result<(), ServiceError>)
    ensures r.Ok? ==> name in registry.services
    ensures registry.Answers({WinApi.ConnectCall(WinApi.ConnectAccess), WinApi.OpenCall(access), call}) ==>
              (r.Ok? <==> name in registry.services) && (name !in registry.services ==> r == Err(ServiceNotInstalled))
    ensures registry.Connect(WinApi.ConnectAccess).Err? ==>
              r == Err(FromLibraryError(registry.Connect(WinApi.ConnectAccess).error))
    ensures registry.Connect(WinApi.ConnectAccess).Ok? && registry.Open(name, access).Err? ==>
              r == Err(FromLibraryError(registry.Open(name, access).error))
    ensures registry.Answers({WinApi.ConnectCall(WinApi.ConnectAccess), WinApi.OpenCall(access)}) &&
            name in registry.services && call in registry.faults ==>
              r == Err(FromLibraryError(registry.faults[call]))
    ensures r.Err? ==> r.error != ServiceRunning
  {
    match registry.Connect(WinApi.ConnectAccess)
    case Err(e) => Err(FromLibraryError(e))
    case Ok(_) =>
      match registry.Open(name, access)
      case Err(e) => Err(FromLibraryError(e))
      case Ok(_) => if call in registry.faults then Err(FromLibraryError(registry.faults[call])) else Ok(())
  }

  /**
   * The command line the manager reports as the executable path begins with
   * the escaped binary path it was given, whatever the launch arguments.
   */
  lemma {:induction false} LaunchCommandStartsWithPath(path: string, args: seq<string>)
    ensures |WinApi.Escape(path)| <= |WinApi.LaunchCommand(path, args)|
    ensures WinApi.LaunchCommand(path, args)[..|WinApi.Escape(path)|] == WinApi.Escape(path)
    ensures args != [] ==> |WinApi.LaunchCommand(path, args)| > |WinApi.Escape(path)|
  {
    if args != [] {
      var prefix := WinApi.LaunchCommand(path, args[..|args| - 1]);
      LaunchCommandStartsWithPath(path, args[..|args| - 1]);
      assert WinApi.LaunchCommand(path, args) == prefix + " " + WinApi.Escape(args[|args| - 1]);
      assert (prefix + " " + WinApi.Escape(args[|args| - 1]))[..|WinApi.Escape(path)|] == prefix[..|WinApi.Escape(path)|];
    }
  }

  /** A service installed without launch arguments, from a path needing no quotes, reports back exactly the path it was given. */
  lemma PlainPathRoundTrip(path: string)
    requires !WinApi.NeedsQuotes(path)
    ensures WinApi.LaunchCommand(path, []) == path
  {
  }

  /** Manages the service called `name` in the local computer's registry. */
  class SystemService {
    const name: string
    var registry: WinApi.Registry

    constructor (name: string, registry: WinApi.Registry)
      ensures this.name == name && this.registry == registry
    {
      this.name := name;
      this.registry := registry;
    }

    /**
     * `status()`. When the manager answers, the result is Uninstalled exactly
     * when no service is registered, Stopped exactly when the registered one is
     * stopped, and Running for every other state, pending ones included. An
     * open failure that is not "not installed" comes back as InstallationFailed
     * carrying the mapped error's message.
     */
    function Status(): (r: Result<ServiceStatus, ServiceError>)
      reads this
      ensures registry.Answers(StatusCalls) ==> r.Ok?
      ensures registry.Answers(StatusCalls) ==> (r == Ok(Uninstalled) <==> name !in registry.services)
      ensures registry.Answers(StatusCalls) ==>
                (r == Ok(Stopped) <==> name in registry.services && registry.services[name].state == WinApi.Stopped)
      ensures registry.Answers(StatusCalls) ==>
                (r == Ok(Running) <==> name in registry.services && registry.services[name].state != WinApi.Stopped)
      ensures r == Ok(Uninstalled) ==> name !in registry.services || !registry.Answers(StatusCalls)
      ensures registry.Connect(WinApi.ConnectAccess).Err? ==>
                r == Err(FromLibraryError(registry.Connect(WinApi.ConnectAccess).error))
      ensures registry.Connect(WinApi.ConnectAccess).Ok? && registry.Open(name, WinApi.QueryStatusAccess).Err? ==>
                var openFailure := FromLibraryError(registry.Open(name, WinApi.QueryStatusAccess).error);
                r == if openFailure == ServiceNotInstalled then Ok(Uninstalled) else Err(InstallationFailed(openFailure.Message()))
      ensures registry.Answers({WinApi.ConnectCall(WinApi.ConnectAccess), WinApi.OpenCall(WinApi.QueryStatusAccess)}) &&
              name in registry.services && WinApi.QueryStatusCall in registry.faults ==>
                r == Err(FromLibraryError(registry.faults[WinApi.QueryStatusCall]))
      ensures r.Err? ==> r.error != ServiceRunning
    {
      match registry.Connect(WinApi.ConnectAccess)
      case Err(e) => Err(FromLibraryError(e))
      case Ok(_) =>
        match registry.Open(name, WinApi.QueryStatusAccess)
        case Err(e) =>
          var openFailure := FromLibraryError(e);
          if openFailure == ServiceNotInstalled then Ok(Uninstalled) else Err(InstallationFailed(openFailure.Message()))
        case Ok(_) =>
          match registry.QueryStatus(name)
          case Err(e) => Err(FromLibraryError(e))
          case Ok(state) => Ok(if state == WinApi.Stopped then Stopped else Running)
    }

    /**
     * `description()`: the registered display name and the command line the
     * manager reports as the executable path, with no launch arguments, since
     * the manager does not report them apart; fails with ServiceNotInstalled
     * when the service is not registered.
     */
    function Description(): (r: Result<ServiceDescription, ServiceError>)
      reads this
      ensures r.Ok? ==> name in registry.services
      ensures r.Ok? ==> r.value == ServiceDescription(registry.services[name].config.displayName,
                                                     registry.services[name].config.executablePath, [])
      ensures registry.Answers(DescriptionCalls) ==> (r.Ok? <==> name in registry.services)
      ensures registry.Answers(DescriptionCalls) && name !in registry.services ==> r == Err(ServiceNotInstalled)
    {
      match registry.Connect(WinApi.ConnectAccess)
      case Err(e) => Err(FromLibraryError(e))
      case Ok(_) =>
        match registry.Open(name, WinApi.QueryConfigAccess)
        case Err(e) => Err(FromLibraryError(e))
        case Ok(_) =>
          match registry.QueryConfig(name)
          case Err(e) => Err(FromLibraryError(e))
          case Ok(config) => Ok(ServiceDescription(config.displayName, config.executablePath, []))
    }

    /**
     * `install(description)`: registers the service (see `Register`), then
     * returns `description()`. A failure to register leaves the registry as it
     * was; once registered, the service stays registered even when the
     * following `description()` fails.
     */
    method Install(description: ServiceDescription) returns (r: Result<ServiceDescription, ServiceError>)
      modifies this
      ensures registry == Register(old(registry), name, description).1
      ensures r == if Register(old(registry), name, description).0.Err? then Err(Register(old(registry), name, description).0.error)
                   else Description()
      ensures r.Ok? ==> r.value == ServiceDescription(description.friendlyName,
                                                     WinApi.LaunchCommand(description.binaryPath, description.args), [])
      ensures old(registry).Answers(InstallCalls) ==> (r.Ok? <==> name !in old(registry.services) || old(registry.replacesOnCreate))
    {
      var connected := registry.Connect(WinApi.CreateServiceAccess);
      if connected.Err? {
        return Err(FromLibraryError(connected.error));
      }
      var (created, after) := registry.Create(InstallInfo(name, description));
      registry := after;
      if created.Err? {
        return Err(FromLibraryError(created.error));
      }
      r := Description();
    }

    /**
     * `uninstall()`: a failing `status()` is passed on and a Running service is
     * refused with ServiceRunning, both leaving the registry as it was;
     * otherwise connect, open and delete go as `RequestResult` with full
     * access and the delete call, and the registration is deleted on success. Success means exactly that this
     * service's registration is gone.
     */
    method Uninstall() returns (r: Result<(), ServiceError>)
      modifies this
      ensures registry == if r.Ok? then old(registry).(services := old(registry.services) - {name}) else old(registry)
      ensures r.Ok? ==> name in old(registry.services) && old(Status()) in {Ok(Stopped), Ok(Uninstalled)}
      ensures old(Status()).Err? ==> r == Err(old(Status()).error)
      ensures old(Status()) == Ok(Running) ==> r == Err(ServiceRunning)
      ensures old(Status()).Ok? && old(Status()) != Ok(Running) ==>
                r == RequestResult(old(registry), name, WinApi.AllAccess, WinApi.DeleteCall)
      ensures old(registry).Answers(UninstallCalls) ==> (r.Ok? <==> old(Status()) == Ok(Stopped))
      ensures old(registry).Answers(UninstallCalls) && old(Status()) == Ok(Uninstalled) ==> r == Err(ServiceNotInstalled)
    {
      var status := Status();
      if status.Err? {
        return Err(status.error);
      }
      if status.value == Running {
        return Err(ServiceRunning);
      }
      var connected := registry.Connect(WinApi.ConnectAccess);
      if connected.Err? {
        return Err(FromLibraryError(connected.error));
      }
      var handle := registry.Open(name, WinApi.AllAccess);
      if handle.Err? {
        return Err(FromLibraryError(handle.error));
      }
      var (deleted, after) := registry.Delete(name);
      registry := after;
      if deleted.Err? {
        return Err(FromLibraryError(deleted.error));
      }
      r := Ok(());
    }

    /**
     * `start()`: only asks the manager to start the service. A stopped service
     * becomes StartPending; in any other state the request changes nothing.
     */
    method Start() returns (r: Result<(), ServiceError>)
      modifies this
      ensures r == RequestResult(old(registry), name, WinApi.StartAccess, WinApi.StartCall)
      ensures registry == if r.Ok? then old(registry).WithState(name, WinApi.StartRequested(old(registry.services[name].state)))
                          else old(registry)
    {
      var connected := registry.Connect(WinApi.ConnectAccess);
      if connected.Err? {
        return Err(FromLibraryError(connected.error));
      }
      var handle := registry.Open(name, WinApi.StartAccess);
      if handle.Err? {
        return Err(FromLibraryError(handle.error));
      }
      var (started, after) := registry.Start(name);
      registry := after;
      if started.Err? {
        return Err(FromLibraryError(started.error));
      }
      r := Ok(());
    }

    /**
     * `stop()`: only asks the manager to stop the service. A started service
     * becomes StopPending; one that is stopped, stopping or still starting is
     * left as it is.
     */
    method Stop() returns (r: Result<(), ServiceError>)
      modifies this
      ensures r == RequestResult(old(registry), name, WinApi.StopAccess, WinApi.StopCall)
      ensures registry == if r.Ok? then old(registry).WithState(name, WinApi.StopRequested(old(registry.services[name].state)))
                          else old(registry)
    {
      var connected := registry.Connect(WinApi.ConnectAccess);
      if connected.Err? {
        return Err(FromLibraryError(connected.error));
      }
      var handle := registry.Open(name, WinApi.StopAccess);
      if handle.Err? {
        return Err(FromLibraryError(handle.error));
      }
      var (stopped, after) := registry.Stop(name);
      registry := after;
      if stopped.Err? {
        return Err(FromLibraryError(stopped.error));
      }
      r := Ok(());
    }
  }

  /**
   * A service's life in a registry that answers every call: not installed,
   * installed and stopped, started (reported Running while its start is still
   * pending), refused removal while running, stopped and removed. `Settled`
   * stands for the manager finishing the requested transitions.
   */
  method LifecycleScenario(description: ServiceDescription) returns (observed: seq<ServiceStatus>, refused: Result<(), ServiceError>)
    ensures observed == [Uninstalled, Stopped, Running, Running, Stopped, Uninstalled]
    ensures refused == Err(ServiceRunning)
  {
    var svc := new SystemService("porcelet-agent", WinApi.Registry(map[], map[], false));
    var s0 := svc.Status();
    var installed := svc.Install(description);
    var s1 := svc.Status();
    var started := svc.Start();
    var s2 := svc.Status();
    refused := svc.Uninstall();
    svc.registry := svc.registry.Settled();
    var s3 := svc.Status();
    var stopped := svc.Stop();
    svc.registry := svc.registry.Settled();
    var s4 := svc.Status();
    var removed := svc.Uninstall();
    var s5 := svc.Status();
    observed := [s0.value, s1.value, s2.value, s3.value, s4.value, s5.value];
  }
}
