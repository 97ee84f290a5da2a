/**
 * The command line's use of the lifecycle layer: which `SystemService`
 * operation each agent subcommand runs, how the `status` command combines the
 * service status with a live probe of the agent, and the exit code.
 * Printing, logging and `process::exit` become returned values.
 */
module Cli {
  import opened Wrappers
  import WinApi
  import Service

  /** The agent's service name and display name. */
  const SERVICE_NAME: string := "porcelet-agent"
  const SERVICE_DISPLAY_NAME: string := "Porcelet Agent"

  /** The launch arguments the service is installed with. */
  const SERVICE_ARGS: seq<string> := ["agent", "run-windows-service"]

  datatype AgentSubcommand = Install | Uninstall | Start | Stop | Run | RunWindowsService

  datatype CliSubcommand = Agent(agentSubcommand: AgentSubcommand) | Status

  /** What can reach `cli_main` as an error. */
  datatype CliError = ServiceFailure(error: Service.ServiceError) | IoFailure(message: string)

  type U64 = x: int | 0 <= x < 0x1_0000_0000_0000_0000

  /**
   * The outcome of the `status` command: its result, whether the agent was
   * probed, whether the "running outside the service manager" warning was
   * logged, and the counter printed, if any.
   */
  datatype StatusReport = StatusReport(result: Result<(), CliError>, probed: bool, warned: bool, counter: Option<U64>)

  /**
   * `agent_status`, given what `status()` returned and what a probe of the
   * agent's pipe would return. A failing `status()` ends the command before
   * the probe. Otherwise the command fails only when the service is Running
   * and the probe fails; a probe that succeeds while the service is not
   * Running only logs a warning.
   */
  function AgentStatus(status: Result<Service.ServiceStatus, Service.ServiceError>, probe: Result<U64, CliError>)
    : (report: StatusReport)
    ensures report.probed <==> status.Ok?
    ensures report.result.Err? <==> status.Err? || (status == Ok(Service.Running) && probe.Err?)
    ensures report.result.Err? ==>
              report.result.error == if status.Err? then ServiceFailure(status.error) else probe.error
    ensures report.warned <==> status.Ok? && status.value != Service.Running && probe.Ok?
    ensures report.counter.Some? <==> status.Ok? && probe.Ok?
    ensures report.counter.Some? ==> report.counter.value == probe.value
  {
    match status
    case Err(e) => StatusReport(Err(ServiceFailure(e)), false, false, None)
    case Ok(s) =>
      match probe
      case Ok(counter) => StatusReport(Ok(()), true, s != Service.Running, Some(counter))
      case Err(err) =>
        if s == Service.Running then StatusReport(Err(err), true, false, None)
        else StatusReport(Ok(()), true, false, None)
  }

  /** The exit code `cli_main` ends the process with: 0 on success, 1 on any error. */
  function ExitCode(result: Result<(), CliError>): (code: int)
    ensures code == 0 <==> result.Ok?
    ensures code == 0 || code == 1
  {
    match result
    case Ok(_) => 0
    case Err(_) => 1
  }

  /** The `status` command exits with 1 exactly when `status()` fails or a Running service does not answer the probe. */
  lemma StatusCommandExitCode(status: Result<Service.ServiceStatus, Service.ServiceError>, probe: Result<U64, CliError>)
    ensures ExitCode(AgentStatus(status, probe).result) == 1 <==>
              status.Err? || (status == Ok(Service.Running) && probe.Err?)
    ensures status.Ok? && status.value != Service.Running ==> ExitCode(AgentStatus(status, probe).result) == 0
  {
  }

  /** The description the Install subcommand registers: the agent's display name, the running executable, SERVICE_ARGS. */
  function AgentDescription(exe: string): Service.ServiceDescription
  {
    Service.ServiceDescription(SERVICE_DISPLAY_NAME, exe, SERVICE_ARGS)
  }

  /** The command line the manager records for the agent: the quoted-if-needed executable, then its two arguments. */
  lemma AgentLaunchCommand(exe: string)
    ensures WinApi.LaunchCommand(exe, SERVICE_ARGS) == WinApi.Escape(exe) + " agent run-windows-service"
  {
    var e := WinApi.Escape(exe);
    PlainArguments();
    LaunchCommandAppend(exe, [], "agent");
    LaunchCommandAppend(exe, ["agent"], "run-windows-service");
    assert WinApi.LaunchCommand(exe, []) == e;
    assert [] + ["agent"] == ["agent"];
    assert ["agent"] + ["run-windows-service"] == SERVICE_ARGS;
    JoinedArguments(e);
  }

  /** The two service arguments, spelled out after a command line's first word. */
  lemma JoinedArguments(e: string)
    ensures e + " " + "agent" + " " + "run-windows-service" == e + " agent run-windows-service"
  {
    assert e + " " + "agent" + " " + "run-windows-service" == e + (" " + "agent" + " " + "run-windows-service");
  }

  /** Neither of the agent's service arguments needs quoting. */
  lemma PlainArguments()
    ensures WinApi.Escape(SERVICE_ARGS[0]) == SERVICE_ARGS[0]
    ensures WinApi.Escape(SERVICE_ARGS[1]) == SERVICE_ARGS[1]
  {
    forall k | 0 <= k < 2
      ensures !WinApi.NeedsQuotes(SERVICE_ARGS[k])
    {
      var word := SERVICE_ARGS[k];
      forall i | 0 <= i < |word| ensures word[i] !in {' ', '\t', '\n', '"'} {
      }
    }
  }

  /** Appending an argument appends a space and its escaped form to the command line. */
  lemma LaunchCommandAppend(path: string, args: seq<string>, arg: string)
    ensures WinApi.LaunchCommand(path, args + [arg]) == WinApi.LaunchCommand(path, args) + " " + WinApi.Escape(arg)
  {
    assert (args + [arg])[..|args|] == args;
  }

  /** A lifecycle result passed on with `?`, its value dropped. */
  function Discharged<T>(result: Result<T, Service.ServiceError>): (r: Result<(), CliError>)
    ensures r.Ok? <==> result.Ok?
    ensures r.Err? ==> r.error == ServiceFailure(result.error)
  {
    match result
    case Ok(_) => Ok(())
    case Err(e) => Err(ServiceFailure(e))
  }

  /**
   * `agent_command`: each lifecycle subcommand runs the matching
   * `SystemService` operation once and passes its error on. Install first
   * needs the running executable's path, then registers the agent under its
   * display name with SERVICE_ARGS. `Run` returns the agent's outcome,
   * `runOutcome`. `RunWindowsService` leaves the agent to a task whose result
   * is dropped and returns the service dispatcher's outcome,
   * `dispatcherOutcome`.
   */
  method AgentCommand(svc: Service.SystemService, sub: AgentSubcommand, currentExe: Result<string, CliError>,
                      runOutcome: Result<(), CliError>, dispatcherOutcome: Result<(), CliError>)
    returns (r: Result<(), CliError>)
    requires svc.name == SERVICE_NAME
    modifies svc
    // Install
    ensures sub.Install? && currentExe.Err? ==> r == Err(currentExe.error) && svc.registry == old(svc.registry)
    ensures sub.Install? && currentExe.Ok? ==>
              svc.registry == Service.Register(old(svc.registry), SERVICE_NAME, AgentDescription(currentExe.value)).1
    ensures sub.Install? && currentExe.Ok? ==>
              var registered := Service.Register(old(svc.registry), SERVICE_NAME, AgentDescription(currentExe.value)).0;
              r == if registered.Err? then Err(ServiceFailure(registered.error)) else Discharged(svc.Description())
    ensures sub.Install? && currentExe.Ok? && old(svc.registry).Answers(Service.InstallCalls) ==>
              (r.Ok? <==> SERVICE_NAME !in old(svc.registry.services) || old(svc.registry.replacesOnCreate))
    ensures sub.Install? && currentExe.Ok? && old(svc.registry).Answers(Service.InstallCalls) &&
            SERVICE_NAME in old(svc.registry.services) && !old(svc.registry.replacesOnCreate) ==>
              r.Err? && r.error.ServiceFailure? && r.error.error.UnknownError?
    ensures sub.Install? && r.Ok? ==>
              SERVICE_NAME in svc.registry.services &&
              svc.registry.services[SERVICE_NAME].config.displayName == SERVICE_DISPLAY_NAME &&
              svc.registry.services[SERVICE_NAME].config.executablePath ==
                WinApi.LaunchCommand(currentExe.value, SERVICE_ARGS) &&
              svc.Description() == Ok(Service.ServiceDescription(SERVICE_DISPLAY_NAME,
                                                                 WinApi.LaunchCommand(currentExe.value, SERVICE_ARGS), []))
    // Uninstall
    ensures sub.Uninstall? ==>
              svc.registry == if r.Ok? then old(svc.registry).(services := old(svc.registry.services) - {SERVICE_NAME})
                              else old(svc.registry)
    ensures sub.Uninstall? && old(svc.Status()) == Ok(Service.Running) ==> r == Err(ServiceFailure(Service.ServiceRunning))
    ensures sub.Uninstall? && old(svc.Status()).Err? ==> r == Err(ServiceFailure(old(svc.Status()).error))
    ensures sub.Uninstall? && old(svc.Status()).Ok? && old(svc.Status()) != Ok(Service.Running) ==>
              r == Discharged(Service.RequestResult(old(svc.registry), SERVICE_NAME, WinApi.AllAccess, WinApi.DeleteCall))
    ensures sub.Uninstall? && old(svc.registry).Answers(Service.UninstallCalls) ==>
              (r.Ok? <==> old(svc.Status()) == Ok(Service.Stopped))
    // Start and Stop
    ensures sub.Start? ==> r == Discharged(Service.RequestResult(old(svc.registry), SERVICE_NAME, WinApi.StartAccess, WinApi.StartCall))
    ensures sub.Stop? ==> r == Discharged(Service.RequestResult(old(svc.registry), SERVICE_NAME, WinApi.StopAccess, WinApi.StopCall))
    ensures (sub.Start? && old(svc.registry).Answers(Service.StartCalls)) || (sub.Stop? && old(svc.registry).Answers(Service.StopCalls)) ==>
              (r.Ok? <==> SERVICE_NAME in old(svc.registry.services)) &&
              (SERVICE_NAME !in old(svc.registry.services) ==> r == Err(ServiceFailure(Service.ServiceNotInstalled)))
    ensures sub.Start? ==>
              svc.registry == if r.Ok? then old(svc.registry).WithState(SERVICE_NAME,
                                WinApi.StartRequested(old(svc.registry.services[SERVICE_NAME].state)))
                              else old(svc.registry)
    ensures sub.Stop? ==>
              svc.registry == if r.Ok? then old(svc.registry).WithState(SERVICE_NAME,
                                WinApi.StopRequested(old(svc.registry.services[SERVICE_NAME].state)))
                              else old(svc.registry)
    // Running the agent
    ensures sub.Run? ==> r == runOutcome && svc.registry == old(svc.registry)
    ensures sub.RunWindowsService? ==> r == dispatcherOutcome && svc.registry == old(svc.registry)
  {
    match sub
    case Install =>
      if currentExe.Err? {
        return Err(currentExe.error);
      }
      var installed := svc.Install(AgentDescription(currentExe.value));
      r := Discharged(installed);
    case Uninstall =>
      var uninstalled := svc.Uninstall();
      r := Discharged(uninstalled);
    case Start =>
      var started := svc.Start();
      r := Discharged(started);
    case Stop =>
      var stopped := svc.Stop();
      r := Discharged(stopped);
    case Run =>
      r := runOutcome;
    case RunWindowsService =>
      r := dispatcherOutcome;
  }

  /**
   * `cli_main` after argument parsing: runs the subcommand against the agent's
   * service and maps its result to the exit code. For each subcommand the
   * exit code tells which of its outcomes the registry is in.
   */
  method CliMain(svc: Service.SystemService, command: CliSubcommand, currentExe: Result<string, CliError>,
                 probe: Result<U64, CliError>, runOutcome: Result<(), CliError>, dispatcherOutcome: Result<(), CliError>)
    returns (code: int)
    requires svc.name == SERVICE_NAME
    modifies svc
    ensures code == 0 || code == 1
    ensures command.Status? ==>
              code == ExitCode(AgentStatus(old(svc.Status()), probe).result) && svc.registry == old(svc.registry)
    ensures command == Agent(Install) && currentExe.Err? ==> code == 1 && svc.registry == old(svc.registry)
    ensures command == Agent(Install) && currentExe.Ok? ==>
              svc.registry == Service.Register(old(svc.registry), SERVICE_NAME, AgentDescription(currentExe.value)).1 &&
              (code == 0 <==> Service.Register(old(svc.registry), SERVICE_NAME, AgentDescription(currentExe.value)).0.Ok? &&
                              svc.Description().Ok?)
    ensures command == Agent(Uninstall) ==>
              svc.registry == if code == 0 then old(svc.registry).(services := old(svc.registry.services) - {SERVICE_NAME})
                              else old(svc.registry)
    ensures command == Agent(Uninstall) && (old(svc.Status()) == Ok(Service.Running) || old(svc.Status()).Err?) ==> code == 1
    ensures command == Agent(Uninstall) && old(svc.Status()).Ok? && old(svc.Status()) != Ok(Service.Running) ==>
              code == ExitCode(Discharged(Service.RequestResult(old(svc.registry), SERVICE_NAME, WinApi.AllAccess, WinApi.DeleteCall)))
    ensures command == Agent(Uninstall) && old(svc.registry).Answers(Service.UninstallCalls) ==>
              (code == 0 <==> old(svc.Status()) == Ok(Service.Stopped))
    ensures command == Agent(Start) ==>
              code == ExitCode(Discharged(Service.RequestResult(old(svc.registry), SERVICE_NAME, WinApi.StartAccess, WinApi.StartCall))) &&
              svc.registry == if code == 0 then old(svc.registry).WithState(SERVICE_NAME,
                                WinApi.StartRequested(old(svc.registry.services[SERVICE_NAME].state)))
                              else old(svc.registry)
    ensures command == Agent(Stop) ==>
              code == ExitCode(Discharged(Service.RequestResult(old(svc.registry), SERVICE_NAME, WinApi.StopAccess, WinApi.StopCall))) &&
              svc.registry == if code == 0 then old(svc.registry).WithState(SERVICE_NAME,
                                WinApi.StopRequested(old(svc.registry.services[SERVICE_NAME].state)))
                              else old(svc.registry)
    ensures command == Agent(Run) ==> code == ExitCode(runOutcome) && svc.registry == old(svc.registry)
    ensures command == Agent(RunWindowsService) ==> code == ExitCode(dispatcherOutcome) && svc.registry == old(svc.registry)
  {
    var result: Result<(), CliError>;
    match command {
      case Agent(sub) =>
        result := AgentCommand(svc, sub, currentExe, runOutcome, dispatcherOutcome);
      case Status =>
        result := AgentStatus(svc.Status(), probe).result;
    }
    code := ExitCode(result);
  }
}
