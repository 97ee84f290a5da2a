# Porcelet agent: service lifecycle model

A Dafny model of the service-lifecycle layer of the Porcelet agent (`src/service.rs`) and of the
command line's use of it (`src/cli.rs`).

- **`WinApi`** (`winapi.dfy`) models the environment the layer talks to: the `windows_service` crate's error
  type and the local computer's service control manager. The service registry is a value. It maps each
  service name to its registration: the configuration given at creation and the current run state.
  Environmental failures are given per call by a fault table: a caller without rights, a rejected
  parameter, a broken connection. A listed call fails with the recorded error and changes nothing.
  Opening an unregistered service fails with Win32 code 1060 (`ERROR_SERVICE_DOES_NOT_EXIST`).
- **`Service`** (`service.dfy`) holds the closed error taxonomy (`ServiceError`) and its messages. It maps every
  library error into that taxonomy (`FromLibraryError`). `SystemService` is a class whose `registry` field
  is the OS registry its methods act on. `Status` and `Description` only read it. `Install`,
  `Uninstall`, `Start` and `Stop` change it step by step, one `?` at a time, as the source does.
- **`Cli`** (`cli.dfy`) covers the rest: which operation each agent subcommand runs, the `status`
  command's decision table and the exit code. Printing, logging and `process::exit` become returned values.
- **`Wrappers`** (`wrappers.dfy`) holds `Option` and `Result`.

Environment-dependent inputs are parameters. These are the running executable's path (`currentExe`),
the result of probing the agent's pipe (`probe`), the outcome of running the agent itself
(`runOutcome`) and the outcome of the service dispatcher (`dispatcherOutcome`).

`create_service` records the binary path and the launch arguments as one command line: each word is
quoted when it is empty or holds a blank or a quote, and the words are joined by spaces
(`WinApi.LaunchCommand`). `query_config` returns that whole line as the executable path. So
`description()` reports the command line, not the bare path, as `binary_path`.

## Model

| member | source | states |
|---|---|---|
| `Service.FromLibraryError` | src/service.rs:35-66 | Total mapping of every library error to exactly one of the six kinds. The nine configuration errors (account name, password, display name, database name, executable path, launch argument, launch arguments not supported, dependency, description) give InstallationFailed, and only they do. Only an invalid service name gives InvalidServiceName. An OS error with kind PermissionDenied gives AccessDenied even when its code is 1060. Otherwise code 1060 gives ServiceNotInstalled. Every other OS error and the eight unexpected-parameter errors give UnknownError. ServiceRunning is never produced. Details are passed through as stated, with the "Kind=…, …" text for OS errors. |
| `Service.MessageIdentifiesError` | src/service.rs:8-33 | Distinct errors have distinct display messages. So the message that `status()` wraps into InstallationFailed still identifies the original error. |
| `Service.SystemService.constructor` | src/service.rs:96-99 | A manager for the given service name over the given registry. |
| `Service.SystemService.Status` | src/service.rs:101-119 | When the manager answers, Uninstalled exactly when the service is not registered. Stopped exactly when its state is Stopped. Running for every other state, pending ones included. A connect failure gives its mapped error. An open failure that maps to ServiceNotInstalled gives Ok(Uninstalled). Any other open failure, access denied included, gives InstallationFailed carrying the mapped error's message. Never ServiceRunning. |
| `Service.SystemService.Description` | src/service.rs:121-134 | On success, the registered display name and the recorded command line (path and launch arguments) as the binary path, with empty args. When the manager answers, it succeeds exactly when the service is registered and otherwise fails with ServiceNotInstalled. |
| `Service.InstallInfo` | src/service.rs:143-154 | The `ServiceInfo` that `install` passes to `create_service`: the service's name, the description's display name, binary path and args, OwnProcess, AutoStart, Normal error control, no dependencies, no account and no password. |
| `Service.Register` | src/service.rs:142-155 | Connect with create rights, then `create_service`. A failure returns the mapped error and leaves the registry unchanged. On success only this service's entry changes: it holds the display name, the command line built from path and args, OwnProcess, AutoStart, Normal error control, no dependencies and no account. A new service starts Stopped and an existing one keeps its run state. When the manager answers, it succeeds exactly when the name is free or the manager replaces on create; otherwise the "service exists" OS error (code 1073) is mapped to UnknownError. A connect or create fault gives its mapped error. |
| `Service.SystemService.Install` | src/service.rs:136-158 | The registry afterwards is exactly the one `Register` gives, whatever the result, so a registration stays even when the following `description()` fails. A registration failure is returned; otherwise the result is `description()`. On success that is the given display name and the command line built from path and args, with empty args. When the manager answers every call, it succeeds exactly when the name is free or the manager replaces on create. |
| `Service.LaunchCommandStartsWithPath` | src/service.rs:149-150 | The command line recorded for a service starts with its escaped binary path, and is strictly longer when there are launch arguments. |
| `Service.PlainPathRoundTrip` | src/service.rs:149-150 | With no launch arguments and a path that needs no quotes, the recorded command line is the path itself. |
| `Service.SystemService.Uninstall` | src/service.rs:160-174 | A failing `status()` passes on its error and a Running status gives ServiceRunning; both leave the registry unchanged. Otherwise the result is `RequestResult` with full access and the delete call, so a failing connect, open or delete is passed on mapped. The registry afterwards is the old one minus this service on success, or unchanged on failure. Success implies the service was registered and not reported Running. When the manager answers, it succeeds exactly when the status was Stopped and gives ServiceNotInstalled when Uninstalled. |
| `Service.RequestResult` | src/service.rs:182-184 | Connect, open with the given access, then request (start, stop, or the delete of `uninstall`): each failure is mapped and returned in that order. Success implies the service is registered. When the manager answers, it succeeds exactly when the service is registered and otherwise fails with ServiceNotInstalled. Never ServiceRunning. |
| `Service.SystemService.Start` | src/service.rs:176-187 | The result is `RequestResult` with start access and the start request. Only requests a start: on success a Stopped service becomes StartPending and any other state is unchanged. On failure the registry is unchanged. When the manager answers, it succeeds exactly when the service is registered and otherwise fails with ServiceNotInstalled. |
| `Service.SystemService.Stop` | src/service.rs:189-200 | The result is `RequestResult` with stop access and the stop request. Only requests a stop: on success a started service becomes StopPending. A service that is stopped, stopping or still starting is unchanged. On failure the registry is unchanged. When the manager answers, it succeeds exactly when the service is registered and otherwise fails with ServiceNotInstalled. |
| `Service.LifecycleScenario` | src/service.rs:101-200 | On a registry that answers every call, status goes Uninstalled, Stopped after install, Running after start (while the start is still pending and once it completes), Stopped after stop, Uninstalled after uninstall. Uninstall while Running is refused with ServiceRunning. |
| `Cli.AgentStatus` | src/cli.rs:97-126 | The agent is probed exactly when `status()` succeeded, so its failure propagates first. The command fails exactly when `status()` failed or the status is Running and the probe failed, returning that error. A warning is logged exactly when the probe succeeds while the status is not Running. The counter is shown exactly when the probe succeeded. |
| `Cli.ExitCode` | src/cli.rs:139-145 | The exit code is 0 on Ok and 1 on any Err. |
| `Cli.StatusCommandExitCode` | src/cli.rs:97-145 | The `status` command exits with 1 exactly when `status()` fails or a Running service does not answer the probe. It always exits with 0 when the service is not Running. |
| `Cli.Discharged` | src/cli.rs:63-78 | A lifecycle result passed on with `?`: Ok exactly when the operation succeeded; an error is carried as that service error. |
| `Cli.AgentLaunchCommand` | src/cli.rs:57-61 | The command line recorded for the agent is its escaped executable path followed by " agent run-windows-service". |
| `Cli.AgentCommand` | src/cli.rs:50-95 | Install fails with the executable-path error before touching the registry. Otherwise it leaves the registry as `Register` does for display name "Porcelet Agent", the running executable and args ["agent", "run-windows-service"], and returns the registration error or the outcome of `description()`. When the manager answers, Install succeeds exactly when the agent is not registered or the manager replaces on create, and otherwise fails with an UnknownError. On success the agent is registered under "Porcelet Agent" with the command line of the executable and those args, and `description()` reports that line with empty args. Uninstall passes on a status error, refuses a Running service with ServiceRunning, otherwise gives `RequestResult` for the delete, and removes the agent exactly on success. Start and Stop give `RequestResult`: when the manager answers, they succeed exactly when the agent is registered and otherwise fail with ServiceNotInstalled; on success the state becomes the requested one, otherwise the registry is unchanged. Run returns the agent's outcome; RunWindowsService returns the dispatcher's outcome. Both leave the registry unchanged. |
| `Cli.CliMain` | src/cli.rs:131-145 | The exit code is 0 or 1. For `status` it is the exit code of the decision table applied to `status()` and the probe, and the registry is unchanged. For each agent subcommand the exit code tells the registry's outcome: install leaves `Register`'s registry and exits with 0 exactly when registering and `description()` succeed, and exits with 1 without a change when the executable path is unavailable. Uninstall exits with 0 exactly when the agent was removed; a Running or unreadable status exits with 1, and otherwise the code is that of the connect, open and delete outcome. Start and Stop exit with 0 exactly when the start or stop was requested, and otherwise leave the registry unchanged. Run exits with the agent's outcome and RunWindowsService with the dispatcher's. |

## Left out

- `src/agent.rs`: the named-pipe server loop, its atomic counter, the shutdown channel and
  `Agent::query_status`. These are concurrency and pipe I/O. The probe's result is a parameter of
  `Cli.AgentStatus` and `Cli.CliMain`.
- `src/main.rs`: the child-process scaffolding is unused. `main` does not match `cli_main`'s signature.
- Run and RunWindowsService: the agent loop, the tokio task and the service dispatcher with its FFI
  callback are not modelled. Run's outcome is the parameter `runOutcome`. RunWindowsService drops the
  spawned agent task's result; its outcome is the dispatcher's, the parameter `dispatcherOutcome`.
- Argument parsing with clap, and the text of `println!` and `log` output. Only the warning flag and the
  shown counter of `status` are kept.
- `std::env::current_exe()` is the parameter `currentExe`.
- The real `windows_service` calls are replaced by the `WinApi.Registry` value. Any OS rejection is
  expressed through its fault table. Examples are a start request for a running service and a stop
  request for a stopped one. Without a fault, such requests succeed without effect.
- Deleting a service removes its registration at once. The manager's marked-for-deletion state is not modelled.
- Each operation reads one registry value for all its calls. The registry is assumed not to change
  between the calls of one operation, for example between `status()` and the delete in `uninstall`
  (src/service.rs:164-171). Races with other programs are not modelled.
- `WinApi.LaunchCommand` models how `create_service` joins the path and arguments into one command line.
  That code lives in the `windows_service` crate, which is not part of this model. Quoting is approximated:
  a word is wrapped in quotes when it is empty or holds a blank or a quote, and embedded quotes and
  backslashes are not escaped.
- The texts of OS errors 1060 and 1073 (`WinApi.ServiceDoesNotExistText`, `WinApi.ServiceExistsText`) are
  left opaque; only their codes and kinds are stated.
- The text of the library's parse errors and of `io::Error` is opaque: a `detail` or `message` string
  passed through unchanged.
- Service.SystemService.Install: the doc comment promises that installing over an existing service updates its
  configuration without a restart (src/service.rs:138-140). The code only calls `create_service`. The model
  leaves create-over-existing to the manager (`replacesOnCreate`): it either replaces the configuration,
  keeping the run state, or refuses with code 1073. So the update promise is not stated.
- Cli.CliMain: the exit code is 0 or 1, as the code writes it. No distinct codes per failure kind exist
  in the code.
