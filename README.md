# mrmd-orchestrator: service lifecycle, monitor registry, API decisions and configuration

This project models, in Dafny, the core of `mrmd-orchestrator`, the program that
starts and stops the services of the mrmd collaborative-document environment:
the `mrmd-sync` synchronization server, the `mrmd-python` runtime and one
monitor process per document.

- `orchestrator.dfy` (module `Orchestration`): the `Orchestrator` class with its
  `started` flag and its `monitors` registry (document name to monitor process
  name), driven by `Start`, `Stop`, `StartMonitor` and `StopMonitor` and read
  through `IsMonitorRunning`, `GetMonitorDocs`, `GetStatus` and `GetUrls`. The
  object invariant `Valid()` says that every tracked document maps to
  `"monitor:" + doc`. The process manager of `processes.py` is not part of this
  model; `ProcessManager` stands in for it as a table from process name to
  status, plus a ghost log of the calls made on it, in order. What a real
  launch, stop or blanket stop reports (per process) is a parameter of the
  call, so the contracts hold for every outcome the real manager could
  produce.
- `server.dfy` (module `Api`): the decisions of the HTTP handlers as a reply
  (`HttpError(status, detail)` for an `HTTPException`) plus the ordered calls
  the handler makes on the docs directory and the session layer. It also holds
  the file-name sanitiser of `create_file`. The monitor handlers are methods
  over an `Orchestrator`, because they call its state-changing methods.
- `cli.dfy` (module `Cli`): `build_config` as a total function from the parsed
  flags to the configuration record, with its precedence rules.
- `config.dfy`, `text.dfy`, `optional.dfy`: the configuration records, Python's
  `str(int)` with its inverse, `str.strip()`, and an `Option` type.

Existence of package and document paths is an input: a `Packages` record for
the orchestrator, and the set of file names already in the docs directory for
the file handlers. Fields that `build_config` leaves at the config classes'
defaults are `Unset`, because `config.py` is not part of this model.

`server.py` calls `create_session`, `destroy_session`, `get_session_info` and
`get_sessions` on the orchestrator, but they do not exist there. This model
follows the code: session handlers are modelled against the answers of an
opaque session layer.

One consequence of the code: `start_monitor` only checks whether the document
is tracked, not whether its process still runs. So once a tracked document's
monitor process is gone (it exited on its own, or its own stop failed during
`stop` and the blanket `stop_all` then ended it), a POST for that document
answers "Started monitor" with `running = true` and launches nothing. A live
server meets the first route: a tracked monitor that exits on its own.
`Api.StaleMonitorIsReportedRunning` walks through the second route on the
orchestrator alone; the shipped entry point never reaches it, because
`async_main` cancels and awaits the server task before it calls `stop()`
(cli.py:270-279).

## Model

| member | source | states |
|---|---|---|
| `Text.IntToString` | mrmd_orchestrator/cli.py:159 | `str(port)` inside the URL f-strings: a minus sign exactly for negative values, then digits with no leading zero (canonical form), and `ParseInt` reads the value back (round trip) |
| `Text.NatToString` | mrmd_orchestrator/cli.py:164 | decimal digits, starting with `0` only for zero, read back to the same number by `ParseNat` |
| `Text.IntToStringInjective` | mrmd_orchestrator/orchestrator.py:238 | distinct ports are rendered as distinct strings |
| `Text.Strip` | mrmd_orchestrator/server.py:186 | `str.strip()`: the result is the slice of the input between its leading and trailing whitespace, and neither end of it is whitespace; it is empty exactly when the input is all whitespace |
| `Text.LeadingSpaces` | mrmd_orchestrator/server.py:186 | the count of leading whitespace characters: all of them are whitespace and the next one is not |
| `Text.TrailingSpaces` | mrmd_orchestrator/server.py:186 | the count of trailing whitespace characters: all of them are whitespace and the one before them is not |
| `Text.StripWithoutSpaces` | mrmd_orchestrator/server.py:191 | the final `.strip()` of the sanitiser changes nothing on a string without whitespace |
| `Cli.BuildConfig` | mrmd_orchestrator/cli.py:142-213 | sync is managed iff there is neither a (non-empty) `--sync-url` nor `--no-sync`; a given sync URL is used as is, otherwise `ws://localhost:{sync_port}`; port and docs dir are set exactly when managed; `runtimes` has the single key `"python"` with language `"python"`, managed iff neither `--runtime-url` nor `--no-runtime`, URL `http://localhost:{runtime_port}/mrp/v1` unless a runtime URL is given; `monitor.managed = not no_monitors`; the editor is enabled iff not `--no-editor` on `--port`; the log level is copied; `packages_dir` changes only for a non-empty `--packages` |
| `Cli.SyncUrlOverridesNoSync` | mrmd_orchestrator/cli.py:151-160 | with a sync URL given, flipping `--no-sync` leaves the sync settings unchanged, and sync is unmanaged |
| `Cli.RuntimeUrlOverridesNoRuntime` | mrmd_orchestrator/cli.py:170-185 | with a runtime URL given, flipping `--no-runtime` leaves the runtimes unchanged, and the runtime is unmanaged |
| `Cli.LocalUrlInjective` | mrmd_orchestrator/cli.py:182 | two local URLs with the same scheme and path are equal only when their ports are |
| `Cli.ManagedSyncUrlsDistinguishPorts` | mrmd_orchestrator/cli.py:161-167 | managed sync servers built for different ports are advertised under different URLs |
| `Orchestration.ProcessManager.constructor` | mrmd_orchestrator/orchestrator.py:29 | a new process manager tracks no process and has received no call |
| `Orchestration.ProcessManager.Start` | mrmd_orchestrator/orchestrator.py:159-165 | stand-in for `processes.start`: the launch's reported status is returned and recorded for the name; one launch call is logged |
| `Orchestration.ProcessManager.Stop` | mrmd_orchestrator/orchestrator.py:189 | stand-in for `processes.stop`: returns whether the stop succeeded; the name leaves the table exactly on success; one stop call is logged |
| `Orchestration.ProcessManager.StopAll` | mrmd_orchestrator/orchestrator.py:64 | stand-in for `processes.stop_all`: exactly the processes whose stop failed stay in the table, with their status; one blanket-stop call is logged |
| `Orchestration.Survivors` | mrmd_orchestrator/orchestrator.py:64 | a process stays after the blanket stop exactly when it was there and its stop failed, with the same status |
| `Orchestration.StoppedMonitorNames` | mrmd_orchestrator/orchestrator.py:59-61 | the process names of exactly those tracked monitors whose own stop succeeded |
| `Orchestration.ServiceLaunches` | mrmd_orchestrator/orchestrator.py:40-47 | `start` launches only `mrmd-sync` and `mrmd-python`; `mrmd-sync` exactly when sync is managed and its package exists; `mrmd-python` exactly when a `"python"` runtime is managed and its package exists (other languages launch nothing) |
| `Orchestration.LaunchCalls` | mrmd_orchestrator/orchestrator.py:40-47 | the launch calls of `start`: only launches of services it was given, the sync server before the runtime, each present one launched |
| `Orchestration.StopCalls` | mrmd_orchestrator/orchestrator.py:59-61 | one stop call per listed document, for its `"monitor:" + doc` process, in list order |
| `Orchestration.MonitorsAfterStop` | mrmd_orchestrator/orchestrator.py:59-61 | after `stop`, a tracked document stays tracked, with the same process name, exactly when the stop of its monitor failed |
| `Orchestration.Orchestrator.constructor` | mrmd_orchestrator/orchestrator.py:27-31 | a new orchestrator is not started, tracks no monitor and owns a fresh, empty process table |
| `Orchestration.Orchestrator.Start` | mrmd_orchestrator/orchestrator.py:33-50 | idempotent: on a started orchestrator nothing changes and no call is made on the process manager; otherwise it is started afterwards, the monitors are unchanged, the process table gains exactly `ServiceLaunches`, and the calls made are exactly their launches, sync first |
| `Orchestration.Orchestrator.StartServices` | mrmd_orchestrator/orchestrator.py:37-47 | the launches of `start`: the table gains exactly `ServiceLaunches` and the call log exactly their launch calls |
| `Orchestration.Orchestrator.StartRuntimes` | mrmd_orchestrator/orchestrator.py:44-47 | the loop over the configured runtimes adds exactly the python launch, if any, and logs exactly that launch call |
| `Orchestration.Orchestrator.StartSync` | mrmd_orchestrator/orchestrator.py:69-95 | `mrmd-sync` is launched, with one launch call, exactly when its package path exists |
| `Orchestration.Orchestrator.StartRuntime` | mrmd_orchestrator/orchestrator.py:97-102 | only the language `"python"` launches a process, named `mrmd-python`, with one launch call |
| `Orchestration.Orchestrator.StartPythonRuntime` | mrmd_orchestrator/orchestrator.py:104-124 | `mrmd-python` is launched, with one launch call, exactly when its package path exists |
| `Orchestration.Orchestrator.Stop` | mrmd_orchestrator/orchestrator.py:52-67 | a no-op, with no call, when not started; otherwise every tracked monitor is asked to stop, once each, before the single blanket stop (the call log is one stop call per tracked document, then `stop_all`), the orchestrator is no longer started, the monitors left are `MonitorsAfterStop`, and the process table keeps only the processes that neither a monitor stop nor the blanket stop removed; it ends empty when the blanket stop succeeds for every process |
| `Orchestration.Orchestrator.StopMonitors` | mrmd_orchestrator/orchestrator.py:59-61 | the loop over a list of the tracked documents: the monitors left are `MonitorsAfterStop`, exactly the process names of the monitors whose stop succeeded leave the table, and the calls made are one stop per tracked document, each once |
| `Orchestration.Orchestrator.StopVisit` | mrmd_orchestrator/orchestrator.py:60-61 | one round of that loop: after visiting `docs[i]`, the tracked monitors, the table and the call log are those of the first `i + 1` visits |
| `Orchestration.Orchestrator.StartMonitor` | mrmd_orchestrator/orchestrator.py:126-173 | false with nothing changed and no call when monitors are unmanaged or the package is missing; true with no call on the process manager for a tracked document; otherwise one launch call of `"monitor:" + doc`, and the document is tracked, and true returned, exactly when the launch reports running; the registry invariant is kept |
| `Orchestration.Orchestrator.StopMonitor` | mrmd_orchestrator/orchestrator.py:175-193 | true with nothing changed and no call for an untracked document; otherwise one stop call, the answer is the stop's, and the document and its process leave exactly when the stop succeeds |
| `Orchestration.Orchestrator.GetMonitorDocs` | mrmd_orchestrator/orchestrator.py:195-197 | exactly the tracked documents, each once |
| `Orchestration.Orchestrator.IsMonitorRunning` | mrmd_orchestrator/orchestrator.py:199-202 | true iff the document is tracked and its `"monitor:" + doc` process reports running |
| `Orchestration.Orchestrator.GetStatus` | mrmd_orchestrator/orchestrator.py:204-228 | the started flag; sync's managed flag, URL and whether `mrmd-sync` runs; per configured language its managed flag, URL and whether `mrmd-{lang}` runs; per tracked document whether its monitor runs; the process table |
| `Orchestration.Orchestrator.GetUrls` | mrmd_orchestrator/orchestrator.py:230-239 | the configured sync and runtime URLs; the editor URL is absent iff the editor is disabled, and otherwise is `http://localhost:` followed by the editor port in canonical decimal form, which reads back to that port |
| `Api.KeepNameChars` | mrmd_orchestrator/server.py:191 | keeps only alphanumerics, `-` and `_`, in their original order (a subsequence), and keeps every one of them (same count of each) |
| `Api.Sanitize` | mrmd_orchestrator/server.py:191 | the stem holds only alphanumerics, `-` and `_`, is a subsequence of the name, and keeps every such character of it |
| `Api.KeepNameCharsOfNameChars` | mrmd_orchestrator/server.py:191 | filtering a string of name characters returns it unchanged |
| `Api.SanitizeIdempotent` | mrmd_orchestrator/server.py:191 | sanitising a sanitised name returns it unchanged |
| `Api.CreateFile` | mrmd_orchestrator/server.py:183-206 | 400 "Name is required" iff the stripped name is empty; 400 "Invalid filename" iff only the sanitised stem is empty; 409 iff `<stem>.md` exists; when none of these applies the reply is `Sanitize` of the requested name and that stem plus `.md`, the docs dir is created and then exactly that new file written, with the request's `content` or else `# <name>` and the placeholder line; a rejected request makes no call, except the docs-dir creation before a 409 with detail `File '<stem>' already exists` |
| `Api.DeleteFile` | mrmd_orchestrator/server.py:208-221 | 404 with no call for a missing file; otherwise the session is destroyed before the file is removed |
| `Api.CreateSession` | mrmd_orchestrator/server.py:235-273 | an invalid `python` mode is 400 with no call; otherwise the session layer is called once, its error becomes a 500 with its message, missing info a 500 "500: Failed to create session …", and non-empty info the reply |
| `Api.InvalidModeIgnoresSessionLayer` | mrmd_orchestrator/server.py:251-255 | for an invalid mode the answer does not depend on the session layer at all |
| `Api.GetSession` | mrmd_orchestrator/server.py:275-284 | 404 exactly when there is no (or empty) info; otherwise exactly the info |
| `Api.DeleteSession` | mrmd_orchestrator/server.py:286-300 | calls `destroy_session` once; "destroyed" iff it succeeded, else 500 |
| `Api.GetMonitor` | mrmd_orchestrator/server.py:144-152 | reports running iff the monitor is running, with the matching message |
| `Api.PostMonitor` | mrmd_orchestrator/server.py:94-118 | an already running monitor is reported with nothing changed and no call on the process manager; otherwise `start_monitor`'s true gives a "Started monitor" reply, with the document added to the tracked monitors and nothing else changed, and its false a 500 with the monitors unchanged; the process table gains a launch, and the call log one launch call, only for an untracked document of a managed, installed monitor |
| `Api.DeleteMonitor` | mrmd_orchestrator/server.py:120-142 | a monitor that is not running is reported with nothing changed and no call on the process manager; otherwise exactly one stop call is made, and a successful stop gives a stopped reply with the monitor untracked and not running, a failed one a 500 with the monitors and the table unchanged |

## Left out

- The process manager (`processes.py`) is not part of this model: spawning, readiness markers, timeouts, output buffers and graceful or forced termination. Its start, stop and blanket-stop outcomes are parameters. A process that exits on its own between calls is not modelled as a separate step.
- Concurrency: `start`, `stop`, `start_monitor` and `stop_monitor` are `async` and suspend at each `await` on the process manager, and the web server runs handlers concurrently. The model runs each of these methods without interleaving. It therefore does not capture two concurrent POSTs for one untracked document both passing the `doc_name in self._monitors` check and both launching a monitor, nor a `start_monitor` still in flight during `stop` adding its document after `stop` took its snapshot of the tracked documents.
- The command lines, working directories, readiness markers and timeouts passed to `processes.start` are not modelled, because the stand-in process manager does not use them. The timeouts are floats.
- Creating the docs directory in `_start_sync` is not modelled (filesystem effect).
- Iteration order: `StartRuntimes` visits languages, and `GetMonitorDocs` lists the documents `stop` visits, in an unspecified order, where Python uses dict insertion order. The resulting state does not depend on the order; the call log of `stop` is stated for some listing of the tracked documents, each once.
- `Orchestrator(config=None)` falls back to `OrchestratorConfig.for_development()`, which is not part of this model; the constructor takes a configuration.
- Sessions: `create_session`, `destroy_session`, `get_session_info` and `get_sessions` are not defined in `orchestrator.py`. The session handlers take the session layer's answers as parameters, and port allocation for dedicated runtimes is not modelled.
- Exceptions raised by orchestrator or filesystem calls outside a `try` (for example in `delete_file` or `delete_session`) are not modelled.
- The endpoints `health`, `status`, `urls`, `list_monitors`, `get_logs`, `list_files` and `list_sessions` are thin wrappers or filesystem listings and are not modelled; `status` and `urls` return `GetStatus` and `GetUrls`.
- `mount_editor`, `run_server`, FastAPI routing and Pydantic validation are framework plumbing and are not modelled.
- `parse_args`, `async_main`, signal handling, auto-started monitors and logging are I/O and concurrency plumbing and are not modelled.
- `config.resolve_paths()` and the config classes' default values are not part of this model; fields left at their defaults are `Unset`.
- `Api.KeepNameChars`, `Api.Sanitize`, `Api.CreateFile`: `str.isalnum` is modelled for ASCII letters and digits only, so non-ASCII letters and digits, which Python keeps, are dropped here; a name such as `日本` is refused with 400 "Invalid filename" in the model, while Python creates `日本.md`.
- `Api.CreateFile`: request values are modelled as strings; a non-string `name`, which makes Python raise, is not modelled.
