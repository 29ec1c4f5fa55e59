/**
 The configuration records the orchestrator is driven by. Only the fields the
 orchestrator, the API layer and `build_config` read or write are kept; the
 config classes' own default values and `resolve_paths()` are not part of this
 model, so a field that the command line does not set is `Unset` here.
 */
module Config {

  /** A field either left at its config-class default or given explicitly. */
  datatype Setting<+T> = Unset | Given(value: T)

  datatype SyncConfig = SyncConfig(
    managed: bool,
    url: string,
    port: Setting<int>,
    docsDir: Setting<string>)

  datatype RuntimeConfig = RuntimeConfig(
    managed: bool,
    url: string,
    port: Setting<int>,
    language: string)

  datatype MonitorConfig = MonitorConfig(managed: bool)

  datatype EditorConfig = EditorConfig(enabled: bool, port: int)

  datatype OrchestratorConfig = OrchestratorConfig(
    packagesDir: Setting<string>,
    sync: SyncConfig,
    runtimes: map<string, RuntimeConfig>,
    monitor: MonitorConfig,
    editor: EditorConfig,
    logLevel: Setting<string>)

}
