/**
 `build_config`: the mapping from parsed command-line flags to the
 orchestrator's configuration. Argument parsing itself is not modelled; the
 parsed flags arrive as an `Args` record.
 */
module Cli {

  import opened Optional
  import opened Config
  import opened Text

  /** The namespace `parse_args()` returns; absent options are `None`. */
  datatype Args = Args(
    docs: string,
    packages: Option<string>,
    port: int,
    syncPort: int,
    runtimePort: int,
    syncUrl: Option<string>,
    runtimeUrl: Option<string>,
    noSync: bool,
    noRuntime: bool,
    noEditor: bool,
    noMonitors: bool,
    monitors: Option<seq<string>>,
    logLevel: string)

  /** Python truthiness of an optional string: present and not empty. */
  predicate Truthy(o: Option<string>) {
    o.Some? && o.value != ""
  }

  /** `f"{scheme}://localhost:{port}"`. */
  function LocalUrl(scheme: string, port: int): string {
    scheme + "://localhost:" + IntToString(port)
  }

  /** The path under which a runtime serves its protocol. */
  const RuntimeApiPath := "/mrp/v1"

  function SyncFromArgs(args: Args): SyncConfig {
    if Truthy(args.syncUrl) then
      SyncConfig(false, args.syncUrl.value, Unset, Unset)
    else if args.noSync then
      SyncConfig(false, LocalUrl("ws", args.syncPort), Unset, Unset)
    else
      SyncConfig(true, LocalUrl("ws", args.syncPort), Given(args.syncPort), Given(args.docs))
  }

  function RuntimeFromArgs(args: Args): RuntimeConfig {
    if Truthy(args.runtimeUrl) then
      RuntimeConfig(false, args.runtimeUrl.value, Unset, "python")
    else if args.noRuntime then
      RuntimeConfig(false, LocalUrl("http", args.runtimePort) + RuntimeApiPath, Unset, "python")
    else
      RuntimeConfig(true, LocalUrl("http", args.runtimePort) + RuntimeApiPath, Given(args.runtimePort), "python")
  }

  /**
   The configuration `build_config` assembles. A remote URL takes precedence
   over the matching `--no-*` flag, which takes precedence over the managed
   default; a managed service is always advertised on the port it is started on.
   */
  function BuildConfig(args: Args): (c: OrchestratorConfig)
    // --packages overrides the packages directory only when it is non-empty
    ensures c.packagesDir == (if Truthy(args.packages) then Given(args.packages.value) else Unset)
    // sync: --sync-url, then --no-sync, then managed
    ensures c.sync.managed <==> !Truthy(args.syncUrl) && !args.noSync
    ensures Truthy(args.syncUrl) ==> c.sync.url == args.syncUrl.value
    ensures !Truthy(args.syncUrl) ==> c.sync.url == LocalUrl("ws", args.syncPort)
    ensures c.sync.managed <==> c.sync.port == Given(args.syncPort)
    ensures c.sync.managed <==> c.sync.docsDir == Given(args.docs)
    ensures !c.sync.managed ==> c.sync.port == Unset && c.sync.docsDir == Unset
    // runtimes: exactly one, for python
    ensures c.runtimes.Keys == {"python"}
    ensures c.runtimes["python"].language == "python"
    ensures c.runtimes["python"].managed <==> !Truthy(args.runtimeUrl) && !args.noRuntime
    ensures Truthy(args.runtimeUrl) ==> c.runtimes["python"].url == args.runtimeUrl.value
    ensures !Truthy(args.runtimeUrl) ==>
      c.runtimes["python"].url == LocalUrl("http", args.runtimePort) + RuntimeApiPath
    ensures c.runtimes["python"].managed <==> c.runtimes["python"].port == Given(args.runtimePort)
    ensures !c.runtimes["python"].managed ==> c.runtimes["python"].port == Unset
    // monitors, editor, log level
    ensures c.monitor.managed == !args.noMonitors
    ensures c.editor == EditorConfig(!args.noEditor, args.port)
    ensures c.logLevel == Given(args.logLevel)
  {
    OrchestratorConfig(
      if Truthy(args.packages) then Given(args.packages.value) else Unset,
      SyncFromArgs(args),
      map["python" := RuntimeFromArgs(args)],
      MonitorConfig(!args.noMonitors),
      EditorConfig(!args.noEditor, args.port),
      Given(args.logLevel))
  }

  /** With a sync URL given, `--no-sync` makes no difference to the sync settings. */
  lemma SyncUrlOverridesNoSync(args: Args)
    requires Truthy(args.syncUrl)
    ensures BuildConfig(args).sync == BuildConfig(args.(noSync := !args.noSync)).sync
    ensures !BuildConfig(args).sync.managed
  {
  }

  /** With a runtime URL given, `--no-runtime` makes no difference to the runtimes. */
  lemma RuntimeUrlOverridesNoRuntime(args: Args)
    requires Truthy(args.runtimeUrl)
    ensures BuildConfig(args).runtimes == BuildConfig(args.(noRuntime := !args.noRuntime)).runtimes
    ensures !BuildConfig(args).runtimes["python"].managed
  {
  }

  /**
   A local URL determines its port: two local URLs with the same scheme and
   the same trailing path are equal only when their ports are.
   */
  lemma LocalUrlInjective(scheme: string, path: string, p: int, q: int)
    requires LocalUrl(scheme, p) + path == LocalUrl(scheme, q) + path
    ensures p == q
  {
    var prefix := scheme + "://localhost:";
    var u, v := LocalUrl(scheme, p) + path, LocalUrl(scheme, q) + path;
    assert |IntToString(p)| == |IntToString(q)|;
    assert u[|prefix|..|u| - |path|] == IntToString(p);
    assert v[|prefix|..|v| - |path|] == IntToString(q);
    IntToStringInjective(p, q);
  }

  /** Managed sync servers built for different ports are advertised under different URLs. */
  lemma ManagedSyncUrlsDistinguishPorts(a: Args, b: Args)
    requires BuildConfig(a).sync.managed && BuildConfig(b).sync.managed
    requires a.syncPort != b.syncPort
    ensures BuildConfig(a).sync.url != BuildConfig(b).sync.url
  {
    if BuildConfig(a).sync.url == BuildConfig(b).sync.url {
      assert LocalUrl("ws", a.syncPort) + "" == LocalUrl("ws", b.syncPort) + "";
      LocalUrlInjective("ws", "", a.syncPort, b.syncPort);
    }
  }
}
