/**
 The orchestrator's service lifecycle and its per-document monitor registry.

 The process manager it drives (`processes.py`) is not part of this model. It
 is represented by `ProcessManager`, a table from process name to reported
 status with a log of the calls made on it. What a real start or stop reports
 (readiness seen, timeout, kill failure) is a parameter of the call, so every
 outcome the real manager could produce is covered.
 */
module Orchestration {

  import opened Optional
  import opened Config
  import opened Text

  /** The lifecycle states a supervised process can be reported in. */
  datatype ProcStatus = Starting | Running | Stopping | Stopped | Failed

  /** Which supervised programs' package directories exist on disk. */
  datatype Packages = Packages(sync: bool, python: bool, monitor: bool)

  const SyncProcess := "mrmd-sync"
  const PythonProcess := "mrmd-python"

  /** The process name under which the monitor of `doc` runs. */
  function MonitorProcessName(doc: string): string {
    "monitor:" + doc
  }

  /** The process name `get_status` looks up for the runtime of language `lang`. */
  function RuntimeProcessName(lang: string): string {
    "mrmd-" + lang
  }

  /** A call made on the process manager. */
  datatype PmCall = LaunchCall(name: string) | StopCall(name: string) | StopAllCall

  /**
   Stand-in for the unseen process manager: a name-to-status table, and the
   calls made on it so far, in order.
   */
  class ProcessManager {
    var table: map<string, ProcStatus>
    ghost var calls: seq<PmCall>

    constructor ()
      ensures table == map[] && calls == []
    {
      table := map[];
      calls := [];
    }

    predicate IsRunning(name: string)
      reads this
    {
      name in table && table[name] == Running
    }

    /** Launches `name`; `reported` is the status the launch ends in. */
    method Start(name: string, reported: ProcStatus) returns (status: ProcStatus)
      modifies this
      ensures status == reported
      ensures table == old(table)[name := reported]
      ensures calls == old(calls) + [LaunchCall(name)]
    {
      table := table[name := reported];
      calls := calls + [LaunchCall(name)];
      status := reported;
    }

    /** Stops `name`; `stopped` is whether the process was confirmed gone. */
    method Stop(name: string, stopped: bool) returns (success: bool)
      modifies this
      ensures success == stopped
      ensures table == if stopped then old(table) - {name} else old(table)
      ensures calls == old(calls) + [StopCall(name)]
    {
      calls := calls + [StopCall(name)];
      if stopped {
        table := table - {name};
      }
      success := stopped;
    }

    /** Stops every process; `stopped` says, per name, whether its stop succeeded. */
    method StopAll(stopped: string -> bool)
      modifies this
      ensures table == Survivors(old(table), stopped)
      ensures calls == old(calls) + [StopAllCall]
    {
      calls := calls + [StopAllCall];
      table := map n | n in table && !stopped(n) :: table[n];
    }
  }

  /** The entries of `table` whose process did not stop. */
  function Survivors(table: map<string, ProcStatus>, stopped: string -> bool): (m: map<string, ProcStatus>)
    ensures forall n :: n in m <==> n in table && !stopped(n)
    ensures forall n :: n in m ==> m[n] == table[n]
  {
    map n | n in table && !stopped(n) :: table[n]
  }

  /** The process names of the tracked monitors whose stop succeeded. */
  function StoppedMonitorNames(monitors: map<string, string>, stopped: string -> bool): (s: set<string>)
    ensures forall d :: d in monitors && stopped(monitors[d]) ==> monitors[d] in s
    ensures forall n :: n in s ==> stopped(n) && exists d :: d in monitors && monitors[d] == n
  {
    set d | d in monitors && stopped(monitors[d]) :: monitors[d]
  }

  /** The sync server launch `start` performs: only when it is managed and installed. */
  function SyncLaunch(config: OrchestratorConfig, packages: Packages, report: ProcStatus): map<string, ProcStatus> {
    if config.sync.managed && packages.sync then map[SyncProcess := report] else map[]
  }

  /** The runtime launch `start` performs: only for "python", when managed and installed. */
  function PythonLaunch(config: OrchestratorConfig, installed: bool, report: ProcStatus): map<string, ProcStatus> {
    if "python" in config.runtimes && config.runtimes["python"].managed && installed
    then map[PythonProcess := report] else map[]
  }

  /** The launch calls for the services in `launches`: the sync server first, then the runtime. */
  function LaunchCalls(launches: map<string, ProcStatus>): (c: seq<PmCall>)
    ensures forall k :: 0 <= k < |c| ==> c[k].LaunchCall? && c[k].name in launches
    ensures SyncProcess in launches ==> LaunchCall(SyncProcess) in c
    ensures PythonProcess in launches ==> LaunchCall(PythonProcess) in c
  {
    (if SyncProcess in launches then [LaunchCall(SyncProcess)] else [])
    + (if PythonProcess in launches then [LaunchCall(PythonProcess)] else [])
  }

  /** The launch calls of a single launch, and of none. */
  lemma SingleLaunchCalls(syncReport: ProcStatus, pythonReport: ProcStatus)
    ensures LaunchCalls(map[]) == []
    ensures LaunchCalls(map[SyncProcess := syncReport]) == [LaunchCall(SyncProcess)]
    ensures LaunchCalls(map[PythonProcess := pythonReport]) == [LaunchCall(PythonProcess)]
  {
  }

  /** Appending an element not yet listed extends the enumeration by it. */
  lemma EnumeratesOnceStep(docs: seq<string>, keys: set<string>, doc: string)
    requires EnumeratesOnce(docs, keys) && doc !in keys
    ensures EnumeratesOnce(docs + [doc], keys + {doc})
  {
  }

  /** Launching the sync server and then the runtime makes the launch calls of `start`. */
  lemma ServiceLaunchCalls(config: OrchestratorConfig, packages: Packages, syncReport: ProcStatus, pythonReport: ProcStatus)
    ensures LaunchCalls(ServiceLaunches(config, packages, syncReport, pythonReport)) ==
      LaunchCalls(SyncLaunch(config, packages, syncReport)) + LaunchCalls(PythonLaunch(config, packages.python, pythonReport))
  {
  }

  /** What the sync step of `start` does to the table and the call log, as `SyncLaunch` says. */
  lemma SyncLaunchStep(config: OrchestratorConfig, packages: Packages, report: ProcStatus,
                       t0: map<string, ProcStatus>, c0: seq<PmCall>, t1: map<string, ProcStatus>, c1: seq<PmCall>)
    requires config.sync.managed ==>
      && t1 == (if packages.sync then t0[SyncProcess := report] else t0)
      && c1 == c0 + (if packages.sync then [LaunchCall(SyncProcess)] else [])
    requires !config.sync.managed ==> t1 == t0 && c1 == c0
    ensures t1 == t0 + SyncLaunch(config, packages, report)
    ensures c1 == c0 + LaunchCalls(SyncLaunch(config, packages, report))
  {
    MapUnionFacts(t0, SyncProcess, report);
    SingleLaunchCalls(report, report);
  }

  /** The sync step followed by the runtime step makes exactly the launches of `start`. */
  lemma ServiceLaunchChain(config: OrchestratorConfig, packages: Packages, syncReport: ProcStatus, pythonReport: ProcStatus,
                           t0: map<string, ProcStatus>, c0: seq<PmCall>, t1: map<string, ProcStatus>, c1: seq<PmCall>,
                           t2: map<string, ProcStatus>, c2: seq<PmCall>)
    requires t1 == t0 + SyncLaunch(config, packages, syncReport)
    requires c1 == c0 + LaunchCalls(SyncLaunch(config, packages, syncReport))
    requires t2 == t1 + PythonLaunch(config, packages.python, pythonReport)
    requires c2 == c1 + LaunchCalls(PythonLaunch(config, packages.python, pythonReport))
    ensures t2 == t0 + ServiceLaunches(config, packages, syncReport, pythonReport)
    ensures c2 == c0 + LaunchCalls(ServiceLaunches(config, packages, syncReport, pythonReport))
  {
    MapUnionAssociative(t0, SyncLaunch(config, packages, syncReport), PythonLaunch(config, packages.python, pythonReport));
    ServiceLaunchCalls(config, packages, syncReport, pythonReport);
  }

  /** The stop calls for the monitors of `docs`, in that order. */
  function StopCalls(docs: seq<string>): (c: seq<PmCall>)
    ensures |c| == |docs|
    ensures forall k :: 0 <= k < |c| ==> c[k] == StopCall(MonitorProcessName(docs[k]))
  {
    if docs == [] then [] else StopCalls(docs[..|docs| - 1]) + [StopCall(MonitorProcessName(docs[|docs| - 1]))]
  }

  /** Stopping one more monitor appends its stop call. */
  lemma StopCallsAppend(docs: seq<string>, doc: string)
    ensures StopCalls(docs + [doc]) == StopCalls(docs) + [StopCall(MonitorProcessName(doc))]
  {
    assert (docs + [doc])[..|docs|] == docs;
  }

  /** `docs` lists every element of `keys` exactly once. */
  predicate EnumeratesOnce(docs: seq<string>, keys: set<string>) {
    && (forall d :: d in docs ==> d in keys)
    && (forall d :: d in keys ==> d in docs)
    && (forall i, j :: 0 <= i < j < |docs| ==> docs[i] != docs[j])
  }

  /**
   The processes `start` launches for the managed services: the sync server
   when it is managed and installed, and a runtime only for the language
   "python", when that runtime is managed and installed.
   */
  function ServiceLaunches(config: OrchestratorConfig, packages: Packages,
                           syncReport: ProcStatus, pythonReport: ProcStatus): (m: map<string, ProcStatus>)
    ensures m.Keys <= {SyncProcess, PythonProcess}
    ensures SyncProcess in m <==> config.sync.managed && packages.sync
    ensures PythonProcess in m <==>
      "python" in config.runtimes && config.runtimes["python"].managed && packages.python
    ensures SyncProcess in m ==> m[SyncProcess] == syncReport
    ensures PythonProcess in m ==> m[PythonProcess] == pythonReport
  {
    SyncLaunch(config, packages, syncReport) + PythonLaunch(config, packages.python, pythonReport)
  }

  /** Adding a one-entry map is an update; adding the empty map changes nothing. */
  lemma MapUnionFacts<K, V>(m: map<K, V>, k: K, v: V)
    ensures m + map[k := v] == m[k := v]
    ensures m + map[] == m
  {
  }

  lemma MapRemoveMore<K, V>(m: map<K, V>, s: set<K>, k: K)
    ensures m - s - {k} == m - (s + {k})
  {
  }

  lemma MapUnionAssociative<K, V>(a: map<K, V>, b: map<K, V>, c: map<K, V>)
    ensures a + b + c == a + (b + c)
  {
  }

  /** The monitors still tracked after `stop` asked each one to stop. */
  function MonitorsAfterStop(monitors: map<string, string>, stopped: string -> bool): (m: map<string, string>)
    ensures m.Keys <= monitors.Keys
    ensures forall d :: d in monitors ==> (d in m <==> !stopped(monitors[d]))
    ensures forall d :: d in m ==> m[d] == monitors[d]
  {
    map d | d in monitors && !stopped(monitors[d]) :: monitors[d]
  }

  /** The process names of the monitors outside `pending` whose stop succeeded. */
  ghost function StoppedOutside(monitors: map<string, string>, pending: set<string>, stopped: string -> bool): set<string> {
    set d | d in monitors && d !in pending && stopped(monitors[d]) :: monitors[d]
  }

  /** The monitors still tracked once `stop` has visited the documents of `visited`. */
  ghost function TrackedAfter(monitors: map<string, string>, visited: seq<string>, stopped: string -> bool): map<string, string> {
    map d | d in monitors && (d !in visited || !stopped(monitors[d])) :: monitors[d]
  }

  /** The process names removed once `stop` has visited the documents of `visited`. */
  ghost function RemovedAfter(monitors: map<string, string>, visited: seq<string>, stopped: string -> bool): set<string> {
    set d | d in monitors && d in visited && stopped(monitors[d]) :: monitors[d]
  }

  /** Before any visit nothing is removed; after visiting every document once, `stop`'s outcome. */
  lemma VisitBounds(monitors: map<string, string>, docs: seq<string>, stopped: string -> bool)
    requires EnumeratesOnce(docs, monitors.Keys)
    ensures TrackedAfter(monitors, [], stopped) == monitors
    ensures RemovedAfter(monitors, [], stopped) == {}
    ensures TrackedAfter(monitors, docs, stopped) == MonitorsAfterStop(monitors, stopped)
    ensures RemovedAfter(monitors, docs, stopped) == StoppedMonitorNames(monitors, stopped)
  {
  }

  /** Visiting the next document of a list without repetitions. */
  lemma VisitStep(monitors: map<string, string>, docs: seq<string>, i: nat, stopped: string -> bool)
    requires i < |docs| && docs[i] in monitors
    requires forall j :: 0 <= j < i ==> docs[j] != docs[i]
    ensures docs[i] in TrackedAfter(monitors, docs[..i], stopped)
    ensures TrackedAfter(monitors, docs[..i + 1], stopped) ==
      if stopped(monitors[docs[i]]) then TrackedAfter(monitors, docs[..i], stopped) - {docs[i]}
      else TrackedAfter(monitors, docs[..i], stopped)
    ensures RemovedAfter(monitors, docs[..i + 1], stopped) ==
      RemovedAfter(monitors, docs[..i], stopped) + if stopped(monitors[docs[i]]) then {monitors[docs[i]]} else {}
    ensures StopCalls(docs[..i + 1]) == StopCalls(docs[..i]) + [StopCall(MonitorProcessName(docs[i]))]
  {
    assert docs[..i + 1] == docs[..i] + [docs[i]];
    StopCallsAppend(docs[..i], docs[i]);
  }

  datatype ServiceStatus = ServiceStatus(managed: bool, url: string, running: bool)

  /** What `get_status` reports. */
  datatype StatusReport = StatusReport(
    started: bool,
    sync: ServiceStatus,
    runtimes: map<string, ServiceStatus>,
    monitors: map<string, bool>,
    processes: map<string, ProcStatus>)

  /** What `get_urls` reports. */
  datatype Urls = Urls(sync: string, runtimes: map<string, string>, editor: Option<string>)

  class Orchestrator {
    const config: OrchestratorConfig
    const processes: ProcessManager
    /** Document name to the name of its monitor process. */
    var monitors: map<string, string>
    var started: bool

    /** Every tracked document maps to its own monitor process name. */
    ghost predicate Valid()
      reads this
    {
      forall d :: d in monitors ==> monitors[d] == MonitorProcessName(d)
    }

    constructor (config: OrchestratorConfig)
      ensures Valid()
      ensures this.config == config
      ensures fresh(processes) && processes.table == map[]
      ensures monitors == map[] && !started
    {
      this.config := config;
      processes := new ProcessManager();
      monitors := map[];
      started := false;
    }

    /**
     Starts the managed services once. A second call on a started
     orchestrator launches nothing and changes nothing.
     */
    method Start(packages: Packages, syncReport: ProcStatus, pythonReport: ProcStatus)
      requires Valid()
      modifies this, processes
      ensures Valid()
      // a started orchestrator makes no call at all
      ensures old(started) ==>
        && started && monitors == old(monitors)
        && processes.table == old(processes.table) && processes.calls == old(processes.calls)
      ensures !old(started) ==> started && monitors == old(monitors)
      ensures !old(started) ==>
        processes.table == old(processes.table) + ServiceLaunches(config, packages, syncReport, pythonReport)
      // one launch per service, the sync server first
      ensures !old(started) ==>
        processes.calls == old(processes.calls) + LaunchCalls(ServiceLaunches(config, packages, syncReport, pythonReport))
    {
      if started {
        return;
      }
      StartServices(packages, syncReport, pythonReport);
      started := true;
    }

    /** The launches of `start`: the sync server, then the loop over the runtimes. */
    method StartServices(packages: Packages, syncReport: ProcStatus, pythonReport: ProcStatus)
      modifies processes
      ensures processes.table == old(processes.table) + ServiceLaunches(config, packages, syncReport, pythonReport)
      ensures processes.calls ==
        old(processes.calls) + LaunchCalls(ServiceLaunches(config, packages, syncReport, pythonReport))
    {
      ghost var t0, c0 := processes.table, processes.calls;
      if config.sync.managed {
        StartSync(packages.sync, syncReport);
      }
      SyncLaunchStep(config, packages, syncReport, t0, c0, processes.table, processes.calls);
      ghost var t1, c1 := processes.table, processes.calls;
      StartRuntimes(packages.python, pythonReport);
      ServiceLaunchChain(config, packages, syncReport, pythonReport, t0, c0, t1, c1, processes.table, processes.calls);
    }

    /** The loop of `start` over the configured runtimes, launching the managed ones. */
    method StartRuntimes(pythonInstalled: bool, pythonReport: ProcStatus)
      modifies processes
      ensures processes.table == old(processes.table) + PythonLaunch(config, pythonInstalled, pythonReport)
      ensures processes.calls == old(processes.calls) + LaunchCalls(PythonLaunch(config, pythonInstalled, pythonReport))
    {
      ghost var launches := PythonLaunch(config, pythonInstalled, pythonReport);
      MapUnionFacts(old(processes.table), PythonProcess, pythonReport);
      var pending := config.runtimes.Keys;
      while pending != {}
        invariant pending <= config.runtimes.Keys
        invariant processes.table == old(processes.table) + if "python" in pending then map[] else launches
        invariant processes.calls == old(processes.calls) + if "python" in pending then [] else LaunchCalls(launches)
        decreases pending
      {
        var lang :| lang in pending;
        pending := pending - {lang};
        if config.runtimes[lang].managed {
          StartRuntime(lang, config.runtimes[lang], pythonInstalled, pythonReport);
        }
      }
    }

    /** Launches the sync server, unless its package is missing. */
    method StartSync(installed: bool, report: ProcStatus)
      modifies processes
      ensures processes.table == if installed then old(processes.table)[SyncProcess := report] else old(processes.table)
      ensures processes.calls == old(processes.calls) + if installed then [LaunchCall(SyncProcess)] else []
    {
      if !installed {
        return;
      }
      var _ := processes.Start(SyncProcess, report);
    }

    /** Launches the runtime of `language`; only "python" is known. */
    method StartRuntime(language: string, runtime: RuntimeConfig, installed: bool, report: ProcStatus)
      modifies processes
      ensures processes.table ==
        if language == "python" && installed then old(processes.table)[PythonProcess := report]
        else old(processes.table)
      ensures processes.calls ==
        old(processes.calls) + if language == "python" && installed then [LaunchCall(PythonProcess)] else []
    {
      if language == "python" {
        StartPythonRuntime(runtime, installed, report);
      }
    }

    /** Launches the python runtime, unless its package is missing. */
    method StartPythonRuntime(runtime: RuntimeConfig, installed: bool, report: ProcStatus)
      modifies processes
      ensures processes.table == if installed then old(processes.table)[PythonProcess := report] else old(processes.table)
      ensures processes.calls == old(processes.calls) + if installed then [LaunchCall(PythonProcess)] else []
    {
      if !installed {
        return;
      }
      var _ := processes.Start(PythonProcess, report);
    }

    /**
     Stops everything once started: first every tracked monitor, then every
     process. `stopped` says, per process name, whether the stop of a monitor
     succeeded; `allStopped` does the same for the blanket stop that follows.
     A monitor whose own stop failed stays tracked, whatever the blanket stop
     then does to its process.
     */
    method Stop(stopped: string -> bool, allStopped: string -> bool)
      requires Valid()
      modifies this, processes
      ensures Valid()
      ensures !old(started) ==>
        && !started && monitors == old(monitors)
        && processes.table == old(processes.table) && processes.calls == old(processes.calls)
      ensures old(started) ==> !started && monitors == MonitorsAfterStop(old(monitors), stopped)
      // one stop per tracked monitor, then the blanket stop
      ensures old(started) ==>
        exists docs :: EnumeratesOnce(docs, old(monitors).Keys) &&
          processes.calls == old(processes.calls) + StopCalls(docs) + [StopAllCall]
      ensures old(started) ==>
        processes.table ==
          Survivors(old(processes.table) - StoppedMonitorNames(old(monitors), stopped), allStopped)
      // when the blanket stop succeeds for every process, none is left
      ensures old(started) && (forall n :: allStopped(n)) ==> processes.table == map[]
    {
      if !started {
        return;
      }
      StopMonitors(stopped);
      ghost var docs :| EnumeratesOnce(docs, old(monitors).Keys) &&
        processes.calls == old(processes.calls) + StopCalls(docs);
      processes.StopAll(allStopped);
      assert EnumeratesOnce(docs, old(monitors).Keys) &&
        processes.calls == old(processes.calls) + StopCalls(docs) + [StopAllCall];
      started := false;
    }

    /**
     How far `stop` has got: the documents `docs[..i]` have been visited,
     starting from monitors `m0`, process table `t0` and call log `c0`.
     */
    ghost predicate StopProgress(m0: map<string, string>, t0: map<string, ProcStatus>, c0: seq<PmCall>,
                                 docs: seq<string>, i: nat, stopped: string -> bool)
      reads this, processes
    {
      && i <= |docs|
      && Valid()
      && monitors == TrackedAfter(m0, docs[..i], stopped)
      && processes.table == t0 - RemovedAfter(m0, docs[..i], stopped)
      && processes.calls == c0 + StopCalls(docs[..i])
    }

    /** The loop of `stop` over a list of the tracked documents, stopping each monitor. */
    method StopMonitors(stopped: string -> bool)
      requires Valid()
      modifies this, processes
      ensures Valid() && started == old(started)
      ensures monitors == MonitorsAfterStop(old(monitors), stopped)
      ensures processes.table == old(processes.table) - StoppedMonitorNames(old(monitors), stopped)
      ensures exists docs ::
        EnumeratesOnce(docs, old(monitors).Keys) && processes.calls == old(processes.calls) + StopCalls(docs)
    {
      var docs := GetMonitorDocs();
      assert EnumeratesOnce(docs, old(monitors).Keys);
      VisitBounds(old(monitors), docs, stopped);
      assert docs[..0] == [];
      for i := 0 to |docs|
        invariant StopProgress(old(monitors), old(processes.table), old(processes.calls), docs, i, stopped)
        invariant started == old(started)
      {
        StopVisit(old(monitors), old(processes.table), old(processes.calls), docs, i, stopped);
      }
      assert docs[..|docs|] == docs;
    }

    /** One round of the loop of `stop`: the monitor of `docs[i]` is asked to stop. */
    method StopVisit(ghost m0: map<string, string>, ghost t0: map<string, ProcStatus>, ghost c0: seq<PmCall>,
                     docs: seq<string>, i: nat, stopped: string -> bool)
      requires i < |docs| && EnumeratesOnce(docs, m0.Keys)
      requires forall d :: d in m0 ==> m0[d] == MonitorProcessName(d)
      requires StopProgress(m0, t0, c0, docs, i, stopped)
      modifies this, processes
      ensures StopProgress(m0, t0, c0, docs, i + 1, stopped) && started == old(started)
    {
      var doc := docs[i];
      var name := MonitorProcessName(doc);
      assert doc in m0 && forall j :: 0 <= j < i ==> docs[j] != docs[i];
      VisitStep(m0, docs, i, stopped);
      MapRemoveMore(t0, RemovedAfter(m0, docs[..i], stopped), name);
      ghost var tracked, table := monitors, processes.table;
      var _ := StopMonitor(doc, stopped(name));
      assert monitors == if stopped(name) then tracked - {doc} else tracked;
      assert processes.table == if stopped(name) then table - {name} else table;
    }

    /**
     Starts a monitor for `doc`. `installed` says whether the monitor package
     exists; `report` is the status the launch ends in. The document becomes
     tracked only when its monitor reports running.
     */
    method StartMonitor(doc: string, installed: bool, report: ProcStatus) returns (ok: bool)
      requires Valid()
      modifies this, processes
      ensures Valid() && started == old(started)
      // unmanaged, or package missing: refused, nothing changes
      ensures !config.monitor.managed || (doc !in old(monitors) && !installed) ==>
        && !ok && monitors == old(monitors)
        && processes.table == old(processes.table) && processes.calls == old(processes.calls)
      // already tracked: accepted, nothing is launched
      ensures config.monitor.managed && doc in old(monitors) ==>
        && ok && monitors == old(monitors)
        && processes.table == old(processes.table) && processes.calls == old(processes.calls)
      // otherwise one launch, tracked exactly when it reports running
      ensures config.monitor.managed && doc !in old(monitors) && installed ==>
        && processes.calls == old(processes.calls) + [LaunchCall(MonitorProcessName(doc))]
        && processes.table == old(processes.table)[MonitorProcessName(doc) := report]
        && ok == (report == Running)
        && monitors == if ok then old(monitors)[doc := MonitorProcessName(doc)] else old(monitors)
    {
      if !config.monitor.managed {
        return false;
      }
      if doc in monitors {
        return true;
      }
      if !installed {
        return false;
      }
      var name := MonitorProcessName(doc);
      var status := processes.Start(name, report);
      if status == Running {
        monitors := monitors[doc := name];
        ok := true;
      } else {
        ok := false;
      }
    }

    /**
     Stops the monitor of `doc`; `stopped` is whether its process was
     confirmed gone. The document stays tracked when the stop fails.
     */
    method StopMonitor(doc: string, stopped: bool) returns (ok: bool)
      requires Valid()
      modifies this, processes
      ensures Valid() && started == old(started)
      ensures doc !in old(monitors) ==>
        && ok && monitors == old(monitors)
        && processes.table == old(processes.table) && processes.calls == old(processes.calls)
      ensures doc in old(monitors) ==> ok == stopped
      ensures doc in old(monitors) ==> processes.calls == old(processes.calls) + [StopCall(MonitorProcessName(doc))]
      ensures doc in old(monitors) ==>
        monitors == (if stopped then old(monitors) - {doc} else old(monitors))
      ensures doc in old(monitors) ==>
        processes.table ==
          (if stopped then old(processes.table) - {MonitorProcessName(doc)} else old(processes.table))
    {
      if doc !in monitors || monitors[doc] == "" {
        return true;
      }
      var name := monitors[doc];
      ok := processes.Stop(name, stopped);
      if ok {
        monitors := monitors - {doc};
      }
    }

    /** The documents that have a tracked monitor, each once. */
    method GetMonitorDocs() returns (docs: seq<string>)
      ensures forall d :: d in docs <==> d in monitors
      ensures |docs| == |monitors|
      ensures forall i, j :: 0 <= i < j < |docs| ==> docs[i] != docs[j]
    {
      docs := [];
      var pending := monitors.Keys;
      while pending != {}
        invariant pending <= monitors.Keys
        invariant forall d :: d in docs <==> d in monitors && d !in pending
        invariant |docs| + |pending| == |monitors|
        invariant forall i, j :: 0 <= i < j < |docs| ==> docs[i] != docs[j]
        decreases pending
      {
        var doc :| doc in pending;
        pending := pending - {doc};
        docs := docs + [doc];
      }
    }

    /** A monitor runs for `doc` when `doc` is tracked and its process reports running. */
    predicate IsMonitorRunning(doc: string)
      reads this, processes
      ensures IsMonitorRunning(doc) ==> doc in monitors
      ensures Valid() ==>
        (IsMonitorRunning(doc) <==> doc in monitors && processes.IsRunning(MonitorProcessName(doc)))
    {
      doc in monitors && processes.IsRunning(monitors[doc])
    }

    /** A snapshot of the orchestrator's and every service's state. */
    function GetStatus(): (s: StatusReport)
      reads this, processes
      ensures s.started == started
      ensures s.sync == ServiceStatus(config.sync.managed, config.sync.url, processes.IsRunning(SyncProcess))
      ensures s.runtimes.Keys == config.runtimes.Keys
      ensures forall lang :: lang in s.runtimes ==>
        s.runtimes[lang] == ServiceStatus(config.runtimes[lang].managed, config.runtimes[lang].url,
                                          processes.IsRunning(RuntimeProcessName(lang)))
      ensures s.monitors.Keys == monitors.Keys
      ensures forall d :: d in s.monitors ==> (s.monitors[d] <==> IsMonitorRunning(d))
      ensures s.processes == processes.table
    {
      StatusReport(
        started,
        ServiceStatus(config.sync.managed, config.sync.url, processes.IsRunning(SyncProcess)),
        map lang | lang in config.runtimes ::
          ServiceStatus(config.runtimes[lang].managed, config.runtimes[lang].url,
                        processes.IsRunning(RuntimeProcessName(lang))),
        map d | d in monitors :: IsMonitorRunning(d),
        processes.table)
    }

    /** Where each service can be reached; the editor only when it is enabled. */
    function GetUrls(): (u: Urls)
      ensures u.sync == config.sync.url
      ensures u.runtimes.Keys == config.runtimes.Keys
      ensures forall lang :: lang in u.runtimes ==> u.runtimes[lang] == config.runtimes[lang].url
      ensures u.editor.None? <==> !config.editor.enabled
      ensures u.editor.Some? ==>
        var prefix := "http://localhost:";
        && |prefix| < |u.editor.value|
        && u.editor.value[..|prefix|] == prefix
        && IsCanonicalIntText(u.editor.value[|prefix|..])
        && ParseInt(u.editor.value[|prefix|..]) == config.editor.port
    {
      var editor := "http://localhost:" + IntToString(config.editor.port);
      assert editor[|"http://localhost:"|..] == IntToString(config.editor.port);
      Urls(
        config.sync.url,
        map lang | lang in config.runtimes :: config.runtimes[lang].url,
        if config.editor.enabled then Some(editor) else None)
    }
  }
}
