/**
 The decision logic of the HTTP API: what each monitor, session and file
 endpoint answers, and which calls it makes on its collaborators, in order.
 Routing, request parsing and the web framework are not modelled; an
 `HTTPException` is the `HttpError` reply, and the filesystem and the
 session layer are represented by their inputs and by the `Effect`s a
 handler asks of them.
 */
module Api {

  import opened Optional
  import opened Text
  import opened Config
  import opened Orchestration

  datatype Reply =
    | MonitorReply(doc: string, running: bool, message: string)
    | FileCreated(name: string, path: string)
    | FileDeleted(name: string)
    | SessionReply(info: map<string, string>)
    | SessionDestroyed(doc: string)
    | HttpError(status: int, detail: string)

  /** A call a handler makes on the docs directory or on the session layer. */
  datatype Effect =
    | MakeDocsDir
    | WriteFile(file: string, content: string)
    | Unlink(file: string)
    | CreateSessionCall(doc: string, python: string)
    | DestroySessionCall(doc: string)

  /** A handler's reply together with the calls it made, in order. */
  datatype Handled = Handled(reply: Reply, effects: seq<Effect>)

  function Quoted(s: string): string {
    "'" + s + "'"
  }

  // ---------------------------------------------------------------------------
  // File names
  // ---------------------------------------------------------------------------

  /** `str.isalnum` on one character, for ASCII letters and digits. */
  predicate IsAlnum(c: char) {
    ('a' <= c <= 'z') || ('A' <= c <= 'Z') || ('0' <= c <= '9')
  }

  /** The characters a file name may keep: alphanumerics, `-` and `_`. */
  predicate IsNameChar(c: char) {
    IsAlnum(c) || c == '-' || c == '_'
  }

  /** `a` can be obtained from `b` by deleting characters (matched greedily). */
  predicate IsSubsequence(a: string, b: string)
    decreases |b|
  {
    if a == [] then true
    else if b == [] then false
    else if a[0] == b[0] then IsSubsequence(a[1..], b[1..])
    else IsSubsequence(a, b[1..])
  }

  /** The generator `c for c in name if c.isalnum() or c in "-_"`, joined. */
  function KeepNameChars(s: string): (r: string)
    ensures forall k :: 0 <= k < |r| ==> IsNameChar(r[k])
    ensures IsSubsequence(r, s)
    ensures forall c {:trigger multiset(r)[c]} :: IsNameChar(c) ==> multiset(r)[c] == multiset(s)[c]
  {
    if s == [] then []
    else
      var rest := KeepNameChars(s[1..]);
      assert s == [s[0]] + s[1..];
      if IsNameChar(s[0]) then [s[0]] + rest else rest
  }

  /** The file stem `create_file` derives from a requested name. */
  function Sanitize(name: string): (r: string)
    ensures forall k :: 0 <= k < |r| ==> IsNameChar(r[k])
    ensures IsSubsequence(r, name)
    ensures forall c {:trigger multiset(r)[c]} :: IsNameChar(c) ==> multiset(r)[c] == multiset(name)[c]
  {
    var kept := KeepNameChars(name);
    StripWithoutSpaces(kept);
    Strip(kept)
  }

  /** Filtering a string that holds only name characters gives it back. */
  lemma {:induction false} KeepNameCharsOfNameChars(s: string)
    requires forall k :: 0 <= k < |s| ==> IsNameChar(s[k])
    ensures KeepNameChars(s) == s
  {
    if s != [] {
      KeepNameCharsOfNameChars(s[1..]);
    }
  }

  /** Sanitizing a sanitized name gives it back. */
  lemma SanitizeIdempotent(name: string)
    ensures Sanitize(Sanitize(name)) == Sanitize(name)
  {
    var safe := Sanitize(name);
    KeepNameCharsOfNameChars(safe);
  }

  /** The requested name: the request's `name` (empty when absent), stripped. */
  function RequestedName(request: map<string, string>): string {
    Strip(if "name" in request then request["name"] else "")
  }

  /**
   POST /api/files: creates `<stem>.md` in the docs directory. `existing`
   holds the file names already there.
   */
  function CreateFile(request: map<string, string>, existing: set<string>): (h: Handled)
    // an empty or all-whitespace name is refused before anything else
    ensures RequestedName(request) == [] <==> h.reply == HttpError(400, "Name is required")
    // a name with no character to keep is refused
    ensures RequestedName(request) != [] && Sanitize(RequestedName(request)) == [] <==>
      h.reply == HttpError(400, "Invalid filename")
    // success: a fresh `<stem>.md`, whose stem keeps the name's characters in order
    ensures h.reply.FileCreated? ==>
      && h.reply.name != []
      && (forall k :: 0 <= k < |h.reply.name| ==> IsNameChar(h.reply.name[k]))
      && IsSubsequence(h.reply.name, RequestedName(request))
      && h.reply.path == h.reply.name + ".md"
      && h.reply.path !in existing
      && |h.effects| == 2 && h.effects[0] == MakeDocsDir
      && h.effects[1].WriteFile? && h.effects[1].file == h.reply.path
    // the stem names a file that is already there: conflict
    ensures h.reply.HttpError? && h.reply.status == 409 <==>
      RequestedName(request) != [] && Sanitize(RequestedName(request)) != []
      && Sanitize(RequestedName(request)) + ".md" in existing
    // otherwise the file is created under the sanitized stem
    ensures
      && RequestedName(request) != [] && Sanitize(RequestedName(request)) != []
      && Sanitize(RequestedName(request)) + ".md" !in existing
      ==>
      h.reply == FileCreated(Sanitize(RequestedName(request)), Sanitize(RequestedName(request)) + ".md")
    // with the request's content, or a heading made of the requested name
    ensures h.reply.FileCreated? ==>
      h.effects[1].content == if "content" in request then request["content"]
                              else "# " + RequestedName(request) + "\n\nStart writing...\n"
    // a refused name makes no call; a conflict only follows the docs-dir creation
    ensures h.reply.HttpError? && h.reply.status == 400 ==> h.effects == []
    ensures h.reply.HttpError? && h.reply.status == 409 ==>
      h == Handled(HttpError(409, "File " + Quoted(Sanitize(RequestedName(request))) + " already exists"), [MakeDocsDir])
    // nothing is written unless the file is created
    ensures !h.reply.FileCreated? ==> forall e :: e in h.effects ==> !e.WriteFile?
    ensures h.reply.FileCreated? || h.reply.HttpError?
  {
    var name := RequestedName(request);
    if name == [] then
      Handled(HttpError(400, "Name is required"), [])
    else
      var safe := Sanitize(name);
      if safe == [] then
        Handled(HttpError(400, "Invalid filename"), [])
      else
        var file := safe + ".md";
        if file in existing then
          Handled(HttpError(409, "File " + Quoted(safe) + " already exists"), [MakeDocsDir])
        else
          var content := if "content" in request then request["content"]
                         else "# " + name + "\n\nStart writing...\n";
          Handled(FileCreated(safe, file), [MakeDocsDir, WriteFile(file, content)])
  }

  /**
   DELETE /api/files/{name}: a missing file is 404 and touches nothing;
   otherwise the document's session is destroyed before the file is removed.
   */
  function DeleteFile(name: string, existing: set<string>): (h: Handled)
    ensures name + ".md" !in existing ==>
      h == Handled(HttpError(404, "File " + Quoted(name) + " not found"), [])
    ensures name + ".md" in existing ==>
      h.reply == FileDeleted(name) && h.effects == [DestroySessionCall(name), Unlink(name + ".md")]
    ensures forall e :: e in h.effects ==> !e.WriteFile? && !e.CreateSessionCall?
  {
    var file := name + ".md";
    if file !in existing then
      Handled(HttpError(404, "File " + Quoted(name) + " not found"), [])
    else
      Handled(FileDeleted(name), [DestroySessionCall(name), Unlink(file)])
  }

  // ---------------------------------------------------------------------------
  // Sessions (the session layer's own behaviour is not part of this model)
  // ---------------------------------------------------------------------------

  /** Python truthiness of the session info: present and not empty. */
  predicate HasInfo(info: Option<map<string, string>>) {
    info.Some? && info.value != map[]
  }

  /** What the session layer's `create_session` then `get_session_info` produced. */
  datatype SessionOutcome =
    | Raised(message: string)
    | Returned(info: Option<map<string, string>>)

  predicate IsSessionMode(python: string) {
    python == "shared" || python == "dedicated"
  }

  /**
   POST /api/sessions. The missing-info error raised inside the `try` is
   caught by its own `except Exception` and re-raised as a 500 whose detail is
   the caught exception's text, `"500: <detail>"`.
   */
  function CreateSession(doc: string, python: string, outcome: SessionOutcome): (h: Handled)
    ensures !IsSessionMode(python) ==>
      h == Handled(HttpError(400, "Invalid python option: " + python + ". Must be 'shared' or 'dedicated'"), [])
    ensures IsSessionMode(python) ==> h.effects == [CreateSessionCall(doc, python)]
    ensures h.reply.SessionReply? <==> IsSessionMode(python) && outcome.Returned? && HasInfo(outcome.info)
    ensures h.reply.SessionReply? ==> h.reply.info == outcome.info.value && h.reply.info != map[]
    ensures IsSessionMode(python) && outcome.Raised? ==> h.reply == HttpError(500, outcome.message)
    ensures IsSessionMode(python) && outcome.Returned? && !HasInfo(outcome.info) ==>
      h.reply == HttpError(500, "500: Failed to create session for " + Quoted(doc))
  {
    if !IsSessionMode(python) then
      Handled(HttpError(400, "Invalid python option: " + python + ". Must be 'shared' or 'dedicated'"), [])
    else
      var call := [CreateSessionCall(doc, python)];
      match outcome
      case Raised(message) => Handled(HttpError(500, message), call)
      case Returned(info) =>
        if HasInfo(info) then Handled(SessionReply(info.value), call)
        else Handled(HttpError(500, "500: Failed to create session for " + Quoted(doc)), call)
  }

  /** An invalid mode is answered without consulting the session layer at all. */
  lemma InvalidModeIgnoresSessionLayer(doc: string, python: string, a: SessionOutcome, b: SessionOutcome)
    requires !IsSessionMode(python)
    ensures CreateSession(doc, python, a) == CreateSession(doc, python, b)
    ensures CreateSession(doc, python, a).effects == []
    ensures CreateSession(doc, python, a).reply.status == 400
  {
  }

  /** GET /api/sessions/{doc}: 404 unless the session layer reports some info. */
  function GetSession(doc: string, info: Option<map<string, string>>): (r: Reply)
    ensures r.HttpError? <==> !HasInfo(info)
    ensures r.HttpError? ==> r == HttpError(404, "No session for " + Quoted(doc))
    ensures r.SessionReply? ==> info == Some(r.info) && r.info != map[]
    ensures HasInfo(info) ==> r == SessionReply(info.value)
  {
    if !HasInfo(info) then HttpError(404, "No session for " + Quoted(doc)) else SessionReply(info.value)
  }

  /** DELETE /api/sessions/{doc}; `destroyed` is what `destroy_session` returned. */
  function DeleteSession(doc: string, destroyed: bool): (h: Handled)
    ensures h.effects == [DestroySessionCall(doc)]
    ensures h.reply.SessionDestroyed? <==> destroyed
    ensures h.reply.SessionDestroyed? ==> h.reply.doc == doc
    ensures !destroyed ==> h.reply == HttpError(500, "Failed to destroy session for " + Quoted(doc))
  {
    var call := [DestroySessionCall(doc)];
    if destroyed then Handled(SessionDestroyed(doc), call)
    else Handled(HttpError(500, "Failed to destroy session for " + Quoted(doc)), call)
  }

  // ---------------------------------------------------------------------------
  // Monitors
  // ---------------------------------------------------------------------------

  /** GET /api/monitors/{doc}. */
  function GetMonitor(o: Orchestrator, doc: string): (r: Reply)
    reads o, o.processes
    ensures r.MonitorReply? && r.doc == doc
    ensures r.running <==> o.IsMonitorRunning(doc)
    ensures r.running ==> doc in o.monitors
    ensures r.message == if r.running then "Monitor running" else "Monitor not running"
  {
    var running := o.IsMonitorRunning(doc);
    MonitorReply(doc, running, "Monitor " + (if running then "running" else "not running"))
  }

  /**
   POST /api/monitors. A running monitor is reported without calling
   `start_monitor`; otherwise `start_monitor`'s answer decides between a
   running reply and a 500.
   */
  method PostMonitor(o: Orchestrator, doc: string, installed: bool, report: ProcStatus) returns (r: Reply)
    requires o.Valid()
    modifies o, o.processes
    ensures o.Valid() && o.started == old(o.started)
    ensures old(o.IsMonitorRunning(doc)) ==>
      && r == MonitorReply(doc, true, "Monitor for " + Quoted(doc) + " already running")
      && o.monitors == old(o.monitors) && o.processes.table == old(o.processes.table)
      && o.processes.calls == old(o.processes.calls)
    ensures !old(o.IsMonitorRunning(doc)) ==>
      (r.MonitorReply? <==> o.config.monitor.managed && (doc in old(o.monitors) || (installed && report == Running)))
    ensures !old(o.IsMonitorRunning(doc)) && r.MonitorReply? ==>
      r == MonitorReply(doc, true, "Started monitor for " + Quoted(doc))
    ensures !old(o.IsMonitorRunning(doc)) && r.MonitorReply? ==>
      o.monitors == old(o.monitors)[doc := MonitorProcessName(doc)]
    ensures r.MonitorReply? ==> r.running && doc in o.monitors
    ensures !r.MonitorReply? ==>
      r == HttpError(500, "Failed to start monitor for " + Quoted(doc)) && o.monitors == old(o.monitors)
    // a launch happens only for an untracked document of a managed, installed monitor
    ensures !old(o.IsMonitorRunning(doc)) && o.config.monitor.managed && doc !in old(o.monitors) && installed ==>
      o.processes.table == old(o.processes.table)[MonitorProcessName(doc) := report]
    ensures !(o.config.monitor.managed && doc !in old(o.monitors) && installed) ==>
      o.processes.table == old(o.processes.table) && o.processes.calls == old(o.processes.calls)
    ensures !old(o.IsMonitorRunning(doc)) && o.config.monitor.managed && doc !in old(o.monitors) && installed ==>
      o.processes.calls == old(o.processes.calls) + [LaunchCall(MonitorProcessName(doc))]
  {
    if o.IsMonitorRunning(doc) {
      return MonitorReply(doc, true, "Monitor for " + Quoted(doc) + " already running");
    }
    var success := o.StartMonitor(doc, installed, report);
    if success {
      r := MonitorReply(doc, true, "Started monitor for " + Quoted(doc));
    } else {
      r := HttpError(500, "Failed to start monitor for " + Quoted(doc));
    }
  }

  /**
   DELETE /api/monitors/{doc}. A monitor that is not running is reported
   without calling `stop_monitor`; otherwise `stop_monitor`'s answer decides
   between a stopped reply and a 500.
   */
  method DeleteMonitor(o: Orchestrator, doc: string, stopped: bool) returns (r: Reply)
    requires o.Valid()
    modifies o, o.processes
    ensures o.Valid() && o.started == old(o.started)
    ensures !old(o.IsMonitorRunning(doc)) ==>
      && r == MonitorReply(doc, false, "Monitor for " + Quoted(doc) + " not running")
      && o.monitors == old(o.monitors) && o.processes.table == old(o.processes.table)
      && o.processes.calls == old(o.processes.calls)
    ensures old(o.IsMonitorRunning(doc)) && stopped ==>
      && r == MonitorReply(doc, false, "Stopped monitor for " + Quoted(doc))
      && o.monitors == old(o.monitors) - {doc}
      && o.processes.table == old(o.processes.table) - {MonitorProcessName(doc)}
      && o.processes.calls == old(o.processes.calls) + [StopCall(MonitorProcessName(doc))]
      && !o.IsMonitorRunning(doc)
    ensures old(o.IsMonitorRunning(doc)) && !stopped ==>
      && r == HttpError(500, "Failed to stop monitor for " + Quoted(doc))
      && o.monitors == old(o.monitors) && o.processes.table == old(o.processes.table)
      && o.processes.calls == old(o.processes.calls) + [StopCall(MonitorProcessName(doc))]
  {
    if !o.IsMonitorRunning(doc) {
      return MonitorReply(doc, false, "Monitor for " + Quoted(doc) + " not running");
    }
    var success := o.StopMonitor(doc, stopped);
    if success {
      r := MonitorReply(doc, false, "Stopped monitor for " + Quoted(doc));
    } else {
      r := HttpError(500, "Failed to stop monitor for " + Quoted(doc));
    }
  }

  /**
   A document stays tracked when its monitor fails its own stop during
   `stop`, even when the blanket stop that follows ends its process; after
   that, POST answers "running" for it without launching anything, because
   `start_monitor` only checks whether the document is tracked. (The command
   line entry point shuts the server down before it calls `stop`, so a live
   server meets this through a monitor that exits on its own instead.)
   */
  method StaleMonitorIsReportedRunning()
  {
    var config := OrchestratorConfig(
      Unset, SyncConfig(false, "ws://localhost:4444", Unset, Unset), map[],
      MonitorConfig(true), EditorConfig(true, 8080), Unset);
    var o := new Orchestrator(config);
    o.Start(Packages(false, false, true), Running, Running);
    var ok := o.StartMonitor("notes", true, Running);
    assert ok && o.IsMonitorRunning("notes");
    o.Stop(name => false, name => true);
    assert "notes" in o.monitors && !o.IsMonitorRunning("notes");
    var r := PostMonitor(o, "notes", true, Running);
    assert r == MonitorReply("notes", true, "Started monitor for " + Quoted("notes"));
    assert !o.IsMonitorRunning("notes") && o.processes.table == map[];
  }
}
