/**
 * The hooks listener: on an editor event named `namespace`, collect the
 * command descriptors configured for it in the view's settings and run
 * each one on the view, the application or a window, with its arguments
 * expanded against variables that describe the view's own file.
 */
module Hooks {
  import opened Wrappers
  import opened Values
  import opened Host
  import opened Errors

  /** The text of the unrecognized-scope exception: the placeholder is never filled in. */
  const ScopeMessage: string := "Scope key \"%s\" for `hooks` plugin was not recognized."

  // ---------------------------------------------------------------------------
  // Layered lookup (get_hooks)
  // ---------------------------------------------------------------------------

  /** The commands for `namespace`: user layer, then project layer, then language layer. */
  function HookCommands(settings: map<string, Value>, namespace: string): Result<seq<Value>, Error> {
    var user :- Contribution(Setting(settings, namespace + "_user"));
    var project :- Contribution(Setting(settings, namespace + "_project"));
    var language :- Contribution(Setting(settings, namespace + "_language"));
    Ok(user + project + language)
  }

  /**
   * The three layers keep their order and their own internal order: the
   * user's commands come first, then the project's, then the language's,
   * and a layer whose setting is missing, None or otherwise false adds nothing.
   */
  lemma HookCommandsLayered(settings: map<string, Value>, namespace: string)
    ensures
      var u := Setting(settings, namespace + "_user");
      var p := Setting(settings, namespace + "_project");
      var l := Setting(settings, namespace + "_language");
      var r := HookCommands(settings, namespace);
      && (r.Ok? <==> Contribution(u).Ok? && Contribution(p).Ok? && Contribution(l).Ok?)
      && (r.Err? ==> r.error == NotIterable)
      && (r.Ok? ==>
            && |r.value| == |Contribution(u).value| + |Contribution(p).value| + |Contribution(l).value|
            && r.value[..|Contribution(u).value|] == Contribution(u).value
            && r.value[|Contribution(u).value|..|Contribution(u).value| + |Contribution(p).value|] == Contribution(p).value
            && r.value[|Contribution(u).value| + |Contribution(p).value|..] == Contribution(l).value)
      && (r.Ok? && !Truthy(u) && !Truthy(p) && !Truthy(l) ==> r.value == [])
  {
  }

  /** get_hooks: builds the command list one layer at a time. */
  method GetHooks(view: View, namespace: string) returns (r: Result<seq<Value>, Error>)
    ensures r == HookCommands(view.settings, namespace)
  {
    var viewSettings := view.settings;
    var cmds: seq<Value> := [];
    var user := Contribution(Setting(viewSettings, namespace + "_user"));
    if user.Err? {
      return Err(user.error);
    }
    cmds := cmds + user.value;
    assert cmds == user.value;
    var project := Contribution(Setting(viewSettings, namespace + "_project"));
    if project.Err? {
      return Err(project.error);
    }
    cmds := cmds + project.value;
    var language := Contribution(Setting(viewSettings, namespace + "_language"));
    if language.Err? {
      return Err(language.error);
    }
    cmds := cmds + language.value;
    return Ok(cmds);
  }

  // ---------------------------------------------------------------------------
  // Scope selection
  // ---------------------------------------------------------------------------

  predicate RecognizedScope(scopeKey: Value) {
    scopeKey == Str("app") || scopeKey == Str("window")
  }

  /**
   * Where a descriptor's command runs: a false or absent scope means the
   * view, 'app' the application, 'window' the view's window or, when the
   * view has none, the active window; any other scope is an error whose
   * message does not depend on the scope given.
   */
  function ChooseTarget(scopeKey: Value, view: View, activeWindow: WindowId): (r: Result<Target, Error>)
    ensures r.Err? <==> Truthy(scopeKey) && !RecognizedScope(scopeKey)
    ensures r.Err? ==> r.error == UnrecognizedScope(ScopeMessage)
    ensures !Truthy(scopeKey) ==> r == Ok(ViewScope(view.id))
    ensures scopeKey == Str("app") ==> r == Ok(AppScope)
    ensures scopeKey == Str("window") ==> r == Ok(WindowScope(view.window.GetOr(activeWindow)))
  {
    if !Truthy(scopeKey) then Ok(ViewScope(view.id))
    else if scopeKey == Str("app") then Ok(AppScope)
    else if scopeKey == Str("window") then
      Ok(WindowScope(if view.window.Some? then view.window.value else activeWindow))
    else Err(UnrecognizedScope(ScopeMessage))
  }

  // ---------------------------------------------------------------------------
  // File variables
  // ---------------------------------------------------------------------------

  /** The variables that describe the file of the view, in the order they are cleared. */
  const FileKeys: seq<string> := ["file", "file_path", "file_base_name", "file_extension", "file_name"]

  predicate IsFileKey(key: string) {
    key in FileKeys
  }

  /** A view has a file name when it reports a non-empty one. */
  predicate HasFileName(fileName: Option<string>) {
    fileName.Some? && fileName.value != ""
  }

  /** The editor's extension: the path suffix without its leading dot, or "" when there is none. */
  function Extension(suffix: string): (e: string)
    ensures suffix == "" ==> e == ""
    ensures suffix != "" ==> |e| == |suffix| - 1 && suffix == suffix[..1] + e
    ensures suffix != "" && suffix[0] == '.' ==> suffix == "." + e
  {
    if suffix != "" then suffix[1..] else ""
  }

  /** The five file variables derived from a decomposed path. */
  function PathVariables(p: PathParts): map<string, string> {
    map[
      "file" := p.text,
      "file_path" := p.parent,
      "file_base_name" := p.stem,
      "file_extension" := Extension(p.suffix),
      "file_name" := p.name]
  }

  /** The variables after the rewrite: the path's five file variables, or none of them. */
  function FileVariables(variables: map<string, string>, fileName: Option<string>, parsePath: string -> PathParts): map<string, string> {
    if HasFileName(fileName) then variables + PathVariables(parsePath(fileName.value))
    else map k | k in variables && !IsFileKey(k) :: variables[k]
  }

  /**
   * With a file name, the five file keys take the values derived from the
   * view's path; without one, none of them is left; every other variable
   * keeps its value either way, and no other key appears.
   */
  lemma FileVariablesRewrite(variables: map<string, string>, fileName: Option<string>, parsePath: string -> PathParts)
    ensures
      var r := FileVariables(variables, fileName, parsePath);
      && (forall k :: k in variables && !IsFileKey(k) ==> k in r && r[k] == variables[k])
      && (forall k :: k in r && !IsFileKey(k) ==> k in variables)
      && (HasFileName(fileName) ==>
            var p := parsePath(fileName.value);
            && "file" in r && r["file"] == p.text
            && "file_path" in r && r["file_path"] == p.parent
            && "file_base_name" in r && r["file_base_name"] == p.stem
            && "file_extension" in r && r["file_extension"] == Extension(p.suffix)
            && "file_name" in r && r["file_name"] == p.name)
      && (!HasFileName(fileName) ==> forall k :: k in r ==> !IsFileKey(k))
  {
  }

  /**
   * With a path whose name is its stem followed by its suffix, and whose
   * suffix is empty or a dot followed by at least one character, the
   * file name is the base name joined to the extension by a dot.
   */
  lemma FileNameJoinsBaseAndExtension(p: PathParts)
    requires p.name == p.stem + p.suffix
    requires p.suffix == "" || (|p.suffix| >= 2 && p.suffix[0] == '.')
    ensures
      var v := PathVariables(p);
      && (v["file_extension"] == "" <==> p.suffix == "")
      && v["file_name"] == if v["file_extension"] == "" then v["file_base_name"]
                           else v["file_base_name"] + "." + v["file_extension"]
  {
  }

  /** Rewrites the file variables step by step: five assignments, or a deletion loop. */
  method RewriteFileVariables(variables: map<string, string>, fileName: Option<string>, parsePath: string -> PathParts)
    returns (vars: map<string, string>)
    ensures vars == FileVariables(variables, fileName, parsePath)
  {
    vars := variables;
    if fileName.Some? && fileName.value != "" {
      var filePath := parsePath(fileName.value);
      vars := vars["file" := filePath.text];
      vars := vars["file_path" := filePath.parent];
      vars := vars["file_base_name" := filePath.stem];
      vars := vars["file_extension" := if filePath.suffix != "" then filePath.suffix[1..] else ""];
      vars := vars["file_name" := filePath.name];
      var expected := variables + PathVariables(filePath);
      assert vars.Keys == expected.Keys;
      assert forall k :: k in vars ==> vars[k] == expected[k];
    } else {
      vars := ClearFileVariables(vars);
    }
  }

  /** The deletion loop: removes each file key that is present, and nothing else. */
  method ClearFileVariables(variables: map<string, string>) returns (vars: map<string, string>)
    ensures forall k :: k in vars <==> k in variables && !IsFileKey(k)
    ensures forall k :: k in vars ==> vars[k] == variables[k]
  {
    vars := variables;
    for i := 0 to |FileKeys|
      invariant forall k :: k in vars <==> k in variables && k !in FileKeys[..i]
      invariant forall k :: k in vars ==> vars[k] == variables[k]
    {
      var key := FileKeys[i];
      if key in vars {
        vars := vars - {key};
      }
    }
    assert FileKeys[..|FileKeys|] == FileKeys;
  }

  // ---------------------------------------------------------------------------
  // Dispatch of one descriptor (run_cmd)
  // ---------------------------------------------------------------------------

  /** The arguments passed to the command: `args` (default {}), expanded only when the view has a window. */
  function CommandArgs(view: View, fields: seq<(string, Value)>, host: Host): Value {
    var args := Get(fields, "args", Dict([]));
    if view.window.Some? then
      host.expand(args, FileVariables(host.variablesOf(view.window.value), view.fileName, host.parsePath))
    else args
  }

  /** The command run for one descriptor, or the exception raised instead. */
  function Dispatch(view: View, cmd: Value, host: Host): Result<Invocation, Error> {
    if !cmd.Dict? then Err(NotAMapping)
    else
      match ChooseTarget(Get(cmd.fields, "scope", Null), view, host.activeWindow)
      case Err(e) => Err(e)
      case Ok(target) =>
        match Lookup(cmd.fields, "command")
        case None => Err(MissingCommand)
        case Some(command) => Ok(Invocation(target, command, CommandArgs(view, cmd.fields, host)))
  }

  /**
   * What a caller of `Dispatch` can rely on without unfolding it: success
   * exactly when the descriptor is a dict, its scope is recognized or false,
   * and it holds a 'command' key; the scope error takes precedence over a
   * missing command, since the scope is checked first; and the target,
   * command and arguments of a success.
   */
  lemma DispatchOutcome(view: View, cmd: Value, host: Host)
    ensures var r := Dispatch(view, cmd, host);
      && (!cmd.Dict? ==> r == Err(NotAMapping))
      && (cmd.Dict? ==>
            var scopeKey := Get(cmd.fields, "scope", Null);
            && (r.Ok? <==> !(Truthy(scopeKey) && !RecognizedScope(scopeKey)) && HasKey(cmd.fields, "command"))
            && (Truthy(scopeKey) && !RecognizedScope(scopeKey) ==> r == Err(UnrecognizedScope(ScopeMessage)))
            && (!(Truthy(scopeKey) && !RecognizedScope(scopeKey)) && !HasKey(cmd.fields, "command") ==> r == Err(MissingCommand))
            && (r.Ok? ==> Ok(r.value.target) == ChooseTarget(scopeKey, view, host.activeWindow))
            && (r.Ok? ==> Some(r.value.command) == Lookup(cmd.fields, "command")))
      && (r.Ok? && view.window.None? ==> r.value.args == Get(cmd.fields, "args", Dict([])))
      && (r.Ok? && view.window.Some? ==>
            r.value.args == host.expand(Get(cmd.fields, "args", Dict([])),
                                        FileVariables(host.variablesOf(view.window.value), view.fileName, host.parsePath)))
  {
  }

  /** run_cmd: picks the scope, rewrites the variables, expands the arguments. */
  method RunCmd(view: View, cmd: Value, host: Host) returns (r: Result<Invocation, Error>)
    ensures r == Dispatch(view, cmd, host)
  {
    var scope := ViewScope(view.id);
    if !cmd.Dict? {
      return Err(NotAMapping);
    }
    var scopeKey := Get(cmd.fields, "scope", Null);
    if Truthy(scopeKey) {
      if scopeKey == Str("app") {
        scope := AppScope;
      } else if scopeKey == Str("window") {
        scope := WindowScope(if view.window.Some? then view.window.value else host.activeWindow);
      } else {
        return Err(UnrecognizedScope(ScopeMessage));
      }
    }
    var args := Get(cmd.fields, "args", Dict([]));
    if view.window.Some? {
      var variables := host.variablesOf(view.window.value);
      variables := RewriteFileVariables(variables, view.fileName, host.parsePath);
      args := host.expand(args, variables);
    }
    var command := Lookup(cmd.fields, "command");
    if command.None? {
      return Err(MissingCommand);
    }
    return Ok(Invocation(scope, command.value, args));
  }

  // ---------------------------------------------------------------------------
  // Running every hook (run_hooks)
  // ---------------------------------------------------------------------------

  /**
   * `trace` is what running `cmds` in order issues: one invocation per
   * descriptor, in list order, up to the first descriptor that raises;
   * `failure` is that exception, or None when every descriptor ran.
   */
  predicate RanInOrder(view: View, cmds: seq<Value>, host: Host, trace: seq<Invocation>, failure: Option<Error>) {
    && |trace| <= |cmds|
    && (forall i :: 0 <= i < |trace| ==> Dispatch(view, cmds[i], host) == Ok(trace[i]))
    && (failure.None? ==> |trace| == |cmds|)
    && (failure.Some? ==> |trace| < |cmds| && Dispatch(view, cmds[|trace|], host) == Err(failure.value))
  }

  /** The outcome of running a list of descriptors: the invocations issued, and the exception that stopped them. */
  datatype Run = Run(trace: seq<Invocation>, failure: Option<Error>)

  /** Running descriptors as a recursive definition: the first one, then the rest, unless the first raises. */
  function RunAll(view: View, cmds: seq<Value>, host: Host): Run {
    if cmds == [] then Run([], None)
    else
      match Dispatch(view, cmds[0], host)
      case Err(e) => Run([], Some(e))
      case Ok(invocation) =>
        var rest := RunAll(view, cmds[1..], host);
        Run([invocation] + rest.trace, rest.failure)
  }

  /** The recursive definition issues the commands in list order and stops at the first exception. */
  lemma {:induction false} RunAllRanInOrder(view: View, cmds: seq<Value>, host: Host)
    ensures RanInOrder(view, cmds, host, RunAll(view, cmds, host).trace, RunAll(view, cmds, host).failure)
  {
    if cmds != [] && Dispatch(view, cmds[0], host).Ok? {
      var rest := RunAll(view, cmds[1..], host);
      RunAllRanInOrder(view, cmds[1..], host);
      var run := RunAll(view, cmds, host);
      assert run.trace == [Dispatch(view, cmds[0], host).value] + rest.trace;
      forall i | 1 <= i < |run.trace| ensures Dispatch(view, cmds[i], host) == Ok(run.trace[i]) {
        assert cmds[i] == cmds[1..][i - 1];
      }
      if run.failure.Some? {
        assert cmds[|run.trace|] == cmds[1..][|rest.trace|];
      }
    }
  }

  /** The loop of run_hooks: `run_cmd` on each descriptor in turn, until one raises. */
  method RunCommands(view: View, cmds: seq<Value>, host: Host) returns (trace: seq<Invocation>, failure: Option<Error>)
    ensures RanInOrder(view, cmds, host, trace, failure)
    ensures Run(trace, failure) == RunAll(view, cmds, host)
  {
    trace, failure := [], None;
    var i := 0;
    while i < |cmds| && failure.None?
      invariant 0 <= i <= |cmds|
      invariant failure.None? ==> |trace| == i
      invariant failure.Some? ==> |trace| == i - 1 && Dispatch(view, cmds[i - 1], host) == Err(failure.value)
      invariant forall j :: 0 <= j < |trace| ==> Dispatch(view, cmds[j], host) == Ok(trace[j])
    {
      var r := RunCmd(view, cmds[i], host);
      if r.Err? {
        failure := Some(r.error);
      } else {
        trace := trace + [r.value];
      }
      i := i + 1;
    }
    RunAllRanInOrder(view, cmds, host);
    RanInOrderUnique(view, cmds, host, trace, failure, RunAll(view, cmds, host).trace, RunAll(view, cmds, host).failure);
  }

  /** run_hooks: runs every command get_hooks returns, stopping at the first exception. */
  method RunHooks(view: View, namespace: string, host: Host) returns (trace: seq<Invocation>, failure: Option<Error>)
    ensures HookCommands(view.settings, namespace).Err? ==>
      trace == [] && failure == Some(HookCommands(view.settings, namespace).error)
    ensures HookCommands(view.settings, namespace).Ok? ==>
      RanInOrder(view, HookCommands(view.settings, namespace).value, host, trace, failure)
    ensures HookCommands(view.settings, namespace).Ok? ==>
      Run(trace, failure) == RunAll(view, HookCommands(view.settings, namespace).value, host)
  {
    var cmds := GetHooks(view, namespace);
    if cmds.Err? {
      return [], Some(cmds.error);
    }
    trace, failure := RunCommands(view, cmds.value, host);
  }

  /** The description of a run fixes the run: at most one trace and failure satisfy it. */
  lemma RanInOrderUnique(view: View, cmds: seq<Value>, host: Host,
                         trace1: seq<Invocation>, failure1: Option<Error>,
                         trace2: seq<Invocation>, failure2: Option<Error>)
    requires RanInOrder(view, cmds, host, trace1, failure1)
    requires RanInOrder(view, cmds, host, trace2, failure2)
    ensures trace1 == trace2 && failure1 == failure2
  {
  }

  /**
   * When every descriptor dispatches, every one of them runs exactly once,
   * in list order; when descriptor `k` is the first that raises (an
   * unrecognized scope, say), exactly the `k` before it have run and
   * nothing from `k` on.
   */
  lemma RunStopsAtFirstFailure(view: View, cmds: seq<Value>, host: Host,
                               trace: seq<Invocation>, failure: Option<Error>, k: int)
    requires RanInOrder(view, cmds, host, trace, failure)
    requires 0 <= k <= |cmds|
    requires forall j :: 0 <= j < k ==> Dispatch(view, cmds[j], host).Ok?
    requires k < |cmds| ==> Dispatch(view, cmds[k], host).Err?
    ensures |trace| == k
    ensures k == |cmds| ==> failure.None?
    ensures k < |cmds| ==> failure == Some(Dispatch(view, cmds[k], host).error)
  {
  }
}
