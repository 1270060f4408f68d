# sublime-hooks, modelled in Dafny

sublime-hooks is an editor plugin. Users bind editor lifecycle events (a file
opened, saved, activated, closed, ...) to editor commands in their settings.
On an event named `namespace`, the listener does three things. It collects
the command descriptors stored under `<namespace>_user`, `<namespace>_project`
and `<namespace>_language`. It picks where each command runs: the view, the
application or a window. It runs the command with arguments expanded against
variables that describe the view's own file.

This project models that listener (`HooksListener.get_hooks`, `run_hooks`
and `run_cmd`) and proves what it promises:

- `wrappers.dfy`: `Option` and `Result`.
- `errors.dfy` (module `Errors`): the exceptions the listener can raise.
- `values.dfy` (module `Values`): the JSON-shaped values read from settings.
  It gives Python's truth test, `dict.get` / `d[key]` lookups, and what
  `cmds += (v or [])` appends. Dicts are insertion-ordered association lists.
- `host.dfy` (module `Host`): a view as the listener sees it (its settings,
  its window, its file name). The editor services it calls are uninterpreted
  functions in a `Host` record: the active window, a window's variables,
  path decomposition and variable expansion. A command run is recorded as an
  `Invocation` (target, command, arguments).
- `hooks.dfy` (module `Hooks`): layered lookup (`HookCommands`, `GetHooks`),
  scope choice (`ChooseTarget`), the file-variable rewrite (`FileVariables`,
  `RewriteFileVariables`, `ClearFileVariables`), dispatch of one descriptor
  (`Dispatch`, `RunCmd`) and the run of all of them (`RunHooks`,
  `RunCommands`, `RunAll`, `RanInOrder`).

The listener builds its command list and its variables dict step by step,
and it loops over the commands. The model keeps those steps as methods with
local state and loops (`GetHooks`, `RewriteFileVariables`,
`ClearFileVariables`, `RunCmd`, `RunCommands`, `RunHooks`). Each method is
proved either equal to a functional reference definition, whose promised
properties are proved as lemmas, or directly against the property it keeps.
An exception in the source is an `Err` / `failure` value in the model.

The exception for an unrecognized scope carries the literal text
`Scope key "%s" for `hooks` plugin was not recognized.`. The placeholder is
never filled in, so the model's error (`UnrecognizedScope(ScopeMessage)`) is
the same for every bad scope and does not contain the key.

## Model

| member | source | states |
|---|---|---|
| `Values.Contribution` | hooks.py:16-18 | A false setting (missing, None, false, 0, empty) adds nothing. A list adds its items. A string adds its characters and a dict its keys, in order. A true number or boolean is a TypeError. |
| `Values.Get` | hooks.py:36 | `d.get(key, default)`: the default exactly when the key is absent, otherwise the stored value. |
| `Values.Lookup` | hooks.py:72 | `d[key]` finds a value exactly when the key is present, and that value is the one stored under the key's first occurrence. |
| `Hooks.HookCommandsLayered` | hooks.py:15-21 | The command list is the user layer's commands, then the project layer's, then the language layer's, each in its own order. Its length is the sum of the three contributions, and it is empty when all three settings are false. It fails with a TypeError exactly when some layer cannot be iterated. |
| `Hooks.GetHooks` | hooks.py:8-21 | Building the list one layer at a time with `+=` gives exactly the layered command list. |
| `Hooks.ChooseTarget` | hooks.py:33-46 | No scope or a false one gives the view. `'app'` gives the application. `'window'` gives the view's window, or the active window when the view has none. Any other true scope is an error, and only then; the error's message is the same for every scope. |
| `Hooks.Extension` | hooks.py:61 | The extension is the suffix without its first character; it is "" when there is no suffix. A suffix that starts with '.' is "." followed by the extension. |
| `Hooks.FileVariablesRewrite` | hooks.py:52-68 | With a file name, `file`, `file_path`, `file_base_name`, `file_extension` and `file_name` take the values derived from the view's path. Without one, none of the five keys is left. Every other variable keeps its value and no other key appears. |
| `Hooks.FileNameJoinsBaseAndExtension` | hooks.py:59-62 | For a path whose name is its stem followed by its suffix, and whose suffix is either "" or '.' followed by at least one character, `file_extension` is "" exactly when the suffix is "", and `file_name` is `file_base_name` when `file_extension` is "", else `file_base_name` + "." + `file_extension`. |
| `Hooks.RewriteFileVariables` | hooks.py:51-62 | The five assignments, or the deletion loop when there is no file name, give exactly the rewritten variables. |
| `Hooks.ClearFileVariables` | hooks.py:66-68 | Deleting each file key that is present leaves exactly the variables that are not file keys, with their values. Deleting an absent key does nothing. |
| `Hooks.DispatchOutcome` | hooks.py:31-72 | A descriptor that is not a dict fails. A true unrecognized scope fails with the scope error before any command runs, whatever else the descriptor holds. Otherwise a descriptor with a `command` runs that command on the chosen target. Its `args` (default `{}`) are expanded against the rewritten variables when the view has a window, and passed on unchanged when it has none. A descriptor without `command` fails. |
| `Hooks.RunCmd` | hooks.py:31-72 | Updating the scope through the branches, then the arguments, then reading the command gives exactly the dispatch of the descriptor. |
| `Hooks.RunCommands` | hooks.py:28-29 | The loop over the descriptors produces the run that the description fixes, and the run the recursive reference definition gives. |
| `Hooks.RunAllRanInOrder` | hooks.py:28-29 | Running the descriptors one after the other issues one invocation per descriptor, in list order, up to the first one that raises. The failure is that descriptor's exception, or none when all ran. |
| `Hooks.RanInOrderUnique` | hooks.py:25-29 | That description of a run fixes the run: two traces and failures that satisfy it are equal. |
| `Hooks.RunStopsAtFirstFailure` | hooks.py:27-29 | When every descriptor dispatches, all of them run, each exactly once. When descriptor `k` is the first that raises (an unrecognized scope, say), exactly the `k` before it have run, and the failure is its exception. |
| `Hooks.RunHooks` | hooks.py:23-29 | When the command list cannot be built, nothing runs and its error is raised. Otherwise `run_cmd` is applied to every command get_hooks returns, in order, stopping at the first exception. The trace and failure equal the recursive reference run. |

## Left out

- Editor services: `view.settings()`, `view.window()`, `view.file_name()`, `sublime.active_window()` and `window.extract_variables()` are inputs (a `View` snapshot and the `Host` record). How the editor itself layers user, project and syntax settings is the editor's.
- `sublime.expand_variables` is an uninterpreted function of the arguments and the variables; its templating rules belong to the editor.
- `pathlib.Path` decomposition (`str`, `parent`, `stem`, `suffix`, `name`) is an uninterpreted function. Only what the listener adds on top is proved: the stripped leading dot and the empty-suffix case.
- `scope.run_command`: what a command does once issued is the editor's. The model records the invocation. Commands that change the view (its window, its file name) while later hooks are still pending are not modelled: every descriptor of one event sees the same view snapshot.
- The registration loop over `ST_HOOKS` (hooks.py:76-113): it only installs one callback per event name that calls `run_hooks` with that name.
- The threading of the `_async` callbacks belongs to the editor.
- Dict keys: a dict is an association list, and lookups take the first occurrence of a key. Settings decoded from JSON have distinct keys, so this matches Python's dict.
