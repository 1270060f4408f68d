/**
 * The editor's objects as the listener sees them. The editor itself is not
 * part of this model: a view is a snapshot of what the listener asks it
 * for, and the editor services the listener calls (the active window, a
 * window's variables, path decomposition and variable expansion) are
 * uninterpreted functions gathered in `Host`.
 */
module Host {
  import opened Wrappers
  import opened Values

  type ViewId = int
  type WindowId = int

  /**
   * What `view.settings()`, `view.window()` and `view.file_name()` answer.
   * A setting that is not present reads as `Null`, as `settings.get(key)` gives None.
   */
  datatype View = View(
    id: ViewId,
    settings: map<string, Value>,
    window: Option<WindowId>,
    fileName: Option<string>)

  /**
   * The decomposition of a file name by the path library: `str(p)`,
   * `str(p.parent)`, `p.stem`, `p.suffix` (empty, or starting with '.') and `p.name`.
   */
  datatype PathParts = PathParts(text: string, parent: string, stem: string, suffix: string, name: string)

  /** The editor services the listener calls, whose behaviour is the editor's. */
  datatype Host = Host(
    activeWindow: WindowId,
    variablesOf: WindowId -> map<string, string>,
    parsePath: string -> PathParts,
    expand: (Value, map<string, string>) -> Value)

  /** Who runs a command: the view, the whole application, or a window. */
  datatype Target = ViewScope(view: ViewId) | AppScope | WindowScope(window: WindowId)

  /** One `scope.run_command(command, args)` call. */
  datatype Invocation = Invocation(target: Target, command: Value, args: Value)

  /** `settings.get(key)`: the stored value, or None when the key is absent. */
  function Setting(settings: map<string, Value>, key: string): Value
  {
    if key in settings then settings[key] else Null
  }
}
