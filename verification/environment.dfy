/**
 The abstract world the discovery code runs in (`Env`) and the module-level
 state of `cupy/_environment.py` (`State`): the three memo caches, the cached
 preload configuration, the `_preload_libs` table, the trace and the warnings.
 */
module Environment {
  import opened Wrappers
  import opened DiagnosticLog

  /** A Python value that is a string or `None`. */
  type PyStr = Option<string>

  /** The caches' "not computed yet" sentinel is the empty string; `None`
      records that the item was looked for and not found. */
  const Uninitialised: PyStr := Some("")

  /** Opaque token standing for a `ctypes.CDLL` object. */
  datatype Handle = Handle(id: nat)

  /** What `ctypes.CDLL(name)` does: return a handle or raise. */
  datatype LoadOutcome = Loaded(handle: Handle) | LoadRaised(exception: string, message: string)

  /** A value of the parsed `_wheel.json` object. `shown` is the `str()` of
      a value that is not a string. */
  datatype Value =
    | Text(text: string)
    | Table(entries: map<string, string>, shown: string)
    | Other(shown: string)

  /** `str(v)`, as used by `str.format`. */
  function Show(v: Value): string {
    match v
    case Text(s) => s
    case Table(_, s) => s
    case Other(s) => s
  }

  type Config = map<string, Value>

  /**
   The environment the process sees:
   - `vars`: `os.environ`;
   - `paths` / `dirs`: what `os.path.exists` / `os.path.isdir` accept;
   - `which(name, searchPath)`: `shutil.which`, `None` meaning the default PATH;
   - `load(name)`: the outcome of `ctypes.CDLL(name)`;
   - `wheelJson`: the result of `json.load` on the manifest when the file is
     present (`None` when it cannot be decoded);
   - `installPath`: `get_cupy_install_path()`; `cwd`: the working directory;
   - `accountHome`: the home directory from the password database, used by
     `expanduser` when `HOME` is unset;
   - `win32`: `sys.platform.startswith('win32')`; `python38`: Python >= 3.8.
   */
  datatype Env = Env(
    vars: map<string, string>,
    paths: set<string>,
    dirs: set<string>,
    which: (string, Option<string>) -> Option<string>,
    load: string -> LoadOutcome,
    wheelJson: Option<Config>,
    installPath: string,
    cwd: string,
    accountHome: string,
    win32: bool,
    python38: bool)

  /** `os.environ.get(name)` */
  function Lookup(env: Env, name: string): PyStr {
    if name in env.vars then Some(env.vars[name]) else None
  }

  /** `os.path.exists(p)`; the empty path never exists. */
  predicate Exists(env: Env, p: string) {
    p != "" && p in env.paths
  }

  /** `os.path.isdir(p)`; the empty path is never a directory, and a
      directory always exists. */
  predicate IsDir(env: Env, p: string) {
    Exists(env, p) && p in env.dirs
  }

  /** Whether `ctypes.CDLL(name)` succeeds. */
  predicate Loadable(env: Env, name: string) {
    env.load(name).Loaded?
  }

  /** A directory is not a shared library: `ctypes.CDLL` on it raises. */
  predicate DirectoriesNotLoadable(env: Env) {
    forall d :: d in env.dirs ==> !Loadable(env, d)
  }

  /** The exceptions the modelled code lets escape. */
  datatype Error =
    | KeyError(key: string)
    | TypeError(reason: string)
    | DecodeError
    | RuntimeError(message: string)

  datatype Outcome = Completed | Raised(error: Error)

  /** A `_preload_libs` value `(source, CDLL(source))`. */
  datatype Preloaded = Preloaded(source: string, handle: Handle)

  /** One `_preload_libs` entry, in dictionary order. */
  datatype Slot = Slot(lib: string, preloaded: Option<Preloaded>)

  /**
   Module state. `cudaProbes`, `nvccProbes` and `cubProbes` count the runs of
   `_get_cuda_path`, `_get_nvcc_path` and `_get_cub_path`; `loadAttempts`
   lists every argument passed to `ctypes.CDLL`. These four are
   instrumentation and have no counterpart in the Python module.
   */
  datatype State = State(
    cudaPath: PyStr,
    nvccPath: PyStr,
    cubPath: PyStr,
    preloadConfig: Option<Config>,
    preloadLibs: seq<Slot>,
    logs: seq<string>,
    warnings: seq<string>,
    cudaProbes: nat,
    nvccProbes: nat,
    cubProbes: nat,
    loadAttempts: seq<string>)

  /** The state right after the module is imported. */
  const Initial: State := State(
    Uninitialised, Uninitialised, Uninitialised,
    None,
    [Slot("cudnn", None)],
    [], [],
    0, 0, 0,
    [])

  /** The result of an operation together with the state it leaves. */
  datatype Call<T> = Call(result: T, after: State)

  /** `_log(msg)`: appends one line to the module's trace. */
  function Log(st: State, msg: string): (s: State)
    ensures s.(logs := st.logs) == st
    ensures IsPrefix(st.logs, s.logs) && |s.logs| == |st.logs| + 1 && s.logs[|st.logs|] == msg
  {
    st.(logs := Append(st.logs, msg))
  }

  /** Every emitted warning is also in the trace. */
  predicate WarningsLogged(st: State) {
    forall k :: 0 <= k < |st.warnings| ==> st.warnings[k] in st.logs
  }

  /** The `_preload_libs` keys, in order. */
  function LibNames(slots: seq<Slot>): (r: seq<string>)
    ensures |r| == |slots|
    ensures forall i :: 0 <= i < |slots| ==> r[i] == slots[i].lib
  {
    seq(|slots|, i requires 0 <= i < |slots| => slots[i].lib)
  }

  /** Replacing a slot by one with the same key keeps the keys. */
  lemma LibNamesUpdate(slots: seq<Slot>, i: nat, x: Slot)
    requires i < |slots| && x.lib == slots[i].lib
    ensures LibNames(slots[i := x]) == LibNames(slots)
  {
  }
}
