/**
 Library preloading for wheel installations: the library base directory
 (`get_cupy_cuda_lib_path`), the cached manifest (`get_preload_config`), the
 per-library load strategy and the batch over `_preload_libs`
 (`_preload_libraries`), and the rendered trace (`_get_preload_logs`).
 */
module Preload {
  import opened Wrappers
  import opened Paths
  import opened Environment
  import opened DiagnosticLog

  const CudaLibPathVar: string := "CUPY_CUDA_LIB_PATH"

  /** The state the discovery caches live in is not touched by preloading. */
  predicate ResolverUnchanged(a: State, b: State) {
    && a.cudaPath == b.cudaPath && a.nvccPath == b.nvccPath && a.cubPath == b.cubPath
    && a.cudaProbes == b.cudaProbes && a.nvccProbes == b.nvccProbes && a.cubProbes == b.cubProbes
  }

  /** The home directory `os.path.expanduser` puts in place of `~`. */
  function Home(env: Env): string {
    Lookup(env, "HOME").OrElse(env.accountHome)
  }

  /** `get_cupy_cuda_lib_path()`: the absolute form of `CUPY_CUDA_LIB_PATH`
      when it is set (even to `''`), else `~/.cupy/cuda_lib` expanded. */
  function CudaLibPath(env: Env): (r: string)
    ensures CudaLibPathVar in env.vars && IsAbs(env.vars[CudaLibPathVar]) ==> r == env.vars[CudaLibPathVar]
    ensures CudaLibPathVar in env.vars && !IsAbs(env.vars[CudaLibPathVar]) ==>
              && |env.cwd| <= |r| && r[..|env.cwd|] == env.cwd
              && |env.vars[CudaLibPathVar]| <= |r| && r[|r| - |env.vars[CudaLibPathVar]|..] == env.vars[CudaLibPathVar]
    ensures CudaLibPathVar in env.vars && IsAbs(env.cwd) ==> IsAbs(r)
    ensures CudaLibPathVar !in env.vars ==> r == RStripSlashes(Home(env)) + "/.cupy/cuda_lib"
  {
    match Lookup(env, CudaLibPathVar)
    case None => RStripSlashes(Home(env)) + "/.cupy/cuda_lib"
    case Some(dir) => AbsPath(env.cwd, dir)
  }

  /** Under an absolute working directory and home directory, the library
      base directory is absolute, and it ends with the configured path when
      `CUPY_CUDA_LIB_PATH` is set and with `/.cupy/cuda_lib` when it is not. */
  lemma CudaLibPathShape(env: Env)
    requires IsAbs(env.cwd) && IsAbs(Home(env))
    ensures var r := CudaLibPath(env);
            && IsAbs(r)
            && (CudaLibPathVar in env.vars ==>
                  |env.vars[CudaLibPathVar]| <= |r| && r[|r| - |env.vars[CudaLibPathVar]|..] == env.vars[CudaLibPathVar])
            && (CudaLibPathVar !in env.vars ==> |r| >= 15 && r[|r| - 15..] == "/.cupy/cuda_lib")
  {
    if CudaLibPathVar !in env.vars {
      var home := RStripSlashes(Home(env));
      var r := home + "/.cupy/cuda_lib";
      if home != "" {
        assert home[0] == Home(env)[..|home|][0];
      }
      assert r[|r| - 15..] == "/.cupy/cuda_lib";
    }
  }

  /** `os.path.join(get_cupy_install_path(), 'cupy', '_wheel.json')`: the
      path names the manifest file `_wheel.json`, so it is never empty. */
  function ConfigPath(env: Env): (r: string)
    ensures |r| >= 11 && r[|r| - 11..] == "_wheel.json"
  {
    JoinAll(env.installPath, ["cupy", "_wheel.json"])
  }

  datatype ConfigLoad = Absent | Present(config: Config) | Corrupt(error: Error)

  /** `get_preload_config()`: a loaded manifest is cached; an absent file is
      reported as `Absent` and not remembered; a file `json.load` rejects
      raises. */
  function GetPreloadConfig(env: Env, st: State): (c: Call<ConfigLoad>)
    ensures st.preloadConfig.Some? ==> c == Call(Present(st.preloadConfig.value), st)
    ensures st.preloadConfig == None && !Exists(env, ConfigPath(env)) ==> c == Call(Absent, st)
    ensures st.preloadConfig == None && Exists(env, ConfigPath(env)) && env.wheelJson == None ==>
              c == Call(Corrupt(DecodeError), st)
    ensures st.preloadConfig == None && Exists(env, ConfigPath(env)) && env.wheelJson.Some? ==>
              c == Call(Present(env.wheelJson.value), st.(preloadConfig := env.wheelJson))
  {
    if st.preloadConfig.Some? then Call(Present(st.preloadConfig.value), st)
    else if !Exists(env, ConfigPath(env)) then Call(Absent, st)
    else match env.wheelJson
      case None => Call(Corrupt(DecodeError), st)
      case Some(config) => Call(Present(config), st.(preloadConfig := Some(config)))
  }

  /** A missing manifest leaves no trace, so a later call looks again and
      picks up a manifest that has appeared since; a loaded one is kept. */
  lemma MissingConfigRechecked(env: Env, later: Env, st: State)
    requires st.preloadConfig == None && !Exists(env, ConfigPath(env))
    requires Exists(later, ConfigPath(later)) && later.wheelJson.Some?
    ensures GetPreloadConfig(env, st) == Call(Absent, st)
    ensures GetPreloadConfig(later, st).result == Present(later.wheelJson.value)
    ensures GetPreloadConfig(env, GetPreloadConfig(later, st).after).result == Present(later.wheelJson.value)
  {
  }

  /** `'bin'` on Windows, `'lib64'` elsewhere. */
  function LibDir(env: Env): string {
    if env.win32 then "bin" else "lib64"
  }

  /** The version-qualified location `join(base, cuda, lib, version, libdir)`.
      It names the directory: the library's file name is not part of it. */
  function QualifiedPath(base: string, cuda: string, lib: string, version: string, libDir: string): (r: string)
    ensures |libDir| <= |r| && r[|r| - |libDir|..] == libDir
  {
    JoinAll(base, [cuda, lib, version, libDir])
  }

  /** For plain, non-empty components under a base that does not end in
      '/', the qualified location is `<base>/<cuda>/<lib>/<version>/<libDir>`. */
  lemma QualifiedPathLayout(base: string, cuda: string, lib: string, version: string, libDir: string)
    requires base != "" && !EndsWithSlash(base)
    requires cuda != "" && !HasSlash(cuda) && lib != "" && !HasSlash(lib)
    requires version != "" && !HasSlash(version) && libDir != "" && !HasSlash(libDir)
    ensures QualifiedPath(base, cuda, lib, version, libDir)
            == base + "/" + cuda + "/" + lib + "/" + version + "/" + libDir
  {
    var p1 := base + "/" + cuda;
    var p2 := p1 + "/" + lib;
    var p3 := p2 + "/" + version;
    JoinPlainName(base, cuda);
    JoinPlainName(p1, lib);
    JoinPlainName(p2, version);
    assert [cuda, lib, version, libDir][..3] == [cuda, lib, version];
    assert [cuda, lib, version][..2] == [cuda, lib];
    assert [cuda, lib][..1] == [cuda];
    assert JoinAll(base, [cuda]) == p1 by {
      assert [cuda][..0] == [];
    }
    assert JoinAll(base, [cuda, lib]) == p2;
    assert JoinAll(base, [cuda, lib, version]) == p3;
    JoinPlainName(p3, libDir);
  }

  /** The message logged and warned when loading the qualified path raises. */
  function FailureMessage(libpath: string, exception: string, message: string): string {
    "CuPy failed to preload library (" + libpath + "): " + exception + " (" + message + ")"
  }

  /** Replaces the value of slot `i`, keeping its key. */
  function Store(st: State, i: nat, p: Preloaded): (s: State)
    requires i < |st.preloadLibs|
    ensures |s.preloadLibs| == |st.preloadLibs|
    ensures s.preloadLibs[i] == Slot(st.preloadLibs[i].lib, Some(p))
    ensures forall j :: 0 <= j < |st.preloadLibs| && j != i ==> s.preloadLibs[j] == st.preloadLibs[j]
    ensures s == st.(preloadLibs := s.preloadLibs)
  {
    st.(preloadLibs := st.preloadLibs[i := Slot(st.preloadLibs[i].lib, Some(p))])
  }

  /**
   One load attempt for slot `i` (cupy/_environment.py lines 213-236): the
   qualified path alone when it exists, the bare file name alone when it does
   not. A successful load records `(source, handle)`; a failed one leaves the
   slot as it was and never raises. Only a failure on the qualified path
   emits a warning.
   */
  function Attempt(env: Env, i: nat, libpath: string, filename: string, st: State): (s: State)
    requires i < |st.preloadLibs|
    ensures |s.preloadLibs| == |st.preloadLibs|
    ensures var src := if Exists(env, libpath) then libpath else filename;
            && s.loadAttempts == st.loadAttempts + [src]
            && (Loadable(env, src) ==> s.preloadLibs[i] == Slot(st.preloadLibs[i].lib, Some(Preloaded(src, env.load(src).handle))))
            && (!Loadable(env, src) ==> s.preloadLibs[i] == st.preloadLibs[i])
    ensures forall j :: 0 <= j < |st.preloadLibs| && j != i ==> s.preloadLibs[j] == st.preloadLibs[j]
    ensures s.logs == st.logs + AttemptLines(env, st.preloadLibs[i].lib, libpath, filename)
    ensures s.warnings == st.warnings + AttemptWarnings(env, libpath)
    ensures Exists(env, libpath) && !Loadable(env, libpath) ==> s.warnings == st.warnings + [s.logs[|s.logs| - 1]]
    ensures ResolverUnchanged(st, s) && s.preloadConfig == st.preloadConfig
  {
    if Exists(env, libpath) then
      var s := Log(st, "Trying to load " + libpath).(loadAttempts := st.loadAttempts + [libpath]);
      match env.load(libpath)
      case Loaded(h) => Log(Store(s, i, Preloaded(libpath, h)), "Loaded")
      case LoadRaised(exception, message) =>
        var msg := FailureMessage(libpath, exception, message);
        Log(s, msg).(warnings := s.warnings + [msg])
    else
      var s := Log(Log(st, "File " + libpath + " could not be found"), "Trying to load " + filename)
                 .(loadAttempts := st.loadAttempts + [filename]);
      match env.load(filename)
      case Loaded(h) => Log(Store(s, i, Preloaded(filename, h)), "Loaded")
      case LoadRaised(_, _) => Log(s, "Library " + st.preloadLibs[i].lib + " could not be preloaded")
  }

  /** As written, the qualified path is the `lib64` (or `bin`) directory
      itself. When that directory is present the only load tried is on the
      directory, which cannot succeed: the entry stays as it was and a
      warning is emitted, even when the library file inside it would load. */
  lemma QualifiedDirectoryNeverLoads(env: Env, i: nat, libpath: string, filename: string, st: State)
    requires i < |st.preloadLibs|
    requires DirectoriesNotLoadable(env) && IsDir(env, libpath)
    requires Exists(env, Join(libpath, filename)) && Loadable(env, Join(libpath, filename))
    ensures var s := Attempt(env, i, libpath, filename, st);
            && s.loadAttempts == st.loadAttempts + [libpath]
            && s.preloadLibs[i] == st.preloadLibs[i]
            && |s.warnings| == |st.warnings| + 1
  {
  }

  /** The evidently intended attempt: the qualified path names the library
      file inside the versioned directory. */
  function AttemptIntended(env: Env, i: nat, dir: string, filename: string, st: State): (s: State)
    requires i < |st.preloadLibs|
    ensures |s.preloadLibs| == |st.preloadLibs|
    ensures Exists(env, Join(dir, filename)) && Loadable(env, Join(dir, filename)) ==>
              && s.preloadLibs[i] == Slot(st.preloadLibs[i].lib, Some(Preloaded(Join(dir, filename), env.load(Join(dir, filename)).handle)))
              && s.warnings == st.warnings
  {
    Attempt(env, i, Join(dir, filename), filename, st)
  }

  /** With the file name appended, a library installed at the qualified
      location is preloaded from there, its handle recorded under that path,
      with no warning. */
  lemma IntendedLoadsQualifiedFile(env: Env, i: nat, dir: string, filename: string, st: State)
    requires i < |st.preloadLibs|
    requires Exists(env, Join(dir, filename)) && Loadable(env, Join(dir, filename))
    ensures var s := AttemptIntended(env, i, dir, filename, st);
            && s.loadAttempts == st.loadAttempts + [Join(dir, filename)]
            && s.preloadLibs[i].preloaded == Some(Preloaded(Join(dir, filename), env.load(Join(dir, filename)).handle))
            && s.warnings == st.warnings
            && s.logs[|s.logs| - 1] == "Loaded"
  {
  }

  /** Lines 208-236 for slot `i`, once its version and file name are read. */
  function PreloadEntry(env: Env, cuda: Value, base: string, i: nat, version: string, filename: string, st: State)
    : (c: Call<Outcome>)
    requires i < |st.preloadLibs|
    ensures |c.after.preloadLibs| == |st.preloadLibs|
    ensures c.after.preloadLibs[i].lib == st.preloadLibs[i].lib
    ensures forall j :: 0 <= j < |st.preloadLibs| && j != i ==> c.after.preloadLibs[j] == st.preloadLibs[j]
    ensures IsPrefix(st.logs, c.after.logs)
    ensures IsPrefix(st.warnings, c.after.warnings)
    ensures WarningsLogged(st) ==> WarningsLogged(c.after)
    ensures ResolverUnchanged(st, c.after) && c.after.preloadConfig == st.preloadConfig
    ensures var looking := "Looking for " + st.preloadLibs[i].lib + " version " + version + " (" + filename + ")";
            !cuda.Text? ==> c == Call(Raised(TypeError("config['cuda']")), Log(st, looking))
    ensures var looking := "Looking for " + st.preloadLibs[i].lib + " version " + version + " (" + filename + ")";
            var libpath := if cuda.Text? then QualifiedPath(base, cuda.text, st.preloadLibs[i].lib, version, LibDir(env)) else "";
            cuda.Text? ==>
              && c.result == Completed
              && c.after.logs == st.logs + [looking] + AttemptLines(env, st.preloadLibs[i].lib, libpath, filename)
              && c.after.warnings == st.warnings + AttemptWarnings(env, libpath)
    ensures c.result.Raised? <==> !cuda.Text?
    ensures c.result.Raised? ==> c.after.preloadLibs == st.preloadLibs && c.after.loadAttempts == st.loadAttempts
  {
    var lib := st.preloadLibs[i].lib;
    var s := Log(st, "Looking for " + lib + " version " + version + " (" + filename + ")");
    match cuda
    case Text(cudaVersion) =>
      var s' := Attempt(env, i, QualifiedPath(base, cudaVersion, lib, version, LibDir(env)), filename, s);
      AttemptKeepsWarningsLogged(s, s');
      PrefixTransitive(st.logs, s.logs, s'.logs);
      Call(Completed, s')
    case _ => Call(Raised(TypeError("config['cuda']")), s)
  }

  /** One iteration of the loop over `_preload_libs` for slot `i`. Missing
      manifest keys and mistyped entries raise, as the dictionary lookups and
      `os.path.join` do in the source. */
  function PreloadLib(env: Env, config: Config, base: string, i: nat, st: State): (c: Call<Outcome>)
    requires i < |st.preloadLibs|
    requires "cuda" in config
    ensures |c.after.preloadLibs| == |st.preloadLibs|
    ensures c.after.preloadLibs[i].lib == st.preloadLibs[i].lib
    ensures forall j :: 0 <= j < |st.preloadLibs| && j != i ==> c.after.preloadLibs[j] == st.preloadLibs[j]
    ensures IsPrefix(st.logs, c.after.logs)
    ensures IsPrefix(st.warnings, c.after.warnings)
    ensures WarningsLogged(st) ==> WarningsLogged(c.after)
    ensures ResolverUnchanged(st, c.after) && c.after.preloadConfig == st.preloadConfig
    ensures st.preloadLibs[i].lib !in config ==>
              c == Call(Completed, Log(st, "Not preloading " + st.preloadLibs[i].lib))
    ensures var lib := st.preloadLibs[i].lib;
            lib in config && config[lib].Table? && "version" !in config[lib].entries ==>
              c == Call(Raised(KeyError("version")), st)
    ensures var lib := st.preloadLibs[i].lib;
            lib in config && config[lib].Table? && "version" in config[lib].entries && "filename" !in config[lib].entries ==>
              c == Call(Raised(KeyError("filename")), st)
    ensures var lib := st.preloadLibs[i].lib;
            var looking := if lib in config && EntryOk(config[lib])
                           then "Looking for " + lib + " version " + config[lib].entries["version"]
                                + " (" + config[lib].entries["filename"] + ")"
                           else "";
            lib in config && EntryOk(config[lib]) && !config["cuda"].Text? ==>
              c == Call(Raised(TypeError("config['cuda']")), Log(st, looking))
    ensures var lib := st.preloadLibs[i].lib;
            lib in config && EntryOk(config[lib]) && config["cuda"].Text? ==>
              var version := config[lib].entries["version"];
              var filename := config[lib].entries["filename"];
              var libpath := QualifiedPath(base, config["cuda"].text, lib, version, LibDir(env));
              && c.result == Completed
              && c.after.logs == st.logs + ["Looking for " + lib + " version " + version + " (" + filename + ")"]
                                 + AttemptLines(env, lib, libpath, filename)
              && c.after.warnings == st.warnings + AttemptWarnings(env, libpath)
    ensures c.result.Raised? ==> c.after.preloadLibs == st.preloadLibs && c.after.loadAttempts == st.loadAttempts
  {
    var lib := st.preloadLibs[i].lib;
    if lib !in config then Call(Completed, Log(st, "Not preloading " + lib))
    else match config[lib]
      case Table(entries, _) =>
        if "version" !in entries then Call(Raised(KeyError("version")), st)
        else if "filename" !in entries then Call(Raised(KeyError("filename")), st)
        else PreloadEntry(env, config["cuda"], base, i, entries["version"], entries["filename"], st)
      case _ => Call(Raised(TypeError("config['" + lib + "']")), st)
  }

  lemma AttemptKeepsWarningsLogged(st: State, s: State)
    requires IsPrefix(st.logs, s.logs) && |s.logs| > 0
    requires s.warnings == st.warnings || s.warnings == st.warnings + [s.logs[|s.logs| - 1]]
    ensures IsPrefix(st.warnings, s.warnings)
    ensures WarningsLogged(st) ==> WarningsLogged(s)
  {
    if WarningsLogged(st) {
      forall k | 0 <= k < |s.warnings|
        ensures s.warnings[k] in s.logs
      {
        if k < |st.warnings| {
          PrefixKeepsLines(st.logs, s.logs, st.warnings[k]);
        } else {
          assert s.warnings[k] == s.logs[|s.logs| - 1];
        }
      }
    }
  }

  /** The loop of `_preload_libraries` from slot `i` on; the first exception
      stops it. */
  function ForEachLib(env: Env, config: Config, base: string, i: nat, st: State): (c: Call<Outcome>)
    requires i <= |st.preloadLibs|
    requires "cuda" in config
    ensures LibNames(c.after.preloadLibs) == LibNames(st.preloadLibs)
    ensures forall j :: 0 <= j < i ==> c.after.preloadLibs[j] == st.preloadLibs[j]
    ensures IsPrefix(st.logs, c.after.logs)
    ensures IsPrefix(st.warnings, c.after.warnings)
    ensures WarningsLogged(st) ==> WarningsLogged(c.after)
    ensures ResolverUnchanged(st, c.after) && c.after.preloadConfig == st.preloadConfig
    decreases |st.preloadLibs| - i
  {
    if i == |st.preloadLibs| then Call(Completed, st)
    else
      var step := PreloadLib(env, config, base, i, st);
      if step.result.Raised? then step
      else
        var rest := ForEachLib(env, config, base, i + 1, step.after);
        PrefixTransitive(st.logs, step.after.logs, rest.after.logs);
        PrefixTransitive(st.warnings, step.after.warnings, rest.after.warnings);
        rest
  }

  /** Lines 196-236 of `_preload_libraries()`, once a manifest is in hand. */
  function PreloadWithConfig(env: Env, config: Config, st: State): (c: Call<Outcome>)
    ensures LibNames(c.after.preloadLibs) == LibNames(st.preloadLibs)
    ensures IsPrefix(st.logs, c.after.logs)
    ensures WarningsLogged(st) ==> WarningsLogged(c.after)
    ensures ResolverUnchanged(st, c.after) && c.after.preloadConfig == st.preloadConfig
    ensures "cuda" !in config ==> c == Call(Raised(KeyError("cuda")), st)
    ensures "cuda" in config ==>
              && |c.after.logs| >= |st.logs| + 2
              && c.after.logs[|st.logs|] == "CuPy wheel package built for CUDA " + Show(config["cuda"])
              && c.after.logs[|st.logs| + 1] == "CuPy CUDA library directory: " + CudaLibPath(env)
  {
    if "cuda" !in config then Call(Raised(KeyError("cuda")), st)
    else
      var base := CudaLibPath(env);
      var s := Log(Log(st, "CuPy wheel package built for CUDA " + Show(config["cuda"])),
                   "CuPy CUDA library directory: " + base);
      var c := ForEachLib(env, config, base, 0, s);
      PrefixTransitive(st.logs, s.logs, c.after.logs);
      assert c.after.logs[|st.logs|] == c.after.logs[..|s.logs|][|st.logs|];
      assert c.after.logs[|st.logs| + 1] == c.after.logs[..|s.logs|][|st.logs| + 1];
      c
  }

  /** `_preload_libraries()` */
  function PreloadLibraries(env: Env, st: State): (c: Call<Outcome>)
    ensures LibNames(c.after.preloadLibs) == LibNames(st.preloadLibs)
    ensures IsPrefix(st.logs, c.after.logs)
    ensures WarningsLogged(st) ==> WarningsLogged(c.after)
    ensures ResolverUnchanged(st, c.after)
    ensures GetPreloadConfig(env, st).result == Absent ==>
              c == Call(Completed, st.(logs := st.logs + ["Skip preloading as this is not a wheel installation"]))
    ensures GetPreloadConfig(env, st).result == Corrupt(DecodeError) ==> c == Call(Raised(DecodeError), st)
    ensures var cfg := GetPreloadConfig(env, st).result;
            cfg.Present? && "cuda" !in cfg.config ==> c == Call(Raised(KeyError("cuda")), GetPreloadConfig(env, st).after)
    ensures var cfg := GetPreloadConfig(env, st).result;
            cfg.Present? && "cuda" in cfg.config ==> c.after.preloadConfig == Some(cfg.config)
  {
    var loaded := GetPreloadConfig(env, st);
    match loaded.result
    case Corrupt(e) => Call(Raised(e), loaded.after)
    case Absent => Call(Completed, Log(loaded.after, "Skip preloading as this is not a wheel installation"))
    case Present(config) => PreloadWithConfig(env, config, loaded.after)
  }

  /** A manifest entry the loop can use: an object with both keys. */
  predicate EntryOk(v: Value) {
    v.Table? && "version" in v.entries && "filename" in v.entries
  }

  /** A manifest on which the batch cannot raise for the given libraries. */
  predicate WellFormed(config: Config, libs: seq<string>) {
    && "cuda" in config && config["cuda"].Text?
    && forall j :: 0 <= j < |libs| && libs[j] in config ==> EntryOk(config[libs[j]])
  }

  /** The qualified directory for a configured library. */
  function PlannedPath(env: Env, config: Config, base: string, lib: string): string
    requires "cuda" in config && config["cuda"].Text?
    requires lib in config && EntryOk(config[lib])
  {
    QualifiedPath(base, config["cuda"].text, lib, config[lib].entries["version"], LibDir(env))
  }

  /** Reference outcome for one `_preload_libs` entry: untouched when the
      manifest does not name it; otherwise `(source, handle)` when the one
      permitted load succeeds, and untouched when it fails. */
  function PlannedSlot(env: Env, config: Config, base: string, slot: Slot): (r: Slot)
    requires "cuda" in config && config["cuda"].Text?
    requires slot.lib in config ==> EntryOk(config[slot.lib])
    ensures r.lib == slot.lib
  {
    if slot.lib !in config then slot
    else
      var libpath := PlannedPath(env, config, base, slot.lib);
      var src := if Exists(env, libpath) then libpath else config[slot.lib].entries["filename"];
      if Loadable(env, src) then Slot(slot.lib, Some(Preloaded(src, env.load(src).handle))) else slot
  }

  /** Reference `_preload_libs` table after the loop has run from slot `i`
      on: every slot from `i` replaced by its reference outcome. */
  function PlannedTable(env: Env, config: Config, base: string, slots: seq<Slot>, i: nat): seq<Slot>
    requires WellFormed(config, LibNames(slots)) && i <= |slots|
    decreases |slots| - i
  {
    if i == |slots| then slots
    else
      assert LibNames(slots)[i] == slots[i].lib;
      PlannedTable(env, config, base, slots[i := PlannedSlot(env, config, base, slots[i])], i + 1)
  }

  /** The reference table slot by slot: slots before `i` are kept, the
      others hold their reference outcome. */
  lemma {:induction false} PlannedTableAt(env: Env, config: Config, base: string, slots: seq<Slot>, i: nat)
    requires WellFormed(config, LibNames(slots)) && i <= |slots|
    ensures var t := PlannedTable(env, config, base, slots, i);
            && |t| == |slots|
            && (forall j :: 0 <= j < i ==> t[j] == slots[j])
            && forall j :: i <= j < |slots| ==> t[j] == PlannedSlot(env, config, base, slots[j])
    decreases |slots| - i
  {
    if i < |slots| {
      assert LibNames(slots)[i] == slots[i].lib;
      var p := PlannedSlot(env, config, base, slots[i]);
      var next := slots[i := p];
      LibNamesUpdate(slots, i, p);
      PlannedTableAt(env, config, base, next, i + 1);
      assert PlannedTable(env, config, base, slots, i) == PlannedTable(env, config, base, next, i + 1);
    }
  }

  /** Reference trace lines of one load attempt on `libpath`, falling back
      to `filename` when it does not exist. */
  function AttemptLines(env: Env, lib: string, libpath: string, filename: string): seq<string> {
    if Exists(env, libpath) then
      ["Trying to load " + libpath,
       if Loadable(env, libpath) then "Loaded"
       else FailureMessage(libpath, env.load(libpath).exception, env.load(libpath).message)]
    else
      ["File " + libpath + " could not be found",
       "Trying to load " + filename,
       if Loadable(env, filename) then "Loaded" else "Library " + lib + " could not be preloaded"]
  }

  /** Reference warnings of one load attempt: only a failed load of an
      existing qualified path warns. */
  function AttemptWarnings(env: Env, libpath: string): seq<string> {
    if Exists(env, libpath) && !Loadable(env, libpath) then
      [FailureMessage(libpath, env.load(libpath).exception, env.load(libpath).message)]
    else []
  }

  /** Reference trace lines for one library. */
  function PlannedLines(env: Env, config: Config, base: string, lib: string): seq<string>
    requires "cuda" in config && config["cuda"].Text?
    requires lib in config ==> EntryOk(config[lib])
  {
    if lib !in config then ["Not preloading " + lib]
    else
      var version := config[lib].entries["version"];
      var filename := config[lib].entries["filename"];
      ["Looking for " + lib + " version " + version + " (" + filename + ")"]
      + AttemptLines(env, lib, PlannedPath(env, config, base, lib), filename)
  }

  /** Reference warnings for one library. */
  function PlannedWarnings(env: Env, config: Config, base: string, lib: string): seq<string>
    requires "cuda" in config && config["cuda"].Text?
    requires lib in config ==> EntryOk(config[lib])
  {
    if lib in config then AttemptWarnings(env, PlannedPath(env, config, base, lib)) else []
  }

  /** Reference trace lines of the libraries from position `i` on. */
  function BatchLines(env: Env, config: Config, base: string, libs: seq<string>, i: nat): seq<string>
    requires WellFormed(config, libs) && i <= |libs|
    decreases |libs| - i
  {
    if i == |libs| then []
    else PlannedLines(env, config, base, libs[i]) + BatchLines(env, config, base, libs, i + 1)
  }

  /** Reference warnings of the libraries from position `i` on. */
  function BatchWarnings(env: Env, config: Config, base: string, libs: seq<string>, i: nat): seq<string>
    requires WellFormed(config, libs) && i <= |libs|
    decreases |libs| - i
  {
    if i == |libs| then []
    else PlannedWarnings(env, config, base, libs[i]) + BatchWarnings(env, config, base, libs, i + 1)
  }

  /** A configured, usable entry runs exactly one attempt on the qualified path. */
  lemma PreloadLibConfigured(env: Env, config: Config, base: string, i: nat, st: State)
    requires i < |st.preloadLibs|
    requires "cuda" in config && config["cuda"].Text?
    requires st.preloadLibs[i].lib in config && EntryOk(config[st.preloadLibs[i].lib])
    ensures var lib := st.preloadLibs[i].lib;
            var version := config[lib].entries["version"];
            var filename := config[lib].entries["filename"];
            PreloadLib(env, config, base, i, st)
            == Call(Completed, Attempt(env, i, PlannedPath(env, config, base, lib), filename,
                                       Log(st, "Looking for " + lib + " version " + version + " (" + filename + ")")))
  {
    var lib := st.preloadLibs[i].lib;
    var entries := config[lib].entries;
    assert PreloadLib(env, config, base, i, st)
           == PreloadEntry(env, config["cuda"], base, i, entries["version"], entries["filename"], st);
  }

  /** One well-formed iteration completes, updates its slot as planned and
      appends exactly the planned lines and warnings. */
  lemma PreloadLibFollowsPlan(env: Env, config: Config, base: string, i: nat, st: State)
    requires i < |st.preloadLibs|
    requires "cuda" in config && config["cuda"].Text?
    requires st.preloadLibs[i].lib in config ==> EntryOk(config[st.preloadLibs[i].lib])
    ensures var c := PreloadLib(env, config, base, i, st);
            && c.result == Completed
            && c.after.preloadLibs[i] == PlannedSlot(env, config, base, st.preloadLibs[i])
            && c.after.logs == st.logs + PlannedLines(env, config, base, st.preloadLibs[i].lib)
            && c.after.warnings == st.warnings + PlannedWarnings(env, config, base, st.preloadLibs[i].lib)
  {
    var lib := st.preloadLibs[i].lib;
    if lib in config {
      var version := config[lib].entries["version"];
      var filename := config[lib].entries["filename"];
      var line := "Looking for " + lib + " version " + version + " (" + filename + ")";
      var s := Log(st, line);
      var libpath := PlannedPath(env, config, base, lib);
      PreloadLibConfigured(env, config, base, i, st);
      AppendAssoc(st.logs, [line], AttemptLines(env, lib, libpath, filename));
    }
  }

  /** One iteration of the loop on a well-formed manifest: it completes, the
      loop carries on from slot `i + 1` in the state `next` it leaves, and
      `next` differs from `st` exactly as the reference outcome says. */
  lemma ForEachLibAdvance(env: Env, config: Config, base: string, i: nat, st: State) returns (next: State)
    requires i < |st.preloadLibs|
    requires WellFormed(config, LibNames(st.preloadLibs))
    ensures |next.preloadLibs| == |st.preloadLibs| && LibNames(next.preloadLibs) == LibNames(st.preloadLibs)
    ensures ForEachLib(env, config, base, i, st) == ForEachLib(env, config, base, i + 1, next)
    ensures next.preloadLibs == st.preloadLibs[i := PlannedSlot(env, config, base, st.preloadLibs[i])]
    ensures next.logs == st.logs + PlannedLines(env, config, base, LibNames(st.preloadLibs)[i])
    ensures next.warnings == st.warnings + PlannedWarnings(env, config, base, LibNames(st.preloadLibs)[i])
  {
    assert LibNames(st.preloadLibs)[i] == st.preloadLibs[i].lib;
    PreloadLibFollowsPlan(env, config, base, i, st);
    var step := PreloadLib(env, config, base, i, st);
    next := step.after;
    var planned := PlannedSlot(env, config, base, st.preloadLibs[i]);
    UpdatedAt(st.preloadLibs, next.preloadLibs, i, planned);
    LibNamesUpdate(st.preloadLibs, i, planned);
    ForEachLibStep(env, config, base, i, st);
  }

  /** The loop moves on to the next slot after an iteration that completes. */
  lemma ForEachLibStep(env: Env, config: Config, base: string, i: nat, st: State)
    requires i < |st.preloadLibs|
    requires "cuda" in config
    requires PreloadLib(env, config, base, i, st).result == Completed
    ensures ForEachLib(env, config, base, i, st)
            == ForEachLib(env, config, base, i + 1, PreloadLib(env, config, base, i, st).after)
  {
  }

  lemma UpdatedAt<T>(a: seq<T>, b: seq<T>, i: nat, x: T)
    requires |a| == |b| && i < |a| && b[i] == x
    requires forall j :: 0 <= j < |a| && j != i ==> b[j] == a[j]
    ensures b == a[i := x]
  {
  }

  lemma ForEachLibEnd(env: Env, config: Config, base: string, st: State)
    requires "cuda" in config
    ensures ForEachLib(env, config, base, |st.preloadLibs|, st) == Call(Completed, st)
  {
  }

  /** The loop over `_preload_libs` on a well-formed manifest never raises
      and leaves the table as the reference run from slot `i` does. */
  lemma {:induction false} ForEachLibLoadsPlanned(env: Env, config: Config, base: string, i: nat, st: State)
    requires i <= |st.preloadLibs|
    requires WellFormed(config, LibNames(st.preloadLibs))
    ensures var c := ForEachLib(env, config, base, i, st);
            && c.result == Completed
            && c.after.preloadLibs == PlannedTable(env, config, base, st.preloadLibs, i)
    decreases |st.preloadLibs| - i
  {
    if i < |st.preloadLibs| {
      var next := ForEachLibAdvance(env, config, base, i, st);
      ForEachLibLoadsPlanned(env, config, base, i + 1, next);
    } else {
      ForEachLibEnd(env, config, base, st);
    }
  }

  /** On a well-formed manifest the loop from slot `i` on appends exactly the
      planned trace lines and warnings, library after library. */
  lemma {:induction false} ForEachLibTrace(env: Env, config: Config, base: string, i: nat, st: State)
    requires i <= |st.preloadLibs|
    requires WellFormed(config, LibNames(st.preloadLibs))
    ensures var c := ForEachLib(env, config, base, i, st);
            && c.after.logs == st.logs + BatchLines(env, config, base, LibNames(st.preloadLibs), i)
            && c.after.warnings == st.warnings + BatchWarnings(env, config, base, LibNames(st.preloadLibs), i)
    decreases |st.preloadLibs| - i
  {
    var names := LibNames(st.preloadLibs);
    if i < |st.preloadLibs| {
      var next := ForEachLibAdvance(env, config, base, i, st);
      ForEachLibTrace(env, config, base, i + 1, next);
      AppendAssoc(st.logs, PlannedLines(env, config, base, names[i]), BatchLines(env, config, base, names, i + 1));
      AppendAssoc(st.warnings, PlannedWarnings(env, config, base, names[i]), BatchWarnings(env, config, base, names, i + 1));
    } else {
      ForEachLibEnd(env, config, base, st);
    }
  }

  /** The two header lines of the batch, as `_log` appends them. */
  lemma HeaderLogged(st: State, first: string, second: string)
    ensures Log(Log(st, first), second) == st.(logs := st.logs + [first, second])
  {
  }

  /** Lines 196-236 on a well-formed manifest: the loop starts from the
      first entry right after the two header lines. */
  lemma WithConfigRunsLoop(env: Env, config: Config, st: State)
    requires WellFormed(config, LibNames(st.preloadLibs))
    ensures var base := CudaLibPath(env);
            PreloadWithConfig(env, config, st)
            == ForEachLib(env, config, base, 0,
                          st.(logs := st.logs + ["CuPy wheel package built for CUDA " + config["cuda"].text,
                                                 "CuPy CUDA library directory: " + base]))
  {
    var base := CudaLibPath(env);
    HeaderLogged(st, "CuPy wheel package built for CUDA " + Show(config["cuda"]), "CuPy CUDA library directory: " + base);
  }

  /** With a manifest in hand, `_preload_libraries()` is lines 196-236 run on
      the state `get_preload_config()` leaves, which differs from the
      original in the cached manifest only. */
  lemma PreloadLibrariesWithConfig(env: Env, st: State)
    requires GetPreloadConfig(env, st).result.Present?
    ensures var loaded := GetPreloadConfig(env, st);
            && PreloadLibraries(env, st) == PreloadWithConfig(env, loaded.result.config, loaded.after)
            && loaded.after == st.(preloadConfig := loaded.after.preloadConfig)
  {
  }

  /** `_preload_libraries()` on a wheel installation with a well-formed
      manifest completes and leaves `_preload_libs` as the reference run
      does: a library the manifest does not name, and one whose load fails,
      is left unchanged. */
  lemma PreloadLibrariesLoadsPlanned(env: Env, st: State)
    requires GetPreloadConfig(env, st).result.Present?
    requires WellFormed(GetPreloadConfig(env, st).result.config, LibNames(st.preloadLibs))
    ensures var config := GetPreloadConfig(env, st).result.config;
            var c := PreloadLibraries(env, st);
            && c.result == Completed
            && c.after.preloadLibs == PlannedTable(env, config, CudaLibPath(env), st.preloadLibs, 0)
  {
    var loaded := GetPreloadConfig(env, st);
    var config := loaded.result.config;
    var base := CudaLibPath(env);
    PreloadLibrariesWithConfig(env, st);
    WithConfigRunsLoop(env, config, loaded.after);
    var s := loaded.after.(logs := loaded.after.logs + ["CuPy wheel package built for CUDA " + config["cuda"].text,
                                                        "CuPy CUDA library directory: " + base]);
    ForEachLibLoadsPlanned(env, config, base, 0, s);
  }

  /** `_preload_libraries()` on a wheel installation with a well-formed
      manifest logs the two header lines and then the planned lines of every
      library in order, and warns only for failed qualified loads. */
  lemma PreloadLibrariesTrace(env: Env, st: State)
    requires GetPreloadConfig(env, st).result.Present?
    requires WellFormed(GetPreloadConfig(env, st).result.config, LibNames(st.preloadLibs))
    ensures var config := GetPreloadConfig(env, st).result.config;
            var base := CudaLibPath(env);
            var c := PreloadLibraries(env, st);
            && c.after.logs == st.logs
                 + ["CuPy wheel package built for CUDA " + config["cuda"].text,
                    "CuPy CUDA library directory: " + base]
                 + BatchLines(env, config, base, LibNames(st.preloadLibs), 0)
            && c.after.warnings == st.warnings + BatchWarnings(env, config, base, LibNames(st.preloadLibs), 0)
  {
    var loaded := GetPreloadConfig(env, st);
    var config := loaded.result.config;
    var base := CudaLibPath(env);
    PreloadLibrariesWithConfig(env, st);
    WithConfigRunsLoop(env, config, loaded.after);
    var s := loaded.after.(logs := loaded.after.logs + ["CuPy wheel package built for CUDA " + config["cuda"].text,
                                                        "CuPy CUDA library directory: " + base]);
    ForEachLibTrace(env, config, base, 0, s);
  }

  /** A manifest entry that is not an object makes the batch raise at that
      library, after the libraries before it were handled. */
  lemma MistypedEntryRaises(env: Env, config: Config, base: string, i: nat, st: State)
    requires i < |st.preloadLibs|
    requires "cuda" in config
    requires st.preloadLibs[i].lib in config && !config[st.preloadLibs[i].lib].Table?
    ensures PreloadLib(env, config, base, i, st) == Call(Raised(TypeError("config['" + st.preloadLibs[i].lib + "']")), st)
  {
  }

  /** On an installation without a manifest, a fresh module's trace is the
      single skip line and no library is preloaded. */
  lemma NonWheelInstallTrace(env: Env)
    requires !Exists(env, ConfigPath(env))
    ensures var c := PreloadLibraries(env, Initial);
            && c.result == Completed
            && c.after.preloadLibs == Initial.preloadLibs
            && PreloadLogs(c.after) == "Skip preloading as this is not a wheel installation"
  {
  }

  /** `_get_preload_logs()`: the trace joined with newlines. An empty trace
      gives the empty text; otherwise splitting the text gives the pieces of
      every line in order, which are the lines themselves when none of them
      holds a newline. */
  function PreloadLogs(st: State): (r: string)
    ensures |st.logs| == 0 ==> r == ""
    ensures |st.logs| > 0 ==> Split(r) == Pieces(st.logs)
    ensures |st.logs| > 0 && (forall k :: 0 <= k < |st.logs| ==> NoNewline(st.logs[k])) ==> Split(r) == st.logs
  {
    if |st.logs| > 0 then
      SplitRenderPieces(st.logs);
      PlainPieces(st.logs);
      Render(st.logs)
    else
      ""
  }
}
