# CUDA environment discovery and library preloading (CuPy `_environment`)

This project models the part of CuPy's `cupy/_environment.py` that finds the
local CUDA installation and preloads version-pinned shared libraries for
wheel installations:

- the memoised lookups of the CUDA root (`get_cuda_path`), the `nvcc`
  compiler (`get_nvcc_path`) and the CUB headers (`get_cub_path`), with their
  uncached probes and the `''` = "not computed yet" / `None` = "not found"
  cache convention;
- the library base directory (`get_cupy_cuda_lib_path`) and the cached wheel
  manifest (`get_preload_config`);
- `_preload_libraries`: for each `_preload_libs` entry, one load of the
  version-qualified path when it exists, otherwise one load of the bare file
  name, never aborting the batch, with the exact trace lines and warnings;
- the append-only trace (`_log`) and its rendering (`_get_preload_logs`);
- `_setup_win32_dll_directory`, as far as it raises and logs.

Everything is a pure function over an immutable environment record
(`Environment.Env`: environment variables, the sets of existing paths and of
directories, `shutil.which`, the outcome of `ctypes.CDLL` per name, the
decoded manifest, the install path, the working directory, the platform) and
a module-state record (`Environment.State`). Each operation returns a
`Call(result, after)` pair. The state also carries instrumentation the Python
module does not have: one probe counter per lookup and the list of every name
handed to `ctypes.CDLL`. These state the memoisation and "only one load is
attempted" properties.

Files:

- `wrappers.dfy`: `Option`.
- `paths.dfy`: POSIX `os.path.join`, `dirname`, `isabs` and `abspath`.
- `diagnostic_log.dfy`: trace append, `'\n'.join` rendering and the splitting that undoes it.
- `environment.dfy`: the environment, the manifest values, the module state.
- `path_resolver.dfy`: CUDA root, `nvcc`, CUB lookups, and the Windows DLL setup.
- `preload.dfy`: base directory, manifest loading, per-library strategy, the batch, and the reference plan the batch is proved to follow.

Path operations follow the real POSIX rules rather than a plain
`a + "/" + b`. `Join` lets an absolute second argument replace the first and
adds no separator after an empty or slash-terminated first argument.
`Dirname` strips trailing slashes unless the head is all slashes. So a
relative `which` answer such as `bin/nvcc` gives the grandparent `''`, which
the cache cannot tell apart from "not computed yet". `os.path.exists('')` and
`os.path.isdir('')` are false in the model, as in Python.

Three details of the code shape the model:

- The version-qualified path is joined only up to the `lib64`/`bin`
  directory (cupy/_environment.py lines 211-212); the library's file name is
  not part of it. The batch is modelled exactly so. Findings explains why
  this is evidently a bug and models the corrected attempt beside it.
- The lookups are memoised with `''` as the "not computed yet" sentinel
  (lines 67-72). A lookup whose result is `''` is stored as `''`, so it is
  not remembered and runs again on the next call.
- `_get_cub_path` returns the markers `<bundle>` and `<CUDA>`, not a header
  directory (lines 129 and 133).

## Model

| member | source | states |
|---|---|---|
| `Paths.AbsPath` | cupy/_environment.py:170 | an absolute argument is returned as is. A non-empty relative one follows the working directory, with one `/` between them unless the working directory is empty or already ends in `/`. The empty path gives the working directory. The result is absolute whenever the working directory is |
| `Paths.JoinPlainName` | cupy/_environment.py:211-212 | joining a plain non-empty name onto a non-empty path that does not end in `/` inserts exactly one `/`, and the result does not end in `/` |
| `Paths.DirnameOfJoin` | cupy/_environment.py:100 | `dirname` undoes `join` with a slash-free name, so the grandparent of `<root>/bin/nvcc` is `<root>` |
| `Paths.RelativeCompilerHasEmptyRoot` | cupy/_environment.py:98-100 | a relative `bin/nvcc` has the empty string as its grandparent |
| `DiagnosticLog.Append` | cupy/_environment.py:62-64 | the new line goes last and every earlier line keeps its place and text |
| `DiagnosticLog.SplitRender` | cupy/_environment.py:239-240 | splitting the newline-joined trace on `'\n'` gives back the lines, for a non-empty trace whose lines contain no newline |
| `DiagnosticLog.SplitJoin` | cupy/_environment.py:239-240 | splitting `x + '\n' + y` gives the pieces of `x` followed by the pieces of `y` |
| `DiagnosticLog.SplitRenderPieces` | cupy/_environment.py:239-240 | splitting the newline-joined trace gives every line's own pieces, in order, whatever newlines the lines hold |
| `DiagnosticLog.PlainPieces` | cupy/_environment.py:239-240 | lines that hold no newline are their own pieces, so the split of the joined trace is the trace itself |
| `DiagnosticLog.RenderSplit` | cupy/_environment.py:239-240 | joining the pieces of any split string with `'\n'` gives back the string |
| `Environment.Log` | cupy/_environment.py:62-64 | `_log` changes nothing but the trace. The old trace stays a prefix and the message becomes the one new, last line |
| `PathResolver.ProbeCudaPath` | cupy/_environment.py:91-106 | an existing `CUDA_PATH` wins. Otherwise the grandparent of `which('nvcc')` when found. Otherwise `/usr/local/cuda` when it exists. `None` exactly when all three fail. Any accepted root not derived from `nvcc` exists |
| `PathResolver.GetCudaPath` | cupy/_environment.py:67-72 | a cached value other than `''` (including `None`) is returned with no probe and no state change. Under the sentinel the probe's answer is returned and stored. The probe counter rises by one exactly when the cache held `''`. Nothing else changes |
| `PathResolver.CudaPathMemoised` | cupy/_environment.py:16-19 | after a call that produced something other than `''`, a later call under any environment returns the same value and leaves the state unchanged |
| `PathResolver.EmptyCudaPathReprobed` | cupy/_environment.py:70-71 | a computed `''` is not cached: two calls run the probe twice |
| `PathResolver.RelativeCompilerNotCached` | cupy/_environment.py:93-100 | with `CUDA_PATH` unset and `which('nvcc')` = `bin/nvcc`, the root comes out as `''` and the cache stays uninitialised |
| `PathResolver.ProbeNvccPath` | cupy/_environment.py:109-120 | a set `NVCC` is returned unchecked and the CUDA root is not consulted. Otherwise the root is resolved: `None` without a root, else `which('nvcc', path=<root>/bin)` |
| `PathResolver.GetNvccPath` | cupy/_environment.py:75-80 | a cached value other than `''` is returned with no probe. Otherwise the probe's result and state are kept, the answer is stored and the counter rises by one |
| `PathResolver.NvccPathMemoised` | cupy/_environment.py:75-80 | after a call that produced something other than `''`, later calls under any environment return it unchanged |
| `PathResolver.CudaAndNvccCommute` | cupy/_environment.py:67-80 | asking for the root then `nvcc`, or `nvcc` then the root, gives the same two answers and the same final state |
| `PathResolver.ProbeCubPath` | cupy/_environment.py:123-136 | the CUDA root is always resolved first. `<bundle>` exactly when the bundled `core/include/cupy/cub` directory exists. `<CUDA>` exactly when it does not, the root is not `None` and `<root>/include/cub` is a directory. Otherwise `None` |
| `PathResolver.GetCubPath` | cupy/_environment.py:83-88 | a cached value other than `''` is returned with no probe. Otherwise the probe runs once and its answer is stored |
| `PathResolver.CubPathProbedOnce` | cupy/_environment.py:83-88 | the CUB lookup never yields `''`, so after any call a later call returns the same answer and state, and at most one probe ever ran |
| `PathResolver.SetupWin32DllDirectory` | cupy/_environment.py:139-147 | off Windows or before Python 3.8 it does nothing. Otherwise it raises `RuntimeError` exactly when the CUDA root is `None`, and otherwise logs `Adding DLL search path: <root>/bin` |
| `Preload.CudaLibPath` | cupy/_environment.py:156-170 | a set `CUPY_CUDA_LIB_PATH` is made absolute: returned as is when absolute; when relative, the result starts with the working directory and ends with the value. Unset, the result is the home directory without trailing slashes followed by `/.cupy/cuda_lib` |
| `Preload.CudaLibPathShape` | cupy/_environment.py:156-170 | under an absolute working directory and home, the base directory is absolute and ends with the configured value when it is set, and with `/.cupy/cuda_lib` when it is not |
| `Preload.ConfigPath` | cupy/_environment.py:176-177 | the manifest path names the file `_wheel.json`, so it is never the empty path that `exists` rejects |
| `Preload.GetPreloadConfig` | cupy/_environment.py:173-181 | a cached manifest is returned untouched. A missing file gives `Absent` and caches nothing. An undecodable file raises. A decoded one is returned and cached |
| `Preload.MissingConfigRechecked` | cupy/_environment.py:175-179 | with no manifest file the call answers `Absent` and leaves the state unchanged, so a manifest that appears later is loaded by the next call and kept from then on |
| `Preload.QualifiedPath` | cupy/_environment.py:210-212 | the qualified path ends with the platform library directory: the file name is not appended |
| `Preload.QualifiedPathLayout` | cupy/_environment.py:210-212 | for plain non-empty components under a base not ending in `/`, the qualified path is exactly `<base>/<cuda>/<lib>/<version>/<libDir>` |
| `Preload.Attempt` | cupy/_environment.py:213-236 | exactly one load is attempted: the qualified path when it exists, the file name otherwise. Success records `(source, handle)` in that slot only. Failure leaves the slot as it was. The new trace lines are exact per branch. Only a failed qualified load warns, with the logged message. Caches are untouched |
| `Preload.QualifiedDirectoryNeverLoads` | cupy/_environment.py:211-217 | as written, when the qualified directory exists the only load is on that directory. It fails, the entry stays as it was and one warning is added, even when the library file inside would load |
| `Preload.AttemptIntended` | cupy/_environment.py:211-217 | with the file name appended to the qualified directory, an existing loadable file is recorded under that path with no warning |
| `Preload.IntendedLoadsQualifiedFile` | cupy/_environment.py:211-218 | the corrected attempt loads only `<dir>/<filename>`, records its handle, logs `Loaded` and warns nothing |
| `Preload.PreloadEntry` | cupy/_environment.py:208-236 | `Looking for <lib> version <version> (<filename>)` is logged first. A `cuda` value that is not a string then raises `TypeError` with nothing else changed. Otherwise the iteration completes and the trace and warnings grow by exactly the attempt's lines and warnings on the qualified `lib64`/`bin` directory. Other slots never change |
| `Preload.PreloadLib` | cupy/_environment.py:202-236 | an unconfigured library logs `Not preloading <lib>` and nothing else. An entry without `version` raises `KeyError('version')`, then one without `filename` raises `KeyError('filename')`, both with the state unchanged. With both keys, the `Looking for` line is logged. A `cuda` value that is not a string then raises `TypeError`. Otherwise the iteration completes, appending exactly the attempt's lines and warnings on the qualified directory. Any raise leaves the entries and load attempts untouched. Other slots never change. The trace only grows and every warning stays logged |
| `Preload.AttemptKeepsWarningsLogged` | cupy/_environment.py:220-223 | a warning is emitted only together with the same trace line, so "every warning is in the trace" is preserved |
| `Preload.ForEachLib` | cupy/_environment.py:202-236 | the frame of the loop: it keeps the `_preload_libs` keys and their order, never changes entries before its start, only appends to the trace and warnings, keeps warnings logged, and leaves the lookup caches alone |
| `Preload.PreloadWithConfig` | cupy/_environment.py:196-200 | a manifest without `cuda` raises `KeyError` with nothing changed. Otherwise the two header lines, the build's CUDA version and the base directory, come first |
| `Preload.PreloadLibraries` | cupy/_environment.py:184-200 | without a manifest it completes with exactly the skip line and nothing else changed. An undecodable manifest or a missing `cuda` key raises. Otherwise the manifest is cached. Keys are kept, the trace is append-only and the caches are untouched |
| `Preload.PlannedTableAt` | cupy/_environment.py:202-236 | the reference table keeps the slots before the start and gives every later slot its reference outcome. An unconfigured library is unchanged. For a configured one a single load is tried: of the qualified `lib64`/`bin` directory when it exists, of the bare file name otherwise. The slot records the source and handle when that load succeeds and is unchanged when it fails |
| `Preload.PreloadLibFollowsPlan` | cupy/_environment.py:202-236 | on a usable entry an iteration completes, sets its slot to the reference outcome, and appends exactly the reference lines and warnings |
| `Preload.ForEachLibAdvance` | cupy/_environment.py:202-236 | on a well-formed manifest one iteration completes, only its own slot changes, to the reference outcome, and the loop goes on from the next slot |
| `Preload.ForEachLibLoadsPlanned` | cupy/_environment.py:202-236 | on a well-formed manifest the loop never raises and leaves `_preload_libs` equal to the reference table |
| `Preload.ForEachLibTrace` | cupy/_environment.py:202-236 | on a well-formed manifest the trace and warnings grow by exactly the reference lines and warnings, library by library in order |
| `Preload.PreloadLibrariesLoadsPlanned` | cupy/_environment.py:184-236 | a wheel install with a well-formed manifest completes, and `_preload_libs` ends as the reference table: unconfigured libraries and libraries whose one load fails are left unchanged, the others hold the loaded source and handle |
| `Preload.PreloadLibrariesTrace` | cupy/_environment.py:184-236 | a wheel install with a well-formed manifest logs the two header lines, then each library's lines in order. Warnings come only from failed qualified loads |
| `Preload.MistypedEntryRaises` | cupy/_environment.py:206-207 | a manifest entry that is not an object raises `TypeError` at that library and changes nothing |
| `Preload.NonWheelInstallTrace` | cupy/_environment.py:191-194 | with no manifest, a fresh module preloads nothing and its rendered trace is exactly `Skip preloading as this is not a wheel installation` |
| `Preload.PreloadLogs` | cupy/_environment.py:239-240 | an empty trace renders as `''`. Otherwise splitting the rendered text gives every line's pieces in order, which are the trace's lines themselves when none holds a newline |

## Left out

- Real filesystem, `shutil.which`, `os.path.exists`/`isdir`: these are foreign calls. They are fields of `Env` (sets and a function), fixed for the run.
- `os.path.normpath` inside `abspath`: `.`, `..` and repeated slashes are not collapsed, and a trailing `/` is not removed. A `CUPY_CUDA_LIB_PATH` such as `/opt/lib/` therefore stays `/opt/lib/` in the `CuPy CUDA library directory:` line, where Python shows `/opt/lib`.
- `os.path.expanduser`: only the `~/` form used here is modelled. `HOME` is used, or else the account's home directory from `Env`.
- `ctypes.CDLL` and its handles: native loading. It is the `Env.load` outcome (a handle token or the exception's type name and text).
- `json.load` and opening the file: parsing is a library call. The manifest comes already decoded, or `None` when decoding fails. A top-level value that is not an object is not modelled. `version` and `filename` values are assumed to be strings. A non-string `cuda` value is shown in the trace through the `str()` text the parser supplies, since Python's `repr` of a dict or number is not modelled.
- `warnings.warn`: modelled only as appending to the warnings list. Filtering and de-duplication are not modelled.
- `os.add_dll_directory` in `_setup_win32_dll_directory`: a platform side effect. Only the raise and the trace line are modelled.
- `get_cupy_install_path`: computed from `__file__`. It is the `Env.installPath` field, and the package directory is `<installPath>/cupy`.
- `sys.platform` and `sys.version_info`: they are the `Env.win32` and `Env.python38` flags.
- Concurrency: first-call races are outside the model.
- The text of `TypeError` messages: the model names the mistyped value instead of Python's wording.
- Preload.CudaLibPath: for a relative `CUPY_CUDA_LIB_PATH` its own contract gives the working-directory prefix and the value as suffix. The single separator between them is stated by `Paths.AbsPath`.
- Windows path rules (`ntpath`): `Env.win32` selects only the `bin` directory and the DLL step. Joining, `isabs`, `abspath` and `expanduser` follow the POSIX rules on every platform. Drive letters, `\` separators and `USERPROFILE` are not modelled.
- ForEachLib: its own contract is the frame of the loop. The outcome and the exact trace are stated by `Preload.ForEachLibLoadsPlanned` and `Preload.ForEachLibTrace`, for manifests whose named entries all have both keys. For a manifest with a bad entry, only `Preload.PreloadLib` and `Preload.MistypedEntryRaises` describe the raise at that entry, and no lemma states the trace up to it.
- PreloadLibraries: its own contract covers the no-manifest, error and frame cases. The as-written batch on a well-formed manifest is stated by `Preload.PreloadLibrariesLoadsPlanned` and `Preload.PreloadLibrariesTrace`. The trace before a raise on a bad entry is not stated.

## Findings

| source | as written | input that shows it | evidently intended | confidence | as-written member | corrected member |
|---|---|---|---|---|---|---|
| cupy/_environment.py:211-217 | the qualified path stops at `.../<version>/lib64`. When it exists, `ctypes.CDLL` gets that directory and there is no file-name fallback | `~/.cupy/cuda_lib/11.0/cudnn/8.0.0/lib64` is a directory holding a loadable `libcudnn.so.8.0.0`: the load of the directory fails, a warning is emitted and cuDNN is not preloaded | join the file name too, `join(..., lib64dir, filename)`, and load that file | high, not executed | `Preload.QualifiedDirectoryNeverLoads` | `Preload.AttemptIntended` |

`Preload.Attempt` with the directory as its path is the code as written, and
the whole batch (`Preload.PreloadEntry` and everything built on it, the
reference plan included) runs it, as this version of the code does.
`Preload.QualifiedDirectoryNeverLoads` shows the failure.
`Preload.AttemptIntended` is the corrected attempt, and
`Preload.IntendedLoadsQualifiedFile` states what it does.
