/**
 Memoised discovery of the CUDA toolkit root, the `nvcc` compiler and the
 CUB headers (`get_cuda_path`, `get_nvcc_path`, `get_cub_path` and their
 uncached probes), plus the Windows DLL-directory setup that depends on the
 toolkit root.
 */
module PathResolver {
  import opened Wrappers
  import opened Paths
  import opened Environment

  const DefaultCudaPath: string := "/usr/local/cuda"

  /** Marker results of the CUB lookup; they are not paths. */
  const BundledCub: string := "<bundle>"
  const ToolkitCub: string := "<CUDA>"

  /** `os.environ.get('CUDA_PATH', '')` */
  function CudaPathVar(env: Env): string {
    Lookup(env, "CUDA_PATH").OrElse("")
  }

  /** The grandparent directory of the `nvcc` found on the default search path. */
  function CompilerRoot(env: Env): PyStr {
    match env.which("nvcc", None)
    case None => None
    case Some(nvcc) => Some(Dirname(Dirname(nvcc)))
  }

  /** `_get_cuda_path()`: the `CUDA_PATH` override if it exists, else the root
      derived from `nvcc` on the search path, else `/usr/local/cuda` if it
      exists, else `None`. */
  function ProbeCudaPath(env: Env): (r: PyStr)
    ensures Exists(env, CudaPathVar(env)) ==> r == Some(CudaPathVar(env))
    ensures !Exists(env, CudaPathVar(env)) && CompilerRoot(env).Some? ==> r == CompilerRoot(env)
    ensures !Exists(env, CudaPathVar(env)) && CompilerRoot(env) == None ==>
              (r == Some(DefaultCudaPath) <==> Exists(env, DefaultCudaPath))
    ensures r == None <==>
              !Exists(env, CudaPathVar(env)) && CompilerRoot(env) == None && !Exists(env, DefaultCudaPath)
    ensures r.Some? && r != CompilerRoot(env) ==> Exists(env, r.value)
  {
    var fromVar := CudaPathVar(env);
    if Exists(env, fromVar) then Some(fromVar)
    else if CompilerRoot(env).Some? then CompilerRoot(env)
    else if Exists(env, DefaultCudaPath) then Some(DefaultCudaPath)
    else None
  }

  /** `get_cuda_path()`: runs the probe only while the cache holds the
      sentinel, and stores whatever the probe returns. */
  function GetCudaPath(env: Env, st: State): (c: Call<PyStr>)
    ensures st.cudaPath != Uninitialised ==> c == Call(st.cudaPath, st)
    ensures st.cudaPath == Uninitialised ==> c.result == ProbeCudaPath(env)
    ensures c.after.cudaProbes == st.cudaProbes + (if st.cudaPath == Uninitialised then 1 else 0)
    ensures c.after == st.(cudaPath := c.result, cudaProbes := c.after.cudaProbes)
  {
    if st.cudaPath == Uninitialised then
      var r := ProbeCudaPath(env);
      Call(r, st.(cudaPath := r, cudaProbes := st.cudaProbes + 1))
    else
      Call(st.cudaPath, st)
  }

  /** Once a call has produced a value other than `''` (including `None`),
      every later call returns it and leaves the state alone, whatever the
      environment has become. */
  lemma CudaPathMemoised(env: Env, later: Env, st: State)
    ensures var c := GetCudaPath(env, st);
            c.result != Uninitialised ==> GetCudaPath(later, c.after) == c
  {
  }

  /** A computed `''` is indistinguishable from the sentinel, so the next
      call probes again. */
  lemma EmptyCudaPathReprobed(env: Env, st: State)
    requires st.cudaPath == Uninitialised
    requires ProbeCudaPath(env) == Uninitialised
    ensures GetCudaPath(env, GetCudaPath(env, st).after).after.cudaProbes == st.cudaProbes + 2
  {
  }

  /** With `CUDA_PATH` unset and `which('nvcc')` answering the relative
      `bin/nvcc`, the probe computes `''`, which is then never cached. */
  lemma RelativeCompilerNotCached(env: Env, st: State)
    requires "CUDA_PATH" !in env.vars
    requires env.which("nvcc", None) == Some("bin/nvcc")
    requires st.cudaPath == Uninitialised
    ensures GetCudaPath(env, st).result == Uninitialised
    ensures GetCudaPath(env, st).after.cudaPath == Uninitialised
  {
    RelativeCompilerHasEmptyRoot();
  }

  /** `_get_nvcc_path()`: the `NVCC` override unconditionally, else `None`
      without a toolkit root, else `nvcc` searched in `<root>/bin`. */
  function ProbeNvccPath(env: Env, st: State): (c: Call<PyStr>)
    ensures "NVCC" in env.vars ==> c == Call(Some(env.vars["NVCC"]), st)
    ensures "NVCC" !in env.vars ==> c.after == GetCudaPath(env, st).after
    ensures "NVCC" !in env.vars && GetCudaPath(env, st).result == None ==> c.result == None
    ensures "NVCC" !in env.vars && GetCudaPath(env, st).result.Some? ==>
              c.result == env.which("nvcc", Some(Join(GetCudaPath(env, st).result.value, "bin")))
  {
    match Lookup(env, "NVCC")
    case Some(nvcc) => Call(Some(nvcc), st)
    case None =>
      var root := GetCudaPath(env, st);
      if root.result == None then Call(None, root.after)
      else Call(env.which("nvcc", Some(Join(root.result.value, "bin"))), root.after)
  }

  /** `get_nvcc_path()` */
  function GetNvccPath(env: Env, st: State): (c: Call<PyStr>)
    ensures st.nvccPath != Uninitialised ==> c == Call(st.nvccPath, st)
    ensures st.nvccPath == Uninitialised ==>
              var p := ProbeNvccPath(env, st);
              c.result == p.result && c.after == p.after.(nvccPath := p.result, nvccProbes := st.nvccProbes + 1)
    ensures c.after.nvccPath == c.result
  {
    if st.nvccPath == Uninitialised then
      var p := ProbeNvccPath(env, st);
      Call(p.result, p.after.(nvccPath := p.result, nvccProbes := st.nvccProbes + 1))
    else
      Call(st.nvccPath, st)
  }

  lemma NvccPathMemoised(env: Env, later: Env, st: State)
    ensures var c := GetNvccPath(env, st);
            c.result != Uninitialised ==> GetNvccPath(later, c.after) == c
  {
  }

  /** Asking for the toolkit root and then for `nvcc`, or the other way
      round, gives the same answers and the same final state. */
  lemma CudaAndNvccCommute(env: Env, st: State)
    ensures var cuda1 := GetCudaPath(env, st);
            var nvcc1 := GetNvccPath(env, cuda1.after);
            var nvcc2 := GetNvccPath(env, st);
            var cuda2 := GetCudaPath(env, nvcc2.after);
            cuda1.result == cuda2.result && nvcc1.result == nvcc2.result && nvcc1.after == cuda2.after
  {
  }

  /** `os.path.join(current_dir, 'core/include/cupy/cub')`, with `current_dir`
      the package directory `<install>/cupy`. */
  function BundledCubDir(env: Env): string {
    Join(Join(env.installPath, "cupy"), "core/include/cupy/cub")
  }

  /** `_get_cub_path()`: resolves the toolkit root first, then prefers the
      bundled headers over the toolkit's own `include/cub`. */
  function ProbeCubPath(env: Env, st: State): (c: Call<PyStr>)
    ensures c.after == GetCudaPath(env, st).after
    ensures c.result == Some(BundledCub) <==> IsDir(env, BundledCubDir(env))
    ensures var root := GetCudaPath(env, st).result;
            c.result == Some(ToolkitCub) <==>
              !IsDir(env, BundledCubDir(env)) && root != None && IsDir(env, Join(root.value, "include/cub"))
    ensures c.result in {Some(BundledCub), Some(ToolkitCub), None}
  {
    var root := GetCudaPath(env, st);
    if IsDir(env, BundledCubDir(env)) then Call(Some(BundledCub), root.after)
    else if root.result != None && IsDir(env, Join(root.result.value, "include/cub")) then
      Call(Some(ToolkitCub), root.after)
    else Call(None, root.after)
  }

  /** `get_cub_path()` */
  function GetCubPath(env: Env, st: State): (c: Call<PyStr>)
    ensures st.cubPath != Uninitialised ==> c == Call(st.cubPath, st)
    ensures st.cubPath == Uninitialised ==>
              var p := ProbeCubPath(env, st);
              c.result == p.result && c.after == p.after.(cubPath := p.result, cubProbes := st.cubProbes + 1)
    ensures c.after.cubPath == c.result
  {
    if st.cubPath == Uninitialised then
      var p := ProbeCubPath(env, st);
      Call(p.result, p.after.(cubPath := p.result, cubProbes := st.cubProbes + 1))
    else
      Call(st.cubPath, st)
  }

  /** The CUB lookup never yields `''`, so after the first call it is never
      probed again. */
  lemma CubPathProbedOnce(env: Env, later: Env, st: State)
    ensures var c := GetCubPath(env, st);
            GetCubPath(later, c.after) == c && c.after.cubProbes <= st.cubProbes + 1
  {
  }

  /** `_setup_win32_dll_directory()`: on Windows with Python 3.8 or later it
      needs the toolkit root, raising when there is none, and logs the
      `<root>/bin` directory it adds. The `os.add_dll_directory` call itself
      is not modelled. */
  function SetupWin32DllDirectory(env: Env, st: State): (c: Call<Outcome>)
    ensures !(env.win32 && env.python38) ==> c == Call(Completed, st)
    ensures env.win32 && env.python38 ==>
              var root := GetCudaPath(env, st);
              (c.result.Raised? <==> root.result == None)
              && (root.result == None ==>
                    c == Call(Raised(RuntimeError("CUDA path could not be detected.")), root.after))
              && (root.result.Some? ==>
                    c.after == root.after.(logs := root.after.logs + ["Adding DLL search path: " + Join(root.result.value, "bin")]))
  {
    if env.win32 && env.python38 then
      var root := GetCudaPath(env, st);
      if root.result == None then
        Call(Raised(RuntimeError("CUDA path could not be detected.")), root.after)
      else
        var binPath := Join(root.result.value, "bin");
        Call(Completed, Log(root.after, "Adding DLL search path: " + binPath))
    else
      Call(Completed, st)
  }
}
