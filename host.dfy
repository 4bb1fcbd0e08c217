/**
 * The outside world that the create step acts on: a filesystem, the pods
 * the sandbox engine has created, the processes the OS has started, and the
 * collaborators whose behaviour this core cannot see.
 */
module Host {
  import opened Wrappers

  type Path = string
  type Pid = int

  /** What `os.Stat` finds at a path. */
  datatype Entry = Directory | File(content: string)

  /** An error reported by a collaborator or the OS, passed through opaquely. */
  datatype Fault = NotExist(path: Path) | Failed(reason: string)

  /** Runtime configuration and pod configuration are opaque to the create step. */
  datatype RuntimeConfig = RuntimeConfig(settings: map<string, string>)
  datatype PodConfig = PodConfig(settings: map<string, string>)

  /** One call into a collaborator or the OS, as the create step makes it. */
  datatype Call =
    | LoadConfiguration(configPath: Path)
    | ResolvePodConfig(runtime: RuntimeConfig, bundlePath: Path, containerID: string, console: Path)
    | CreatePod(config: PodConfig)
    | StartProcess(binary: Path)
    | RemoveAll(path: Path)
    | CreateFile(path: Path)
    | WriteString(path: Path, text: string)

  /** What `f.WriteString` reports: a byte count and possibly an error. */
  datatype WriteResult = WriteResult(count: nat, fault: Option<Fault>)

  /**
   * How each collaborator answers. The answers are arbitrary: the model
   * holds for every choice of them.
   */
  datatype Env = Env(
    loadConfiguration: Path -> Result<RuntimeConfig, Fault>,
    podConfig: (RuntimeConfig, Path, string, Path) -> Result<PodConfig, Fault>,
    createPod: PodConfig -> Option<Fault>,
    startProcess: Path -> Result<Pid, Fault>,
    removeAll: Path -> Option<Fault>,
    createFile: Path -> Option<Fault>,
    writeString: (Path, string) -> WriteResult)

  /**
   * The observable state: the filesystem, the pods and processes created so
   * far, and every call made so far, in order.
   */
  datatype WorldState = WorldState(
    fs: map<Path, Entry>,
    pods: seq<PodConfig>,
    processes: seq<Pid>,
    calls: seq<Call>)

  /** `q` is `p` itself or lies in the tree below `p`. */
  predicate Below(q: Path, p: Path) {
    q == p || p + "/" <= q
  }

  /** The filesystem after `os.RemoveAll(p)` succeeds: `p` and everything below it are gone. */
  function RemoveTree(fs: map<Path, Entry>, p: Path): map<Path, Entry> {
    map q | q in fs && !Below(q, p) :: fs[q]
  }

  /** `os.Stat`: the entry at `p`, or a not-exist error. */
  function Stat(fs: map<Path, Entry>, p: Path): Result<Entry, Fault> {
    if p in fs then Ok(fs[p]) else Err(NotExist(p))
  }
}
