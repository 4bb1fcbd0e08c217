/**
 * The create step as the program runs it: methods that check their
 * arguments, call the collaborators one after another and return at the
 * first error, changing the world as they go. Each method is proved to
 * leave exactly the world, and return exactly the result, that the
 * corresponding function of CreateSpec describes.
 */
module Create {
  import opened Wrappers
  import opened Decimal
  import opened Host
  import opened CreateSpec

  class World {
    /** The filesystem, path by path. */
    var fs: map<Path, Entry>
    /** The pods the sandbox engine has created. */
    var pods: seq<PodConfig>
    /** The processes the OS has started. */
    var processes: seq<Pid>
    /** Every call made into a collaborator or the OS, in order. */
    ghost var calls: seq<Call>

    ghost function State(): WorldState
      reads this
    {
      WorldState(fs, pods, processes, calls)
    }

    constructor (initial: map<Path, Entry>)
      ensures State() == WorldState(initial, [], [], [])
    {
      fs := initial;
      pods := [];
      processes := [];
      calls := [];
    }

    /** `startShim`: launch the shim binary and return its PID, or -1 and the error. */
    method StartShim(env: Env) returns (pid: Pid, fault: Option<Fault>)
      modifies this
      ensures Launch(pid, fault, State()) == ShimStep(old(State()), env)
      ensures fault.Some? ==> pid == -1 && processes == old(processes)
      ensures fault.None? ==> processes == old(processes) + [pid]
      ensures fs == old(fs) && pods == old(pods)
    {
      calls := calls + [StartProcess(DefaultShimPath)];
      var started := env.startProcess(DefaultShimPath);
      if started.Err? {
        return -1, Some(started.error);
      }
      processes := processes + [started.value];
      return started.value, None;
    }

    /** `createPIDFile`: replace whatever is at `path` with a file holding the decimal text of `pid`. */
    method CreatePIDFile(path: Path, pid: Pid, env: Env) returns (result: Outcome<Error>)
      modifies this
      ensures Step(result, State()) == PidFileStep(old(State()), path, pid, env)
      ensures path == "" ==> result == Fail(MissingPIDFilePath) && fs == old(fs)
      ensures result.Pass? ==> fs == RemoveTree(old(fs), path)[path := File(IntToDecimal(pid))]
      ensures pods == old(pods) && processes == old(processes)
    {
      if path == "" {
        return Fail(MissingPIDFilePath);
      }

      calls := calls + [RemoveAll(path)];
      var removeFault := env.removeAll(path);
      if removeFault.Some? {
        return Fail(Collaborator(removeFault.value));
      }
      fs := RemoveTree(fs, path);

      calls := calls + [CreateFile(path)];
      var createFault := env.createFile(path);
      if createFault.Some? {
        return Fail(Collaborator(createFault.value));
      }
      fs := fs[path := File("")];
      ghost var created := fs;

      var text := IntToDecimal(pid);
      calls := calls + [WriteString(path, text)];
      var written := env.writeString(path, text);
      var n := if written.count < |text| then written.count else |text|;
      fs := fs[path := File(text[..n])];
      assert fs == RemoveTree(old(fs), path)[path := File(text[..n])] by {
        assert created == RemoveTree(old(fs), path)[path := File("")];
      }
      if written.fault.Some? {
        return Fail(Collaborator(written.fault.value));
      }
      if n < |text| {
        return Fail(ShortWrite(n, |text|));
      }
      assert text[..n] == text;
      return Pass;
    }

    /**
     * `create`: check the arguments, then load the configuration, derive
     * the pod configuration, create the pod, start the shim and, last,
     * write its PID file; the first error ends the call and is returned.
     */
    method Create(containerID: string, bundlePath: Path, console: Path, pidFilePath: Path, env: Env)
      returns (result: Outcome<Error>)
      modifies this
      ensures Step(result, State()) ==
        CreateStep(old(State()), containerID, bundlePath, console, pidFilePath, env)
      ensures Validate(old(fs), containerID, bundlePath).Some? ==>
        result == Fail(Validate(old(fs), containerID, bundlePath).value) && State() == old(State())
    {
      if containerID == "" {
        return Fail(MissingContainerID);
      }
      if !UniqueContainerID(containerID) {
        return Fail(ContainerIDInUse);
      }
      if bundlePath == "" {
        return Fail(MissingBundlePath);
      }
      var info := Stat(fs, bundlePath);
      if info.Err? {
        return Fail(InvalidBundlePath(info.error));
      }
      if info.value != Directory {
        return Fail(BundleNotDirectory);
      }

      calls := calls + [LoadConfiguration("")];
      var runtime := env.loadConfiguration("");
      if runtime.Err? {
        return Fail(Collaborator(runtime.error));
      }

      calls := calls + [ResolvePodConfig(runtime.value, bundlePath, containerID, console)];
      var config := env.podConfig(runtime.value, bundlePath, containerID, console);
      if config.Err? {
        return Fail(Collaborator(config.error));
      }

      calls := calls + [CreatePod(config.value)];
      var podFault := env.createPod(config.value);
      if podFault.Some? {
        return Fail(Collaborator(podFault.value));
      }
      pods := pods + [config.value];

      var pid, shimFault := StartShim(env);
      if shimFault.Some? {
        return Fail(Collaborator(shimFault.value));
      }

      // The PID file is the signal that creation is complete, so it is written last.
      result := CreatePIDFile(pidFilePath, pid, env);
    }
  }
}
