# The `create` step of an OCI container runtime, in Dafny

This project models `create.go`, the "create" subcommand of a container
runtime built on virtcontainers. Given a container ID, a bundle directory, a
console path and a PID-file path, `create` checks its arguments, loads the
runtime configuration, derives a pod configuration from the bundle, creates
the pod, starts a detached shim process (`/usr/bin/shim`) and writes the
shim's PID, as decimal text, to the PID file. The PID file is written last:
the container daemon takes its existence to mean that creation has finished.
A failed `create` cleans nothing up, however: a write that fails or is short leaves
a file holding part of the PID text (possibly none), and a failed removal keeps
whatever PID file was there before. So a PID file can exist after `create` failed
(`FailedWriteLeavesPartialFile`, `FailedRemoveKeepsStaleFile`).

The model has five modules:

- `Wrappers` (`wrappers.dfy`): `Option`, `Result` and `Outcome` (success or a returned error).
- `Decimal` (`decimal.dfy`): the text `%d` gives for an integer (`IntToDecimal`) and
  a reference parser (`ParseDecimal`) that reads it back.
- `Host` (`host.dfy`): the world the step acts on. The filesystem is a map from path to
  `Directory` or `File(content)`, with the pods created so far, the processes started so
  far and a journal of the calls into collaborators and of the OS calls that change state
  (`StartProcess`, `RemoveAll`, `Create`, `WriteString`). The read-only OS calls `os.Stat`
  and `os.Environ` are not journaled. `Env` holds the answers of the collaborators whose
  code is not visible (`loadConfiguration`, `oci.PodConfig`, `vc.CreatePod`, `os.StartProcess`, `os.RemoveAll`, `os.Create`,
  `f.WriteString`). Every property holds for every choice of those answers. `os.Stat` is
  a lookup in the filesystem map.
- `CreateSpec` (`create_spec.dfy`): `create`, `startShim` and `createPIDFile` as pure
  functions (`CreateStep`, `ShimStep`, `PidFileStep`) from the world before to the result
  and the world after. The argument checks are the function `Validate`. The lemmas here
  state the ordering and failure-atomicity properties.
- `Create` (`create.dfy`): class `World`, whose fields are the filesystem, pods, processes
  and call journal. Its methods `Create`, `StartShim` and `CreatePIDFile` follow the Go
  code statement by statement, with early returns. Each is proved to return exactly the
  result, and leave exactly the world, that the matching `CreateSpec` function gives.

Errors: there is one `Error` constructor for each message `create.go` makes itself
(lines 75, 80, 85, 91, 94, 147 and 167). `Collaborator(cause)` carries a collaborator's
error, passed through unchanged.

## Model

| member | source | states |
|---|---|---|
| `Decimal.NatToDecimal` | create.go:159 | the digits of a natural number are non-empty, all decimal digits, and start with `0` only for zero |
| `Decimal.IntToDecimal` | create.go:159 | `%d` text is non-empty; it starts with `-` exactly for negative numbers and is digits otherwise; a non-zero number's digits have no leading zero, and zero is written `0` |
| `Decimal.RoundTrip` | create.go:159 | parsing the `%d` text of any integer gives back that integer |
| `Decimal.Injective` | create.go:159 | distinct PIDs are written as distinct texts |
| `CreateSpec.UniqueContainerID` | create.go:128-130 | the uniqueness check accepts every container ID |
| `CreateSpec.ShimStep` | create.go:132-143 | starting the shim leaves the filesystem and the pods as they were; when `os.StartProcess` fails it returns PID -1 and that error and records no process; when it succeeds it returns the PID `os.StartProcess` reported and records exactly that PID as one new process |
| `CreateSpec.PidFileStep` | create.go:145-171 | an empty path fails with the missing-path error and changes nothing; on success the path holds a file with exactly the PID's decimal text; pods and processes never change |
| `CreateSpec.CreateStep` | create.go:72-126 | `create` only adds pods and processes, never removes them (no rollback); on success it has started a process and the PID-file path holds the decimal text of the newest process's PID |
| `CreateSpec.ProvisionStep` | create.go:97-125 | after the checks: pods and processes only grow; on success exactly one pod and one process are added and the PID file holds the new process's PID |
| `CreateSpec.LaunchStep` | create.go:110-125 | once the pod exists: no pod changes; at most one process is added; on success exactly one, and the PID file holds its PID |
| `CreateSpec.Validate` | create.go:73-95 | the checks run in the order ID empty, ID unique, bundle empty, stat, not a directory; each error happens exactly when the earlier checks passed and this one failed; the input is accepted exactly when ID and bundle are non-empty and the bundle is an existing directory; "ID already in use" never happens |
| `CreateSpec.PidFileEmptyPath` | create.go:146-148 | an empty PID-file path fails with the missing-path error for every PID, and the world is unchanged |
| `CreateSpec.PidFileSucceedsIff` | create.go:145-171 | the PID file step succeeds exactly when the path is non-empty, remove and create succeed, and the write reports no error and the full length |
| `CreateSpec.PidFileContent` | create.go:150-161 | after success the path holds a file whose whole content is the PID's decimal text, which parses back to the PID; everything below the path is gone and all other paths are unchanged |
| `CreateSpec.OverwriteNotAppend` | create.go:150-161 | two successful writes to one path leave exactly the second PID's text, which differs from the first whenever the PIDs differ, and the set of paths is unchanged by the second write |
| `CreateSpec.ShortWriteReported` | create.go:161-168 | a write with no error but fewer bytes than the text fails with `ShortWrite(count, length)` |
| `CreateSpec.ShortWriteNeedsBrokenWriter` | create.go:166-168 | a writer that keeps Go's `io.Writer` contract never produces the short-write error |
| `CreateSpec.PidFileTouchesOnlyItsPath` | create.go:145-171 | whatever the outcome, writing the PID file changes nothing outside the tree at its path, creates no pod or process, and calls only remove, create and write on that path |
| `CreateSpec.ShimStartsAtMostOneProcess` | create.go:132-143 | starting the shim makes one `StartProcess` call on `/usr/bin/shim` and changes neither filesystem nor pods; it fails exactly when that call does; on success it records one process and returns the PID the call reported; on failure it returns -1 and the call's error, and records no process |
| `CreateSpec.EmptyIDRejectedFirst` | create.go:74-76 | an empty container ID fails with the missing-ID error whatever the other arguments and collaborators, and the world is unchanged |
| `CreateSpec.IDInUseUnreachable` | create.go:128-130 | because `uniqueContainerID` accepts every ID, `create` never returns the "ID already in use" error |
| `CreateSpec.InvalidInputChangesNothing` | create.go:73-95 | a failed argument check returns its own error before any collaborator is called; no call, pod, process or file change happens |
| `CreateSpec.CallsFollowPipelineOrder` | create.go:97-123 | the calls `create` makes follow the fixed order configuration, pod configuration, pod, shim, remove, create, write: the i-th call made is the i-th of that list, so each is made at most once and none is skipped |
| `CreateSpec.PidFileCallsMade` | create.go:145-171 | the PID-file step's calls are a prefix of remove, create, write on the path: none for an empty path; each call before the last succeeded; a collaborator error is returned exactly when the last call failed, and it is that call's error |
| `CreateSpec.CreateCallsMade` | create.go:72-126 | the calls `create` makes are a prefix, at most seven long, of the pipeline order; every call before the last succeeded; a collaborator error is returned exactly when the last call failed, unchanged |
| `CreateSpec.CollaboratorErrorPassesThrough` | create.go:97-123 | every call before the last one succeeded; `create` returns a collaborator error exactly when the last call it made reported one, and returns that error unchanged, so nothing is called after a failure |
| `CreateSpec.SucceedsIffEveryStepSucceeds` | create.go:72-126 | `create` succeeds exactly when every check passes and every step succeeds, the PID file included |
| `CreateSpec.PidFileIsLastAction` | create.go:118-125 | on success there is exactly one new pod, the configuration `oci.PodConfig` derived from the loaded runtime configuration, and one new process, the PID `os.StartProcess` reported; the seven calls are made in pipeline order; the last call writes that PID to the PID file; the filesystem differs only in the tree at the PID-file path, which now holds just the new PID file |
| `CreateSpec.FailedWriteLeavesPartialFile` | create.go:145-171 | once the shim started and the PID file was created, a write that fails or is short makes `create` fail yet leaves a file at the path holding only the bytes written (possibly none), so the file existing does not mean `create` succeeded |
| `CreateSpec.FailedRemoveKeepsStaleFile` | create.go:150-152 | once the shim started, a failing `os.RemoveAll` makes `create` return its error and leaves the filesystem as it was, so an earlier PID file at the path survives |
| `CreateSpec.FilesystemUntouchedUntilShimStarts` | create.go:97-116 | `create` itself makes no filesystem change before the shim starts: unless the shim started, the filesystem map is unchanged, so a failed configuration, pod creation or shim start never leads `create` to create or modify the PID file; nothing outside the PID file's tree ever changes |
| `CreateSpec.FailedLaunchKeepsPod` | create.go:107-116 | when the shim fails to start, the shim's error is returned, the created pod stays (no rollback), no process is recorded, and `create` makes no filesystem change |
| `Create.World.StartShim` | create.go:132-143 | the method returns the PID and error of `ShimStep` and leaves its world: -1 and no new process on failure, otherwise one new process |
| `Create.World.CreatePIDFile` | create.go:145-171 | the method returns the outcome of `PidFileStep` and leaves its world; an empty path fails with nothing changed; success leaves the removed tree plus a file holding the PID's decimal text |
| `Create.World.Create` | create.go:72-126 | the method returns the outcome of `CreateStep` and leaves its world; a failed argument check returns its error and leaves the world unchanged |

## Left out

- The command-line definition, flags and help text (create.go:27-65) are not modelled. They only declare how arguments reach `create`.
- `loadConfiguration`, `oci.PodConfig` and `vc.CreatePod` are not modelled inside. Their code is not part of this model, so they are arbitrary answers in `Env`. `RuntimeConfig` and `PodConfig` are opaque.
- Side effects of the collaborators themselves are not modelled: `loadConfiguration`, `oci.PodConfig`, `vc.CreatePod` and the shim are taken to leave the filesystem map unchanged, and a failed `vc.CreatePod` records no pod. The filesystem map therefore stands for what `create`'s own calls touch, and `FilesystemUntouchedUntilShimStarts` and `FailedLaunchKeepsPod` speak about those calls only.
- `os.Stat` is modelled as a lookup in the filesystem map, so its only error is "does not exist". Permission and I/O errors, symbolic links and path cleaning are not modelled. "Below a path" is a textual prefix test on `path + "/"`.
- `os.RemoveAll`: when it fails, the model leaves the filesystem unchanged. A real `RemoveAll` may remove part of the tree before failing.
- `os.Create`: when it fails, the path stays removed. The open file handle is not modelled. The source never closes it, and nothing is flushed or fsynced.
- `f.WriteString`: the byte count and the error are independent answers, so the check at create.go:166 is reachable in the model. A write reporting more bytes than the text is treated as a full write.
- The shim's environment, its detachment and its lifetime (create.go:133-137) are not modelled. Only its PID or its error is kept.
- Races between concurrent `create` calls, whether on the ID or on the PID-file path, are not modelled. The source does nothing about them.
- Error wording is not modelled. Only which check failed is kept, plus the collaborator's error where one is passed through.
- PIDs are unbounded integers. Go's `int` is 64 bits wide, but `%d` prints every value of it exactly, so nothing depends on the width.
- No registry of containers is modelled. The code's uniqueness check, `uniqueContainerID`, accepts every ID, and the model keeps it that way.
- Collaborator errors are not sorted into configuration, provisioning and launch kinds. The code returns them unchanged, and so does the model.
- `ParseDecimal` is not in the source. It is a reference inverse, used to state that the PID file's content determines the PID.
