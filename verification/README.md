# code-runner request path, modelled in Dafny

code-runner is an HTTP service that runs submitted source code inside a throwaway Docker
container. A client posts a runtime identifier (`container`) and the source text (`code`). The
handler `handleRunCode` then does the following:

1. Looks the identifier up in the static runner registry.
2. Writes the source to a uniquely named staging file under `data/temp/`.
3. Creates a container with no network. The file is bind-mounted at the runtime's target path.
   When limits are switched on, the container gets a CPU and memory limit.
4. Starts the container.
5. Calls `runCode`, which races the container's exit against a 60-second timer. After a normal
   exit it fetches the combined stdout and stderr.
6. Answers with `{"code": 1 | 0, "out": ...}`. The flag is 1 for exit status 0 and 0 for any
   other status.

Deferred calls stop and force-remove the container, then delete the staging file. Each runs on
every path that gets past the point where it is registered. A failed `os.Getwd` or write runs
neither. A panic on a nil limit or a failed create runs only the file removal. Every later exit
runs both, teardown first.

The model has one pure function for the request path, `Api.HandleRunCode`. Its inputs are:

- the registry;
- the configuration;
- the parsed request;
- the file id;
- an `Env` record, which says how each external call turns out: `os.Getwd`, `os.WriteFile`,
  `ContainerCreate`, `ContainerStart`, the winner of the `select`, and `ContainerLogs` with
  `io.ReadAll`.

It returns the trace of external calls (`WriteFile`, `Create`, `Start`, `Wait`, `FetchLogs`,
`Stop`, `Remove`, `RemoveFile`) and the response. Go's `defer` is modelled as a stack that is
unwound last-in-first-out (`Defer.Unwind`). Go's `int64` multiplication wraps around explicitly
(`GoTypes.Mul64`). The registry (`Model.Runners`) is a constant map of immutable records.

Modules:

- `GoTypes` (`gotypes.dfy`): `int64` with wrap-around, bytes, nil-able values, `(value, error)`
  results.
- `Model` (`dockerimage.dfy`): `ResourceLimit`, `DockerImage` and the `Runners` registry.
- `Defer` (`defer.dfy`): LIFO unwinding of deferred calls.
- `Api` (`api.dfy`): the request and response types, `runCode` and `handleRunCode`.
- `ApiProperties` (`api_properties.dfy`): a flat reference lifecycle (`Lifecycle`) and the
  lemmas about traces and responses.

Points of the code the model follows closely:

- Logs are fetched only inside `runCode`, only after a normal exit, and before teardown. A
  failed start goes straight to stop and remove, with no log fetch
  (`cmd/api/main.go:162-164`, `205-213`).
- The results of `ContainerStop` and `ContainerRemove` are ignored, not logged
  (`cmd/api/main.go:153-159`).
- The comment on `ResourceLimit.CPU` calls one unit "0.0001 of a CPU". The arithmetic makes
  one unit 10^7 nanoCPUs, which is 0.01 of a core. The model follows the arithmetic.

## Model

| member | source | states |
|---|---|---|
| `Model.Runners` | internal/model/dockerimage.go:16-31 | the registry has exactly one key, "golang-latest"; every entry has a non-empty image, a non-empty command and a non-nil limit |
| `Model.Lookup` | internal/model/dockerimage.go:19-30 | a lookup finds an entry exactly for "golang-latest", and a found entry is runnable |
| `Model.GolangLatestEntry` | internal/model/dockerimage.go:20-28 | the entry's image is "golang:alpine" and its target is "/runner/main.go"; its command has three words starting "sh", "-c"; its limit is CPU 10, Mem 50 |
| `GoTypes.Wrap64` | cmd/api/main.go:124-127 | the result is congruent to the exact value modulo 2^64 and equals it when it fits in int64 |
| `GoTypes.Mul64` | cmd/api/main.go:124-127 | an int64 product is congruent to the mathematical product modulo 2^64 (two's-complement wrap-around), and equals it whenever that product fits |
| `Defer.Unwind` | cmd/api/main.go:118-160 | Go's deferred calls run last-registered first; the unwound list is exactly as long as all registered groups together, and `Defer.UnwindIsReversedFlatten` shows it is their concatenation in reverse registration order |
| `Defer.UnwindIsReversedFlatten` | cmd/api/main.go:118-160 | unwinding deferred calls runs every registered group exactly once, in reverse registration order |
| `Defer.UnwindTwo` | cmd/api/main.go:118-160 | with the file-removal group registered first and the teardown group second, teardown runs first |
| `Api.LimitResources` | cmd/api/main.go:122-128 | limits off: zero resources; limits on with a limit: NanoCPUs = CPU * 10000000 and Memory = Mem * 1024 * 1024, each modulo 2^64 as Go's int64 wraps, and exactly when the product fits; limits on without a limit: the nil-dereference panic |
| `Api.StatusFlag` | cmd/api/main.go:171-174 | the flag is 1 exactly when the exit status is 0, and 0 exactly when it is not |
| `Api.RunCode` | cmd/api/main.go:182-215 | the wait is always issued; logs are fetched exactly after a normal exit; a timeout yields "execute timeout"; a wait error yields that error; no error exactly when the exit was normal and the logs were read, in which case the status and bytes are passed through |
| `Api.HandleRunCode` | cmd/api/main.go:96-180 | the handler for one parsed request; a JSON response carries code 0 or 1; `ApiProperties.TraceIsLifecycle` shows its trace equals the flat `ApiProperties.Lifecycle` on every input |
| `ApiProperties.Lifecycle` | cmd/api/main.go:96-214 | the reference lifecycle: at most eight calls, none exactly when the runtime is unknown or the working directory cannot be read; each call is present exactly when its own precondition holds, and `ApiProperties.TraceIsLifecycle` shows the handler produces exactly it |
| `ApiProperties.TraceIsLifecycle` | cmd/api/main.go:96-180 | the handler's early returns plus LIFO defers give exactly the flat lifecycle: each call is present exactly when its own precondition holds |
| `ApiProperties.LifecycleCases` | cmd/api/main.go:96-180 | the exact trace on each of the seven ways a request can end |
| `ApiProperties.TraceWhenNotStaged` | cmd/api/main.go:102-117 | before a successful write nothing is deferred: the trace is empty or the single failed write |
| `ApiProperties.FailureResponses` | cmd/api/main.go:107-168 | a failed Getwd returns that error; a failed write returns that error; after a start, a timeout, a wait error or a failed log read returns the wrapper's fallback and no JSON body |
| `ApiProperties.UnknownRuntimeTouchesNothing` | cmd/api/main.go:102-105 | an unknown runtime gives "image not found" with an empty trace |
| `ApiProperties.StagingFileRemovedLast` | cmd/api/main.go:113-118 | the staging file is removed if and only if the write succeeded; it is then written first at cwd + "/" + "data/temp/" + fileID and removed exactly once, as the last call |
| `ApiProperties.StagingWritePath` | cmd/api/main.go:107-115 | every write goes to cwd + "/" + "data/temp/" + fileID and carries the request's code |
| `ApiProperties.PanicStillRemovesFile` | cmd/api/main.go:118-128 | a nil limit with limits on panics before create, and the staging file is still removed |
| `ApiProperties.CreateFailureSkipsTeardown` | cmd/api/main.go:130-147 | a failed create gives the trace write, create, remove-file: no stop and no remove |
| `ApiProperties.StartFailureTearsDown` | cmd/api/main.go:150-164 | a failed start gives start, stop, remove, remove-file, with no wait and no logs |
| `ApiProperties.TraceWhenStarted` | cmd/api/main.go:166-169 | after a start: one wait; logs only after a normal exit; then stop, remove and file removal |
| `ApiProperties.TraceWhenNotCreated` | cmd/api/main.go:115-147 | without a container the trace holds only the write, the create attempt and the file removal |
| `ApiProperties.TraceWhenCreated` | cmd/api/main.go:145-160 | with a container the trace opens with write, create, start and ends with stop, remove, remove-file |
| `ApiProperties.ContainerTornDownOnEveryPath` | cmd/api/main.go:150-160 | Stop(timeout 0) and Remove(force, remove volumes) occur if and only if the create succeeded, each exactly once, just before the file removal |
| `ApiProperties.RaceThenLogs` | cmd/api/main.go:187-214 | after a start the wait happens exactly once; logs are fetched exactly when the container exited normally, before the stop; a wait error or timeout gives no JSON response |
| `ApiProperties.JsonOnlyOnCleanRun` | cmd/api/main.go:166-179 | the JSON body appears exactly when start, wait and log read all succeed; code = 1 exactly for exit status 0 and 0 for any other; out is the log bytes |
| `ApiProperties.CreateArguments` | cmd/api/main.go:120-144 | the container gets the entry's image and command, no TTY, network "none", one bind mount from conf.Temp + fileID to the entry's target, and the resources from the limit arithmetic |
| `ApiProperties.TraceIsPhased` | cmd/api/main.go:115-214 | every trace has each kind of call at most once, in the order write, create, start, wait, fetch logs, stop, remove, remove file |
| `ApiProperties.RegistryNeverPanics` | cmd/api/main.go:102-128 | with the real registry the limit is never nil, so the handler never panics; it answers "image not found" exactly when `Model.Lookup` finds no entry |
| `ApiProperties.GolangLatestResources` | internal/model/dockerimage.go:25-28 | the golang entry yields NanoCPUs = 100000000 and Memory = 52428800 |

## Left out

- HTTP plumbing is not modelled: Fiber routing, basic auth, the logger and recover middleware, `handleRunner`, the signal-driven shutdown, and `c.BodyParser`. The model starts from the parsed request, and a caught panic becomes the `Panicked` response.
- `init` is I/O and is not modelled: building the Docker client, reading `data/config.json` and pulling images. `Config` carries only the `Temp` and `Limit` fields the handler reads.
- UUID generation is not modelled. The file id is a parameter, and its uniqueness is not modelled.
- The 60-second timer and the channels are not modelled. The `select` is the `WaitOutcome` choice, so exactly one case wins by construction. `timeout.Stop()` has no observable effect in the model.
- Docker, filesystem and `global.Context` internals are not modelled. Each call is only success or failure. Log stream framing (stdout/stderr multiplexing) is not modelled: the logs are "some bytes or an error".
- `ContainerStop` and `ContainerRemove` are recorded as calls, but their outcomes are not modelled, because the handler ignores them.
- The `log.Println` calls and JSON encoding are not modelled. The output stays as bytes instead of passing through `string(outLog)`.
- `lo.TryOr3` is a foreign library. After a failed run, the error the handler returns may be the wrapper's nil fallback, so `RunFailed` carries no error value. A panic inside `runCode`, which the wrapper would also catch, is not modelled.
- A wait error is assumed to be non-nil. Docker sends only non-nil errors on that channel.
- Concurrency between requests is not modelled. Each request is independent.
- The unused `Template` field is kept in `DockerImage`, but nothing reads it.
