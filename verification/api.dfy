/** The request path of the code runner: `handleRunCode` and `runCode`.
    Every call into Docker, the filesystem and the timer is replaced by an
    outcome drawn from `Env`; the handler returns the trace of external calls
    it makes, in order, and the response it produces. */
module Api {
  import opened GoTypes
  import opened Defer
  import Model

  /** The parts of `data/config.json` the handler reads: the host-side
      directory prefix under which staged files are visible to the Docker
      daemon, and the switch that turns resource limits on. */
  datatype Config = Config(temp: string, limit: bool)

  /** The parsed request body. */
  datatype RunCodeRequest = RunCodeRequest(container: string, code: string)

  /** The two `container.Resources` fields the handler sets; every other
      field keeps its zero value. */
  datatype Resources = Resources(nanoCPUs: Int64, memory: Int64)

  const NoResources: Resources := Resources(0, 0)

  datatype MountType = Bind

  datatype Mount = Mount(kind: MountType, source: string, target: string)

  /** The container and host configuration passed to `ContainerCreate`. */
  datatype CreateRequest = CreateRequest(
    image: string,
    cmd: seq<string>,
    tty: bool,
    networkMode: string,
    mounts: seq<Mount>,
    resources: Resources)

  datatype RemoveOptions = RemoveOptions(removeVolumes: bool, force: bool)

  datatype LogsOptions = LogsOptions(showStdout: bool, showStderr: bool)

  datatype WaitCondition = NotRunning

  /** One external call, recorded when it is made (whether or not it fails). */
  datatype Event =
    | WriteFile(path: string, data: string, mode: int)
    | Create(request: CreateRequest)
    | Start(id: string)
    | Wait(id: string, condition: WaitCondition)
    | FetchLogs(id: string, logsOptions: LogsOptions)
    | Stop(id: string, timeout: int)
    | Remove(id: string, removeOptions: RemoveOptions)
    | RemoveFile(path: string)

  /** Which of the three `select` cases wins: a value on the wait-response
      channel, a value on the error channel, or the deadline timer. */
  datatype WaitOutcome = Exited(statusCode: Int64) | WaitFailed(err: string) | TimedOut

  /** `ContainerLogs` followed by `io.ReadAll`: the log request fails, the
      read fails after some bytes, or all the bytes are read. */
  datatype LogsOutcome =
    | LogsFailed(err: string)
    | ReadFailed(partial: seq<Byte>, err: string)
    | LogsRead(bytes: seq<Byte>)

  /** What each external call does on this request. `cwd` is `os.Getwd`,
      `create` yields the new container's id. */
  datatype Env = Env(
    cwd: Result<string>,
    write: Result<()>,
    create: Result<string>,
    start: Result<()>,
    wait: WaitOutcome,
    logs: LogsOutcome)

  datatype WaitResponse = WaitResponse(statusCode: Int64)

  /** What `runCode` returns: the wait response (zero unless the container
      exited), the log bytes and the error, if any. */
  datatype RunResult = RunResult(exitBody: WaitResponse, outLog: seq<Byte>, err: Option<string>)

  datatype Run = Run(trace: seq<Event>, result: RunResult)

  /** Why the handler returned an error. `RunFailed` carries nothing: after a
      failed run the handler returns whatever error value the recovering
      wrapper hands back, which the model does not pin down. */
  datatype HandlerError =
    | ImageNotFound
    | GetwdFailed(msg: string)
    | WriteFailed(msg: string)
    | CreateFailed(msg: string)
    | StartFailed(msg: string)
    | RunFailed
  {
    /** The error's text, where the handler determines it. */
    function Message(): Option<string> {
      match this
      case ImageNotFound => Some(ImageNotFoundText)
      case GetwdFailed(m) => Some(m)
      case WriteFailed(m) => Some(m)
      case CreateFailed(m) => Some(m)
      case StartFailed(m) => Some(m)
      case RunFailed => None
    }
  }

  /** What the framework gets back: the JSON body `{"code": .., "out": ..}`;
      a `Failure`, where no JSON body is written and the handler returns the
      error (for `RunFailed`, the wrapper's fallback, possibly nil); or a
      runtime panic caught by the recover middleware. */
  datatype Response = Json(code: int, out: seq<Byte>) | Failure(error: HandlerError) | Panicked

  datatype Handled = Handled(trace: seq<Event>, response: Response)

  const ImageNotFoundText: string := "image not found"
  const ExecuteTimeoutText: string := "execute timeout"
  /** The staging file's permission bits, 0777 in octal. */
  const StagingFileMode: int := 511
  const StopTimeout: int := 0
  const ForceRemove: RemoveOptions := RemoveOptions(removeVolumes := true, force := true)
  const AllLogs: LogsOptions := LogsOptions(showStdout := true, showStderr := true)
  const NanoCPUsPerUnit: Int64 := 10000000

  /** Where the source is written on the handler's own filesystem. */
  function StagingPath(cwd: string, fileID: string): string {
    cwd + "/" + "data/temp/" + fileID
  }

  /** The same file as the Docker daemon sees it, the bind-mount source. */
  function MountSource(conf: Config, fileID: string): string {
    conf.temp + fileID
  }

  /** The resources to request. `None` is the nil dereference of a missing
      limit while limits are switched on: a panic. */
  function LimitResources(enabled: bool, limit: Option<Model.ResourceLimit>): (r: Option<Resources>)
    ensures r.None? <==> enabled && limit.None?
    ensures !enabled ==> r == Some(NoResources)
    ensures enabled && limit.Some? ==>
      && r.Some?
      && (limit.value.cpu * 10000000 - r.value.nanoCPUs) % Int64Modulus == 0
      && (limit.value.mem * 1024 * 1024 - r.value.memory) % Int64Modulus == 0
    ensures enabled && limit.Some? && InInt64(limit.value.cpu * 10000000) ==>
      r.Some? && r.value.nanoCPUs == limit.value.cpu * 10000000
    ensures enabled && limit.Some? && InInt64(limit.value.mem * 1024 * 1024) ==>
      r.Some? && r.value.memory == limit.value.mem * 1024 * 1024
  {
    if !enabled then Some(NoResources)
    else match limit
      case None => None
      case Some(l) =>
        var mem := Mul64(Mul64(l.mem, 1024), 1024);
        MebibytesWrap(l.mem);
        Some(Resources(Mul64(l.cpu, NanoCPUsPerUnit), mem))
  }

  function CreateRequestFor(image: Model.DockerImage, source: string, resources: Resources): CreateRequest {
    CreateRequest(image.image, image.cmd, false, "none", [Mount(Bind, source, image.target)], resources)
  }

  /** The deferred teardown registered once the container exists. */
  function Teardown(id: string): seq<Event> {
    [Stop(id, StopTimeout), Remove(id, ForceRemove)]
  }

  /** The response flag: 1 for a zero exit status, 0 for any other. */
  function StatusFlag(statusCode: Int64): (flag: int)
    ensures flag == 1 <==> statusCode == 0
    ensures flag == 0 <==> statusCode != 0
  {
    if statusCode == 0 then 1 else 0
  }

  /** `runCode`: wait for the container to stop, racing the deadline, then
      fetch its combined stdout and stderr after a normal exit only. */
  function RunCode(id: string, wait: WaitOutcome, logs: LogsOutcome): (r: Run)
    ensures |r.trace| >= 1 && r.trace[0] == Wait(id, NotRunning)
    ensures forall i :: 1 <= i < |r.trace| ==> r.trace[i] == FetchLogs(id, AllLogs)
    ensures |r.trace| == if wait.Exited? then 2 else 1
    ensures wait.TimedOut? ==> r.result.err == Some(ExecuteTimeoutText)
    ensures wait.WaitFailed? ==> r.result.err == Some(wait.err)
    ensures r.result.err.None? <==> wait.Exited? && logs.LogsRead?
    ensures r.result.err.None? ==>
      r.result.exitBody.statusCode == wait.statusCode && r.result.outLog == logs.bytes
  {
    var waited := [Wait(id, NotRunning)];
    match wait
    case WaitFailed(e) => Run(waited, RunResult(WaitResponse(0), [], Some(e)))
    case TimedOut => Run(waited, RunResult(WaitResponse(0), [], Some(ExecuteTimeoutText)))
    case Exited(status) =>
      var fetched := waited + [FetchLogs(id, AllLogs)];
      var exitBody := WaitResponse(status);
      match logs
      case LogsFailed(e) => Run(fetched, RunResult(exitBody, [], Some(e)))
      case ReadFailed(partial, e) => Run(fetched, RunResult(exitBody, partial, Some(e)))
      case LogsRead(bytes) => Run(fetched, RunResult(exitBody, bytes, None))
  }

  /** A Go `return`: the deferred groups run, last registered first, after
      the calls already made. */
  function Return(trace: seq<Event>, deferred: seq<seq<Event>>, response: Response): Handled {
    Handled(trace + Unwind(deferred), response)
  }

  /** Two wrapped multiplications by 1024 agree with the exact product
      modulo 2^64, and with the product itself when it fits in int64. */
  lemma MebibytesWrap(mem: Int64)
    ensures (mem * 1024 * 1024 - Mul64(Mul64(mem, 1024), 1024)) % Int64Modulus == 0
    ensures InInt64(mem * 1024 * 1024) ==> Mul64(Mul64(mem, 1024), 1024) == mem * 1024 * 1024
  {
    var kib: int := Mul64(mem, 1024);
    var mib: int := Mul64(kib, 1024);
    CongruentScaled(mem * 1024 - kib, 1024);
    assert mem * 1024 * 1024 - mib == (mem * 1024 - kib) * 1024 + (kib * 1024 - mib);
  }

  /** `handleRunCode` for one parsed request, a registry, a configuration, a
      fresh file id and the outcomes of the external calls. */
  function HandleRunCode(
    runners: map<string, Model.DockerImage>,
    conf: Config,
    task: RunCodeRequest,
    fileID: string,
    env: Env): (h: Handled)
    ensures h.response.Json? ==> 0 <= h.response.code <= 1
  {
    if task.container !in runners then Return([], [], Failure(ImageNotFound))
    else
      var image := runners[task.container];
      match env.cwd
      case Err(e) => Return([], [], Failure(GetwdFailed(e)))
      case Ok(cwd) =>
        var local := StagingPath(cwd, fileID);
        var written := [WriteFile(local, task.code, StagingFileMode)];
        if env.write.Err? then Return(written, [], Failure(WriteFailed(env.write.msg)))
        else
          var deferred := [[RemoveFile(local)]];
          match LimitResources(conf.limit, image.limit)
          case None => Return(written, deferred, Panicked)
          case Some(resources) =>
            var created := written + [Create(CreateRequestFor(image, MountSource(conf, fileID), resources))];
            match env.create
            case Err(e) => Return(created, deferred, Failure(CreateFailed(e)))
            case Ok(id) =>
              var deferred' := deferred + [Teardown(id)];
              var started := created + [Start(id)];
              if env.start.Err? then Return(started, deferred', Failure(StartFailed(env.start.msg)))
              else
                var run := RunCode(id, env.wait, env.logs);
                if run.result.err.Some? then Return(started + run.trace, deferred', Failure(RunFailed))
                else
                  var code := StatusFlag(run.result.exitBody.statusCode);
                  Return(started + run.trace, deferred', Json(code, run.result.outLog))
  }
}
