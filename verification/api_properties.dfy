/** What the request path promises on every branch: the order of the
    external calls, the cleanup of the container and of the staging file,
    the race outcome, the response mapping and the create arguments. */
module ApiProperties {
  import opened GoTypes
  import opened Defer
  import Model
  import opened Api

  type Registry = map<string, Model.DockerImage>

  /** How far a request gets, stated independently of the handler's control
      flow. */
  predicate Known(runners: Registry, task: RunCodeRequest) {
    task.container in runners
  }

  /** The source file was written, so its removal is owed. */
  predicate Staged(runners: Registry, task: RunCodeRequest, env: Env) {
    Known(runners, task) && env.cwd.Ok? && env.write.Ok?
  }

  /** The resources can be worked out: limits are off, or the entry has one. */
  predicate LimitsDefined(runners: Registry, conf: Config, task: RunCodeRequest)
    requires Known(runners, task)
  {
    !conf.limit || runners[task.container].limit.Some?
  }

  /** A container exists, so its teardown is owed. */
  predicate Created(runners: Registry, conf: Config, task: RunCodeRequest, env: Env) {
    Staged(runners, task, env) && LimitsDefined(runners, conf, task) && env.create.Ok?
  }

  predicate Started(runners: Registry, conf: Config, task: RunCodeRequest, env: Env) {
    Created(runners, conf, task, env) && env.start.Ok?
  }

  /** The request the handler would pass to `ContainerCreate`. */
  function RequestFor(runners: Registry, conf: Config, task: RunCodeRequest, fileID: string): CreateRequest
    requires Known(runners, task) && LimitsDefined(runners, conf, task)
  {
    var image := runners[task.container];
    CreateRequestFor(image, MountSource(conf, fileID), LimitResources(conf.limit, image.limit).value)
  }

  /** The lifecycle as a flat list: each call present exactly when its own
      precondition holds, in the order create, start, wait, fetch, stop,
      remove, with the staging file written first and removed last. */
  function Lifecycle(runners: Registry, conf: Config, task: RunCodeRequest, fileID: string, env: Env): (t: seq<Event>)
    ensures |t| <= 8
    ensures |t| == 0 <==> !(Known(runners, task) && env.cwd.Ok?)
  {
    var writes := Known(runners, task) && env.cwd.Ok?;
    var staged := Staged(runners, task, env);
    var creates := staged && LimitsDefined(runners, conf, task);
    var created := Created(runners, conf, task, env);
    var started := Started(runners, conf, task, env);
    var path := if env.cwd.Ok? then StagingPath(env.cwd.value, fileID) else "";
    var id := if env.create.Ok? then env.create.value else "";
    Step(writes, WriteFile(path, task.code, StagingFileMode))
    + (if creates then [Create(RequestFor(runners, conf, task, fileID))] else [])
    + Step(created, Start(id))
    + Step(started, Wait(id, NotRunning))
    + Step(started && env.wait.Exited?, FetchLogs(id, AllLogs))
    + Step(created, Stop(id, StopTimeout))
    + Step(created, Remove(id, ForceRemove))
    + Step(staged, RemoveFile(path))
  }

  /** The call `e` when `happens` holds, and nothing otherwise. */
  function Step(happens: bool, e: Event): (s: seq<Event>)
    ensures |s| <= 1 && (forall i :: 0 <= i < |s| ==> s[i] == e)
  {
    if happens then [e] else []
  }

  /** The position of each kind of call in the lifecycle. */
  function Phase(e: Event): nat {
    match e
    case WriteFile(_, _, _) => 0
    case Create(_) => 1
    case Start(_) => 2
    case Wait(_, _) => 3
    case FetchLogs(_, _) => 4
    case Stop(_, _) => 5
    case Remove(_, _) => 6
    case RemoveFile(_) => 7
  }

  predicate Phased(t: seq<Event>) {
    forall i, j :: 0 <= i < j < |t| ==> Phase(t[i]) < Phase(t[j])
  }

  /** Before the file is written nothing is deferred: the trace is at most
      the failed write. */
  lemma TraceWhenNotStaged(runners: Registry, conf: Config, task: RunCodeRequest, fileID: string, env: Env)
    requires !Staged(runners, task, env)
    ensures HandleRunCode(runners, conf, task, fileID, env).trace ==
      if Known(runners, task) && env.cwd.Ok?
      then [WriteFile(StagingPath(env.cwd.value, fileID), task.code, StagingFileMode)] else []
  {
  }

  /** A panic on a missing limit still runs the file removal registered
      before it. */
  lemma PanicStillRemovesFile(runners: Registry, conf: Config, task: RunCodeRequest, fileID: string, env: Env)
    requires Staged(runners, task, env) && !LimitsDefined(runners, conf, task)
    ensures var r := HandleRunCode(runners, conf, task, fileID, env);
      var path := StagingPath(env.cwd.value, fileID);
      r.trace == [WriteFile(path, task.code, StagingFileMode), RemoveFile(path)] && r.response == Panicked
  {
  }

  /** A failed create leaves nothing to tear down: only the file removal runs. */
  lemma CreateFailureSkipsTeardown(runners: Registry, conf: Config, task: RunCodeRequest, fileID: string, env: Env)
    requires Staged(runners, task, env) && LimitsDefined(runners, conf, task) && env.create.Err?
    ensures var r := HandleRunCode(runners, conf, task, fileID, env);
      var path := StagingPath(env.cwd.value, fileID);
      && r.trace == [WriteFile(path, task.code, StagingFileMode), Create(RequestFor(runners, conf, task, fileID)), RemoveFile(path)]
      && r.response == Failure(CreateFailed(env.create.msg))
  {
  }

  /** A failed start goes straight to the deferred teardown and file removal. */
  lemma StartFailureTearsDown(runners: Registry, conf: Config, task: RunCodeRequest, fileID: string, env: Env)
    requires Created(runners, conf, task, env) && env.start.Err?
    ensures var r := HandleRunCode(runners, conf, task, fileID, env);
      var path := StagingPath(env.cwd.value, fileID);
      var id := env.create.value;
      && r.trace == [WriteFile(path, task.code, StagingFileMode), Create(RequestFor(runners, conf, task, fileID)),
                     Start(id), Stop(id, StopTimeout), Remove(id, ForceRemove), RemoveFile(path)]
      && r.response == Failure(StartFailed(env.start.msg))
  {
    UnwindTwo([RemoveFile(StagingPath(env.cwd.value, fileID))], Teardown(env.create.value));
  }

  /** A started container is waited on once, its logs fetched after a normal
      exit only, and then torn down before the file is removed. */
  lemma TraceWhenStarted(runners: Registry, conf: Config, task: RunCodeRequest, fileID: string, env: Env)
    requires Started(runners, conf, task, env)
    ensures var path := StagingPath(env.cwd.value, fileID);
      var id := env.create.value;
      HandleRunCode(runners, conf, task, fileID, env).trace ==
        [WriteFile(path, task.code, StagingFileMode), Create(RequestFor(runners, conf, task, fileID)),
         Start(id), Wait(id, NotRunning)]
        + (if env.wait.Exited? then [FetchLogs(id, AllLogs)] else [])
        + [Stop(id, StopTimeout), Remove(id, ForceRemove), RemoveFile(path)]
  {
    var id := env.create.value;
    UnwindTwo([RemoveFile(StagingPath(env.cwd.value, fileID))], Teardown(id));
    var run := RunCode(id, env.wait, env.logs);
    if env.wait.Exited? {
      assert run.trace == [Wait(id, NotRunning), FetchLogs(id, AllLogs)];
    } else {
      assert run.trace == [Wait(id, NotRunning)];
    }
  }

  /** Without a container, the trace holds at most the write, the create
      attempt and the file removal. */
  lemma TraceWhenNotCreated(runners: Registry, conf: Config, task: RunCodeRequest, fileID: string, env: Env)
    requires !Created(runners, conf, task, env)
    ensures var t := HandleRunCode(runners, conf, task, fileID, env).trace;
      forall i :: 0 <= i < |t| ==> t[i].WriteFile? || t[i].Create? || t[i].RemoveFile?
  {
    if !Staged(runners, task, env) {
      TraceWhenNotStaged(runners, conf, task, fileID, env);
    } else if !LimitsDefined(runners, conf, task) {
      PanicStillRemovesFile(runners, conf, task, fileID, env);
    } else {
      CreateFailureSkipsTeardown(runners, conf, task, fileID, env);
    }
  }

  /** With a container, the trace opens with write, create, start and closes
      with stop, remove, file removal. */
  lemma TraceWhenCreated(runners: Registry, conf: Config, task: RunCodeRequest, fileID: string, env: Env)
    requires Created(runners, conf, task, env)
    ensures var t := HandleRunCode(runners, conf, task, fileID, env).trace;
      var path := StagingPath(env.cwd.value, fileID);
      var id := env.create.value;
      && |t| >= 6
      && t[0] == WriteFile(path, task.code, StagingFileMode)
      && t[1] == Create(RequestFor(runners, conf, task, fileID))
      && t[2] == Start(id)
      && t[|t| - 3] == Stop(id, StopTimeout)
      && t[|t| - 2] == Remove(id, ForceRemove)
      && t[|t| - 1] == RemoveFile(path)
  {
    if env.start.Err? {
      StartFailureTearsDown(runners, conf, task, fileID, env);
    } else {
      TraceWhenStarted(runners, conf, task, fileID, env);
    }
  }

  /** The trace of each way a request can end, spelled out. */
  lemma LifecycleCases(runners: Registry, conf: Config, task: RunCodeRequest, fileID: string, env: Env)
    ensures var t := HandleRunCode(runners, conf, task, fileID, env).trace;
      var path := if env.cwd.Ok? then StagingPath(env.cwd.value, fileID) else "";
      var id := if env.create.Ok? then env.create.value else "";
      var write := WriteFile(path, task.code, StagingFileMode);
      && (!(Known(runners, task) && env.cwd.Ok?) ==> t == [])
      && (Known(runners, task) && env.cwd.Ok? && !Staged(runners, task, env) ==> t == [write])
      && (Staged(runners, task, env) && !LimitsDefined(runners, conf, task) ==> t == [write, RemoveFile(path)])
      && (Staged(runners, task, env) && LimitsDefined(runners, conf, task) ==>
           var create := Create(RequestFor(runners, conf, task, fileID));
           && (!Created(runners, conf, task, env) ==> t == [write, create, RemoveFile(path)])
           && (Created(runners, conf, task, env) && !Started(runners, conf, task, env) ==>
                t == [write, create, Start(id), Stop(id, StopTimeout), Remove(id, ForceRemove), RemoveFile(path)])
           && (Started(runners, conf, task, env) && !env.wait.Exited? ==>
                t == [write, create, Start(id), Wait(id, NotRunning),
                      Stop(id, StopTimeout), Remove(id, ForceRemove), RemoveFile(path)])
           && (Started(runners, conf, task, env) && env.wait.Exited? ==>
                t == [write, create, Start(id), Wait(id, NotRunning), FetchLogs(id, AllLogs),
                      Stop(id, StopTimeout), Remove(id, ForceRemove), RemoveFile(path)]))
  {
    if !Staged(runners, task, env) {
      TraceWhenNotStaged(runners, conf, task, fileID, env);
    } else if !LimitsDefined(runners, conf, task) {
      PanicStillRemovesFile(runners, conf, task, fileID, env);
    } else if env.create.Err? {
      CreateFailureSkipsTeardown(runners, conf, task, fileID, env);
    } else if env.start.Err? {
      StartFailureTearsDown(runners, conf, task, fileID, env);
    } else {
      TraceWhenStarted(runners, conf, task, fileID, env);
    }
  }

  /** The handler's early returns and LIFO defers produce exactly the flat
      lifecycle. */
  lemma TraceIsLifecycle(runners: Registry, conf: Config, task: RunCodeRequest, fileID: string, env: Env)
    ensures HandleRunCode(runners, conf, task, fileID, env).trace == Lifecycle(runners, conf, task, fileID, env)
  {
    if Created(runners, conf, task, env) {
      CreatedTraceIsLifecycle(runners, conf, task, fileID, env);
    } else {
      UncreatedTraceIsLifecycle(runners, conf, task, fileID, env);
    }
  }

  lemma UncreatedTraceIsLifecycle(runners: Registry, conf: Config, task: RunCodeRequest, fileID: string, env: Env)
    requires !Created(runners, conf, task, env)
    ensures HandleRunCode(runners, conf, task, fileID, env).trace == Lifecycle(runners, conf, task, fileID, env)
  {
    if !Staged(runners, task, env) {
      TraceWhenNotStaged(runners, conf, task, fileID, env);
    } else if !LimitsDefined(runners, conf, task) {
      PanicStillRemovesFile(runners, conf, task, fileID, env);
    } else {
      CreateFailureSkipsTeardown(runners, conf, task, fileID, env);
    }
  }

  lemma CreatedTraceIsLifecycle(runners: Registry, conf: Config, task: RunCodeRequest, fileID: string, env: Env)
    requires Created(runners, conf, task, env)
    ensures HandleRunCode(runners, conf, task, fileID, env).trace == Lifecycle(runners, conf, task, fileID, env)
  {
    if env.start.Err? {
      StartFailureTearsDown(runners, conf, task, fileID, env);
    } else {
      TraceWhenStarted(runners, conf, task, fileID, env);
    }
  }

  /** The response on the paths that end in an error before or after the
      container runs: a staging error is returned as it came, and a run that
      did not exit normally or whose logs could not be read ends in the
      wrapper's fallback, with no JSON body. */
  lemma FailureResponses(runners: Registry, conf: Config, task: RunCodeRequest, fileID: string, env: Env)
    ensures var r := HandleRunCode(runners, conf, task, fileID, env).response;
      && (Known(runners, task) && env.cwd.Err? ==> r == Failure(GetwdFailed(env.cwd.msg)))
      && (Known(runners, task) && env.cwd.Ok? && env.write.Err? ==> r == Failure(WriteFailed(env.write.msg)))
      && (Started(runners, conf, task, env) && !(env.wait.Exited? && env.logs.LogsRead?) ==> r == Failure(RunFailed))
  {
  }

  /** An unknown runtime is refused before any file or container exists. */
  lemma UnknownRuntimeTouchesNothing(runners: Registry, conf: Config, task: RunCodeRequest, fileID: string, env: Env)
    requires !Known(runners, task)
    ensures var r := HandleRunCode(runners, conf, task, fileID, env);
      r.trace == [] && r.response == Failure(ImageNotFound)
      && r.response.error.Message() == Some("image not found")
  {
  }

  /** Once the write succeeded, the file is removed exactly once, as the very
      last call; if it did not, it is never removed. */
  lemma StagingFileRemovedLast(runners: Registry, conf: Config, task: RunCodeRequest, fileID: string, env: Env)
    ensures var t := HandleRunCode(runners, conf, task, fileID, env).trace;
      (exists i :: 0 <= i < |t| && t[i].RemoveFile?) <==> Staged(runners, task, env)
    ensures var t := HandleRunCode(runners, conf, task, fileID, env).trace;
      Staged(runners, task, env) ==>
        var path := env.cwd.value + "/" + "data/temp/" + fileID;
        && |t| >= 2
        && t[0] == WriteFile(path, task.code, StagingFileMode)
        && t[|t| - 1] == RemoveFile(path)
        && (forall i :: 0 <= i < |t| - 1 ==> !t[i].RemoveFile?)
  {
    TraceIsPhased(runners, conf, task, fileID, env);
    var t := HandleRunCode(runners, conf, task, fileID, env).trace;
    if !Staged(runners, task, env) {
      TraceWhenNotStaged(runners, conf, task, fileID, env);
    } else if Created(runners, conf, task, env) {
      TraceWhenCreated(runners, conf, task, fileID, env);
    } else if LimitsDefined(runners, conf, task) {
      CreateFailureSkipsTeardown(runners, conf, task, fileID, env);
    } else {
      PanicStillRemovesFile(runners, conf, task, fileID, env);
    }
    if Staged(runners, task, env) {
      assert t[|t| - 1].RemoveFile?;
    }
  }

  /** Once a container exists it is stopped with no grace period and then
      force-removed with its volumes, each exactly once, on every path; no
      container is stopped or removed otherwise. */
  lemma ContainerTornDownOnEveryPath(runners: Registry, conf: Config, task: RunCodeRequest, fileID: string, env: Env)
    ensures var t := HandleRunCode(runners, conf, task, fileID, env).trace;
      (exists i :: 0 <= i < |t| && t[i].Stop?) <==> Created(runners, conf, task, env)
    ensures var t := HandleRunCode(runners, conf, task, fileID, env).trace;
      (exists i :: 0 <= i < |t| && t[i].Remove?) <==> Created(runners, conf, task, env)
    ensures var t := HandleRunCode(runners, conf, task, fileID, env).trace;
      Created(runners, conf, task, env) ==>
        && |t| >= 6
        && t[|t| - 3] == Stop(env.create.value, 0)
        && t[|t| - 2] == Remove(env.create.value, RemoveOptions(removeVolumes := true, force := true))
        && (forall i :: 0 <= i < |t| && t[i].Stop? ==> i == |t| - 3)
        && (forall i :: 0 <= i < |t| && t[i].Remove? ==> i == |t| - 2)
  {
    TraceIsPhased(runners, conf, task, fileID, env);
    var t := HandleRunCode(runners, conf, task, fileID, env).trace;
    if Created(runners, conf, task, env) {
      TraceWhenCreated(runners, conf, task, fileID, env);
      assert t[|t| - 3].Stop? && t[|t| - 2].Remove?;
    } else {
      TraceWhenNotCreated(runners, conf, task, fileID, env);
    }
  }

  /** After a successful start the handler waits exactly once; logs are
      fetched exactly when the container exited normally, and before the
      teardown; a wait error or timeout yields no JSON response. */
  lemma RaceThenLogs(runners: Registry, conf: Config, task: RunCodeRequest, fileID: string, env: Env)
    requires Started(runners, conf, task, env)
    ensures var r := HandleRunCode(runners, conf, task, fileID, env);
      var t := r.trace;
      var id := env.create.value;
      && |t| >= 7
      && t[2] == Start(id) && t[3] == Wait(id, NotRunning)
      && (forall i :: 0 <= i < |t| && t[i].Wait? ==> i == 3)
      && ((exists i :: 0 <= i < |t| && t[i].FetchLogs?) <==> env.wait.Exited?)
      && (env.wait.Exited? ==> |t| == 8 && t[4] == FetchLogs(id, AllLogs) && t[5].Stop?)
      && (!env.wait.Exited? ==> |t| == 7 && t[4].Stop? && r.response == Failure(RunFailed))
  {
    TraceIsPhased(runners, conf, task, fileID, env);
    TraceWhenStarted(runners, conf, task, fileID, env);
    var t := HandleRunCode(runners, conf, task, fileID, env).trace;
    if env.wait.Exited? {
      assert t[4].FetchLogs?;
    }
  }

  /** The JSON body is produced exactly on a clean run; its flag is 1 for
      exit status 0 and 0 for any other, and its output is the log bytes. */
  lemma JsonOnlyOnCleanRun(runners: Registry, conf: Config, task: RunCodeRequest, fileID: string, env: Env)
    ensures var r := HandleRunCode(runners, conf, task, fileID, env);
      r.response.Json? <==> Started(runners, conf, task, env) && env.wait.Exited? && env.logs.LogsRead?
    ensures var r := HandleRunCode(runners, conf, task, fileID, env);
      r.response.Json? ==>
        && (r.response.code == 1 <==> env.wait.statusCode == 0)
        && (r.response.code == 0 <==> env.wait.statusCode != 0)
        && r.response.out == env.logs.bytes
  {
  }

  /** The container runs the entry's image and command, without a TTY or a
      network, with the staged file bind-mounted at the entry's target and
      the resources derived from its limit. */
  lemma CreateArguments(runners: Registry, conf: Config, task: RunCodeRequest, fileID: string, env: Env)
    ensures var t := HandleRunCode(runners, conf, task, fileID, env).trace;
      forall i :: 0 <= i < |t| && t[i].Create? ==>
        && Known(runners, task)
        && var image := runners[task.container];
        && t[i].request.image == image.image
        && t[i].request.cmd == image.cmd
        && !t[i].request.tty
        && t[i].request.networkMode == "none"
        && t[i].request.mounts == [Mount(Bind, conf.temp + fileID, image.target)]
        && LimitResources(conf.limit, image.limit) == Some(t[i].request.resources)
  {
    TraceIsPhased(runners, conf, task, fileID, env);
    if !Staged(runners, task, env) {
      TraceWhenNotStaged(runners, conf, task, fileID, env);
    } else if Created(runners, conf, task, env) {
      TraceWhenCreated(runners, conf, task, fileID, env);
    } else if LimitsDefined(runners, conf, task) {
      CreateFailureSkipsTeardown(runners, conf, task, fileID, env);
    } else {
      PanicStillRemovesFile(runners, conf, task, fileID, env);
    }
  }

  /** The source is written, with its text, under the working directory's
      data/temp directory, named by the file id. */
  lemma StagingWritePath(runners: Registry, conf: Config, task: RunCodeRequest, fileID: string, env: Env)
    ensures var t := HandleRunCode(runners, conf, task, fileID, env).trace;
      forall i :: 0 <= i < |t| && t[i].WriteFile? ==>
        && env.cwd.Ok?
        && t[i].path == env.cwd.value + "/" + "data/temp/" + fileID
        && t[i].data == task.code
  {
    TraceIsPhased(runners, conf, task, fileID, env);
    if !Staged(runners, task, env) {
      TraceWhenNotStaged(runners, conf, task, fileID, env);
    } else if Created(runners, conf, task, env) {
      TraceWhenCreated(runners, conf, task, fileID, env);
    } else if LimitsDefined(runners, conf, task) {
      CreateFailureSkipsTeardown(runners, conf, task, fileID, env);
    } else {
      PanicStillRemovesFile(runners, conf, task, fileID, env);
    }
  }

  /** Eight optional calls, one per phase, concatenated in phase order. */
  lemma StepsArePhased(c0: seq<Event>, c1: seq<Event>, c2: seq<Event>, c3: seq<Event>,
                       c4: seq<Event>, c5: seq<Event>, c6: seq<Event>, c7: seq<Event>)
    requires |c0| <= 1 && (forall i :: 0 <= i < |c0| ==> Phase(c0[i]) == 0)
    requires |c1| <= 1 && (forall i :: 0 <= i < |c1| ==> Phase(c1[i]) == 1)
    requires |c2| <= 1 && (forall i :: 0 <= i < |c2| ==> Phase(c2[i]) == 2)
    requires |c3| <= 1 && (forall i :: 0 <= i < |c3| ==> Phase(c3[i]) == 3)
    requires |c4| <= 1 && (forall i :: 0 <= i < |c4| ==> Phase(c4[i]) == 4)
    requires |c5| <= 1 && (forall i :: 0 <= i < |c5| ==> Phase(c5[i]) == 5)
    requires |c6| <= 1 && (forall i :: 0 <= i < |c6| ==> Phase(c6[i]) == 6)
    requires |c7| <= 1 && (forall i :: 0 <= i < |c7| ==> Phase(c7[i]) == 7)
    ensures Phased(c0 + c1 + c2 + c3 + c4 + c5 + c6 + c7)
  {
  }

  /** The flat lifecycle lists its calls in phase order. */
  lemma LifecycleIsPhased(runners: Registry, conf: Config, task: RunCodeRequest, fileID: string, env: Env)
    ensures Phased(Lifecycle(runners, conf, task, fileID, env))
  {
    var staged := Staged(runners, task, env);
    var created := Created(runners, conf, task, env);
    var started := Started(runners, conf, task, env);
    var path := if env.cwd.Ok? then StagingPath(env.cwd.value, fileID) else "";
    var id := if env.create.Ok? then env.create.value else "";
    StepsArePhased(
      Step(Known(runners, task) && env.cwd.Ok?, WriteFile(path, task.code, StagingFileMode)),
      if staged && LimitsDefined(runners, conf, task) then [Create(RequestFor(runners, conf, task, fileID))] else [],
      Step(created, Start(id)),
      Step(started, Wait(id, NotRunning)),
      Step(started && env.wait.Exited?, FetchLogs(id, AllLogs)),
      Step(created, Stop(id, StopTimeout)),
      Step(created, Remove(id, ForceRemove)),
      Step(staged, RemoveFile(path)));
  }

  /** Every call happens at most once, strictly in lifecycle order. */
  lemma TraceIsPhased(runners: Registry, conf: Config, task: RunCodeRequest, fileID: string, env: Env)
    ensures Phased(HandleRunCode(runners, conf, task, fileID, env).trace)
  {
    TraceIsLifecycle(runners, conf, task, fileID, env);
    LifecycleIsPhased(runners, conf, task, fileID, env);
  }

  /** With the real registry the limit is always present, so the handler
      never panics; it refuses a request as "image not found" exactly when
      the registry lookup finds nothing. */
  lemma RegistryNeverPanics(conf: Config, task: RunCodeRequest, fileID: string, env: Env)
    ensures HandleRunCode(Model.Runners(), conf, task, fileID, env).response != Panicked
    ensures HandleRunCode(Model.Runners(), conf, task, fileID, env).response == Failure(ImageNotFound)
      <==> Model.Lookup(task.container).None?
  {
  }

  /** The golang entry's limit, multiplied out: 0.1 core and 50 MiB. */
  lemma GolangLatestResources()
    ensures LimitResources(true, Model.Runners()[Model.GolangLatest].limit)
      == Some(Resources(100000000, 52428800))
  {
  }
}
