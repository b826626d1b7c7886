/**
  The execution engine `execute_python_code`: it stages the snippet into
  `temp.py` in a workspace directory, starts one `pip install <pkg>` container
  per extracted requirement, then one `python /workspace/temp.py` container,
  waits for it, reads its logs, removes it and deletes `temp.py`.  Any exception
  inside the `try` block ends the call with the string "Error: " + message.

  Docker and the operating system are seen only through their answers: the
  outcome of the k-th call inside the `try` block (it returned or it raised
  with a message) and the text of the container's logs.
 */
module Engine {
  import opened Text
  import Requirements
  import Fences

  const ImageName: string := "joshxt/safeexecute:latest"
  const MountPoint: string := "/workspace"
  const InstallPrefix: string := "pip install "
  const RunCommand: string := "python /workspace/temp.py"
  const ErrorPrefix: string := "Error: "
  const DefaultWorkspaceName: string := "WORKSPACE"
  const TempFileName: string := "temp.py"

  /** One entry of the `volumes` argument: host path bound at `bind` with access `mode`. */
  datatype Volume = Volume(hostPath: string, bind: string, mode: string)

  /** The arguments of one `client.containers.run` call. */
  datatype Container = Container(
    image: string, command: string, volume: Volume, workingDir: string,
    stdout: bool, stderr: bool, detach: bool)

  /** The calls inside the engine's `try` block that can raise. */
  datatype Step =
    | PrepareImage                  // install_docker_image(): find or pull the image
    | StartContainer(container: Container)
    | WaitContainer
    | ReadLogs                      // container.logs().decode("utf-8")
    | RemoveContainer
    | DeleteFile(path: string)      // os.remove(temp_file)

  datatype Outcome = Returned | Raised(message: string)

  /** The Docker daemon and the host as the engine sees them: the outcome of its k-th call, and the logs. */
  datatype Docker = Docker(answer: nat -> Outcome, logs: string)

  /** What the engine reads from the host: the current directory and `os.path.abspath`. */
  datatype Host = Host(cwd: string, absPath: string -> string)

  /** The run of a plan: the calls made, in order, and the string returned. */
  datatype Run = Run(steps: seq<Step>, result: string)

  /** Everything one call of the engine does: its directory, the file staged and its text, its calls and its result. */
  datatype Report = Report(workspace: string, tempFile: string, staged: string, steps: seq<Step>, result: string)

  /** `os.path.join(a, b)` on a POSIX host. */
  function PathJoin(a: string, b: string): (r: string)
    ensures |b| <= |r| && r[|r| - |b|..] == b
    ensures !(|b| > 0 && b[0] == '/') ==> a <= r
  {
    if |b| > 0 && b[0] == '/' then b
    else if a == [] || a[|a| - 1] == '/' then a + b
    else a + "/" + b
  }

  /** The workspace directory: the one given, else `os.path.join(os.getcwd(), "WORKSPACE")`. */
  function WorkspaceDir(workingDirectory: Option<string>, host: Host): (dir: string)
    ensures workingDirectory.Some? ==> dir == workingDirectory.value
    ensures workingDirectory.None? ==> host.cwd <= dir && |DefaultWorkspaceName| <= |dir| && dir[|dir| - |DefaultWorkspaceName|..] == DefaultWorkspaceName
  {
    match workingDirectory
    case None => PathJoin(host.cwd, DefaultWorkspaceName)
    case Some(d) => d
  }

  /** The one mount every container gets: the workspace, read-write, at /workspace. */
  function WorkspaceVolume(hostPath: string): (v: Volume)
    ensures v.hostPath == hostPath && v.bind == MountPoint && v.mode == "rw"
  {
    Volume(hostPath, MountPoint, "rw")
  }

  /** The arguments of the install call for `package`: its command is `pip install ` followed by the package. */
  function InstallContainer(package: string, volume: Volume): (c: Container)
    ensures InstallPrefix <= c.command && c.command[|InstallPrefix|..] == package
    ensures c.image == ImageName && c.volume == volume && c.workingDir == MountPoint
    ensures c.stdout && c.stderr && c.detach
  {
    Container(ImageName, InstallPrefix + package, volume, MountPoint, true, true, true)
  }

  /** The arguments of the run call: its command runs the staged file and is no install command. */
  function RunContainer(volume: Volume): (c: Container)
    ensures c.command == RunCommand && !(InstallPrefix <= c.command)
    ensures c.image == ImageName && c.volume == volume && c.workingDir == MountPoint
    ensures c.stdout && c.stderr && c.detach
  {
    assert RunCommand[1] != InstallPrefix[1];
    Container(ImageName, RunCommand, volume, MountPoint, true, true, true)
  }

  /** The install loop's calls: one install container per package, in order, all with the same mount. */
  function Installs(packages: seq<string>, volume: Volume): (steps: seq<Step>)
    ensures |steps| == |packages|
    ensures forall k :: 0 <= k < |steps| ==> steps[k].StartContainer? && steps[k].container.volume == volume
  {
    seq(|packages|, k requires 0 <= k < |packages| => StartContainer(InstallContainer(packages[k], volume)))
  }

  /** Every call the `try` block makes when nothing raises, in source order. */
  function Plan(packages: seq<string>, volume: Volume, tempFile: string): (plan: seq<Step>)
    ensures |plan| == |packages| + 6
    ensures plan[0] == PrepareImage && plan[|plan| - 1] == DeleteFile(tempFile)
  {
    [PrepareImage] + Installs(packages, volume)
      + [StartContainer(RunContainer(volume)), WaitContainer, ReadLogs, RemoveContainer, DeleteFile(tempFile)]
  }

  /** The index of the first of the calls `0..n` that raises, or `n` if none does. */
  function FirstRaise(answer: nat -> Outcome, n: nat): (h: nat)
    ensures h <= n
    ensures forall j :: 0 <= j < h ==> answer(j).Returned?
    ensures h < n ==> answer(h).Raised?
    decreases n
  {
    if n == 0 then 0
    else
      var h := FirstRaise(answer, n - 1);
      if h < n - 1 then h
      else if answer(n - 1).Raised? then n - 1
      else n
  }

  /**
    Carrying out a plan of calls: they are made in plan order, each one only
    after all before it returned; the first exception ends the run and is
    returned as "Error: " + message; if none raises, the logs are returned.
   */
  function Perform(plan: seq<Step>, docker: Docker): (r: Run)
    ensures r.steps <= plan
    ensures plan != [] ==> r.steps != []
    ensures forall j :: 0 <= j < |r.steps| - 1 ==> docker.answer(j).Returned?
    ensures |r.steps| < |plan| ==> docker.answer(|r.steps| - 1).Raised?
    ensures r.result ==
      if r.steps != [] && docker.answer(|r.steps| - 1).Raised?
      then ErrorPrefix + docker.answer(|r.steps| - 1).message
      else docker.logs
  {
    var h := FirstRaise(docker.answer, |plan|);
    if h < |plan| then Run(plan[..h + 1], ErrorPrefix + docker.answer(h).message)
    else Run(plan, docker.logs)
  }

  /** The plan of a call: requirements are extracted from the snippet as given, before any stripping. */
  function PlanOf(code: string, workingDirectory: Option<string>, host: Host): (plan: seq<Step>)
    ensures Commands(plan) == InstallCommands(Requirements.FindAll(code)) + [RunCommand]
  {
    var workspace := WorkspaceDir(workingDirectory, host);
    PlanCommands(Requirements.FindAll(code), WorkspaceVolume(host.absPath(workspace)), PathJoin(workspace, TempFileName));
    Plan(Requirements.FindAll(code), WorkspaceVolume(host.absPath(workspace)), PathJoin(workspace, TempFileName))
  }

  /** A model of `execute_python_code(code, working_directory)`. */
  function Execute(code: string, workingDirectory: Option<string>, host: Host, docker: Docker): (r: Report)
    ensures r.steps != [] && r.steps <= PlanOf(code, workingDirectory, host)
  {
    var workspace := WorkspaceDir(workingDirectory, host);
    var run := Perform(PlanOf(code, workingDirectory, host), docker);
    Report(workspace, PathJoin(workspace, TempFileName), Fences.StripFence(code), run.steps, run.result)
  }

  /** The commands of the containers a list of calls starts, in order. */
  function Commands(steps: seq<Step>): seq<string>
    decreases |steps|
  {
    if steps == [] then []
    else (if steps[0].StartContainer? then [steps[0].container.command] else []) + Commands(steps[1..])
  }

  function InstallCommands(packages: seq<string>): seq<string>
  {
    seq(|packages|, k requires 0 <= k < |packages| => InstallPrefix + packages[k])
  }

  // ---------------------------------------------------------------------------
  // The plan and its runs

  lemma PlanAt(packages: seq<string>, volume: Volume, tempFile: string)
    ensures var plan := Plan(packages, volume, tempFile);
      && |plan| == |packages| + 6
      && plan[0] == PrepareImage
      && (forall k :: 0 <= k < |packages| ==> plan[k + 1] == StartContainer(InstallContainer(packages[k], volume)))
      && plan[|packages| + 1] == StartContainer(RunContainer(volume))
      && plan[|packages| + 2] == WaitContainer
      && plan[|packages| + 3] == ReadLogs
      && plan[|packages| + 4] == RemoveContainer
      && plan[|packages| + 5] == DeleteFile(tempFile)
  {
  }

  /** Up to install `m`, the plan is the image preparation followed by the first `m` installs. */
  lemma PlanPrefix(packages: seq<string>, volume: Volume, tempFile: string, m: nat)
    requires m <= |packages|
    ensures Plan(packages, volume, tempFile)[..m + 1] == [PrepareImage] + Installs(packages[..m], volume)
  {
    var plan := Plan(packages, volume, tempFile);
    var installs := Installs(packages[..m], volume);
    PlanAt(packages, volume, tempFile);
    forall j | 0 <= j < m + 1 ensures plan[j] == ([PrepareImage] + installs)[j] {
      if j > 0 {
        assert ([PrepareImage] + installs)[j] == installs[j - 1];
      }
    }
  }

  /** A run that stops at call `h` because it raised. */
  lemma PerformStopsAt(plan: seq<Step>, docker: Docker, h: nat)
    requires h < |plan|
    requires forall j :: 0 <= j < h ==> docker.answer(j).Returned?
    requires docker.answer(h).Raised?
    ensures Perform(plan, docker) == Run(plan[..h + 1], ErrorPrefix + docker.answer(h).message)
  {
  }

  /** A run in which the first `m` calls return makes at least one call more. */
  lemma PerformReaches(plan: seq<Step>, docker: Docker, m: nat)
    requires m < |plan|
    requires forall j :: 0 <= j < m ==> docker.answer(j).Returned?
    ensures |Perform(plan, docker).steps| >= m + 1
  {
    var h := FirstRaise(docker.answer, |plan|);
    assert h >= m;
  }

  /** A run in which no call raises makes every call of the plan and returns the logs. */
  lemma PerformCompletes(plan: seq<Step>, docker: Docker)
    requires forall j :: 0 <= j < |plan| ==> docker.answer(j).Returned?
    ensures Perform(plan, docker) == Run(plan, docker.logs)
  {
  }

  lemma CommandsCons(step: Step, rest: seq<Step>)
    ensures Commands([step] + rest) == (if step.StartContainer? then [step.container.command] else []) + Commands(rest)
  {
    assert ([step] + rest)[1..] == rest;
  }

  lemma {:induction false} CommandsAppend(a: seq<Step>, b: seq<Step>)
    ensures Commands(a + b) == Commands(a) + Commands(b)
    decreases |a|
  {
    if a == [] {
      assert a + b == b;
    } else {
      assert (a + b)[1..] == a[1..] + b;
      CommandsAppend(a[1..], b);
    }
  }

  /** The containers started by a prefix of a list of calls are a prefix of those it starts. */
  lemma CommandsOfPrefix(a: seq<Step>, b: seq<Step>)
    requires a <= b
    ensures Commands(a) <= Commands(b)
  {
    assert b == a + b[|a|..];
    CommandsAppend(a, b[|a|..]);
  }

  lemma {:induction false} InstallCommandsOf(packages: seq<string>, volume: Volume)
    ensures Commands(Installs(packages, volume)) == InstallCommands(packages)
    decreases |packages|
  {
    if packages != [] {
      var rest := packages[1..];
      assert Installs(packages, volume) == [StartContainer(InstallContainer(packages[0], volume))] + Installs(rest, volume);
      CommandsAppend([StartContainer(InstallContainer(packages[0], volume))], Installs(rest, volume));
      InstallCommandsOf(rest, volume);
      assert InstallCommands(packages) == [InstallPrefix + packages[0]] + InstallCommands(rest);
    }
  }

  /** The plan starts one install container per package, in order, then the single run container. */
  lemma PlanCommands(packages: seq<string>, volume: Volume, tempFile: string)
    ensures Commands(Plan(packages, volume, tempFile)) == InstallCommands(packages) + [RunCommand]
  {
    var tail := [StartContainer(RunContainer(volume)), WaitContainer, ReadLogs, RemoveContainer, DeleteFile(tempFile)];
    CommandsAppend([PrepareImage] + Installs(packages, volume), tail);
    CommandsAppend([PrepareImage], Installs(packages, volume));
    InstallCommandsOf(packages, volume);
    CommandsCons(StartContainer(RunContainer(volume)), tail[1..]);
    CommandsCons(WaitContainer, tail[2..]);
    CommandsCons(ReadLogs, tail[3..]);
    CommandsCons(RemoveContainer, tail[4..]);
    CommandsCons(DeleteFile(tempFile), []);
  }

  // ---------------------------------------------------------------------------
  // Properties of a call of the engine

  /**
    The install commands are `"pip install " + pkg` for the requirements of the
    unstripped snippet, in extraction order, and all of them come before the
    single run command; a call issues a prefix of that sequence.
   */
  lemma CommandOrder(code: string, workingDirectory: Option<string>, host: Host, docker: Docker)
    ensures var r := Execute(code, workingDirectory, host, docker);
      Commands(r.steps) <= InstallCommands(Requirements.FindAll(code)) + [RunCommand]
  {
    var workspace := WorkspaceDir(workingDirectory, host);
    var volume := WorkspaceVolume(host.absPath(workspace));
    var plan := Plan(Requirements.FindAll(code), volume, PathJoin(workspace, TempFileName));
    PlanCommands(Requirements.FindAll(code), volume, PathJoin(workspace, TempFileName));
    CommandsOfPrefix(Perform(plan, docker).steps, plan);
  }

  /**
    When no call raises, the engine makes every call of the plan: all installs,
    the run, the wait, the log read, the removal, the deletion of temp.py, and
    returns the logs.
   */
  lemma CompleteRun(code: string, workingDirectory: Option<string>, host: Host, docker: Docker)
    requires forall j :: 0 <= j < |Requirements.FindAll(code)| + 6 ==> docker.answer(j).Returned?
    ensures var r := Execute(code, workingDirectory, host, docker);
      && Commands(r.steps) == InstallCommands(Requirements.FindAll(code)) + [RunCommand]
      && r.steps[|r.steps| - 1] == DeleteFile(r.tempFile)
      && r.result == docker.logs
  {
    var workspace := WorkspaceDir(workingDirectory, host);
    var volume := WorkspaceVolume(host.absPath(workspace));
    var tempFile := PathJoin(workspace, TempFileName);
    var plan := Plan(Requirements.FindAll(code), volume, tempFile);
    PlanAt(Requirements.FindAll(code), volume, tempFile);
    PerformCompletes(plan, docker);
    PlanCommands(Requirements.FindAll(code), volume, tempFile);
  }

  /**
    If installing requirement `k` raises (after everything before it returned),
    the engine returns "Error: " + message at once: it starts no later install
    and no run container, and it leaves temp.py in place.
   */
  lemma InstallFailureStops(code: string, workingDirectory: Option<string>, host: Host, docker: Docker, k: nat)
    requires k < |Requirements.FindAll(code)|
    requires forall j :: 0 <= j <= k ==> docker.answer(j).Returned?
    requires docker.answer(k + 1).Raised?
    ensures var r := Execute(code, workingDirectory, host, docker);
      && r.result == ErrorPrefix + docker.answer(k + 1).message
      && Commands(r.steps) == InstallCommands(Requirements.FindAll(code)[..k + 1])
      && forall j :: 0 <= j < |r.steps| ==> !r.steps[j].DeleteFile?
  {
    var workspace := WorkspaceDir(workingDirectory, host);
    PerformInstallFailure(Requirements.FindAll(code), WorkspaceVolume(host.absPath(workspace)),
                          PathJoin(workspace, TempFileName), docker, k);
  }

  /** The plan-level form of `InstallFailureStops`. */
  lemma PerformInstallFailure(packages: seq<string>, volume: Volume, tempFile: string, docker: Docker, k: nat)
    requires k < |packages|
    requires forall j :: 0 <= j <= k ==> docker.answer(j).Returned?
    requires docker.answer(k + 1).Raised?
    ensures var run := Perform(Plan(packages, volume, tempFile), docker);
      && run.result == ErrorPrefix + docker.answer(k + 1).message
      && Commands(run.steps) == InstallCommands(packages[..k + 1])
      && forall j :: 0 <= j < |run.steps| ==> !run.steps[j].DeleteFile?
  {
    var installs := Installs(packages[..k + 1], volume);
    PerformStopsAt(Plan(packages, volume, tempFile), docker, k + 1);
    PlanPrefix(packages, volume, tempFile, k + 1);
    CommandsAppend([PrepareImage], installs);
    InstallCommandsOf(packages[..k + 1], volume);
    assert forall j :: 0 <= j < |installs| ==> installs[j].StartContainer?;
  }

  /**
    When call `h` is the first call that raises, the result is "Error: " + its
    message, exactly calls `0..h` were made, and temp.py was not deleted before
    it: the deletion is only ever the last call of the plan.
   */
  lemma ErrorKeepsTempFile(code: string, workingDirectory: Option<string>, host: Host, docker: Docker, h: nat)
    requires h < |Requirements.FindAll(code)| + 6
    requires forall j :: 0 <= j < h ==> docker.answer(j).Returned?
    requires docker.answer(h).Raised?
    ensures var r := Execute(code, workingDirectory, host, docker);
      && |r.steps| == h + 1
      && r.result == ErrorPrefix + docker.answer(h).message
      && forall j :: 0 <= j < h ==> !r.steps[j].DeleteFile?
  {
    var plan := PlanOf(code, workingDirectory, host);
    DeletesLast(code, workingDirectory, host);
    PerformStopsAt(plan, docker, h);
  }

  /** A call's plan has one call per requirement and six more, and only its last call deletes temp.py. */
  lemma DeletesLast(code: string, workingDirectory: Option<string>, host: Host)
    ensures var plan := PlanOf(code, workingDirectory, host);
      && |plan| == |Requirements.FindAll(code)| + 6
      && forall j :: 0 <= j < |plan| - 1 ==> !plan[j].DeleteFile?
  {
    var workspace := WorkspaceDir(workingDirectory, host);
    PlanAt(Requirements.FindAll(code), WorkspaceVolume(host.absPath(workspace)), PathJoin(workspace, TempFileName));
  }

  /** A snippet without `pip install ` starts no install container: at most the run container. */
  lemma NoDirectiveNoInstall(code: string, workingDirectory: Option<string>, host: Host, docker: Docker)
    requires !Contains(code, Requirements.Directive)
    ensures Commands(Execute(code, workingDirectory, host, docker).steps) <= [RunCommand]
  {
    Requirements.NoDirectiveNoRequirements(code);
    CommandOrder(code, workingDirectory, host, docker);
    assert InstallCommands([]) == [];
  }

  /**
    Every container started, install or run, is the engine's image with the same
    single mount: the absolute workspace path, read-write, at /workspace, which is
    also its working directory; the workspace defaults to `join(cwd, "WORKSPACE")`.
   */
  lemma UniformMount(code: string, workingDirectory: Option<string>, host: Host, docker: Docker)
    ensures var r := Execute(code, workingDirectory, host, docker);
      && r.workspace == (if workingDirectory.None? then PathJoin(host.cwd, "WORKSPACE") else workingDirectory.value)
      && forall j :: 0 <= j < |r.steps| && r.steps[j].StartContainer? ==>
           var c := r.steps[j].container;
           && c.image == ImageName
           && c.volume == Volume(host.absPath(r.workspace), "/workspace", "rw")
           && c.workingDir == "/workspace"
           && c.detach
  {
    var workspace := WorkspaceDir(workingDirectory, host);
    var volume := WorkspaceVolume(host.absPath(workspace));
    var plan := Plan(Requirements.FindAll(code), volume, PathJoin(workspace, TempFileName));
    PlanMount(Requirements.FindAll(code), volume, PathJoin(workspace, TempFileName));
    var steps := Execute(code, workingDirectory, host, docker).steps;
    assert steps <= plan;
    forall j | 0 <= j < |steps| && steps[j].StartContainer? ensures steps[j].container == plan[j].container {
    }
  }

  /** Every container the plan starts runs the engine's image with the one mount, at /workspace, detached. */
  lemma PlanMount(packages: seq<string>, volume: Volume, tempFile: string)
    ensures var plan := Plan(packages, volume, tempFile);
      forall j :: 0 <= j < |plan| && plan[j].StartContainer? ==>
        var c := plan[j].container;
        c.image == ImageName && c.volume == volume && c.workingDir == MountPoint && c.detach
  {
    PlanAt(packages, volume, tempFile);
  }

  /**
    Requirements come from the snippet as given, not from the staged text: a
    directive on the line before a ```python block is still extracted, while the
    staged file holds only text from inside the block.
   */
  lemma DirectiveOutsideFence(package: string, body: string)
    requires '\n' !in package && '`' !in package
    ensures var code := Requirements.Directive + package + "\n" + Fences.Fence + body;
      && Requirements.FindAll(code)[..1] == [package]
      && Fences.StripFence(code) <= body
  {
    var line := Requirements.Directive + package + "\n";
    var code := line + Fences.Fence + body;
    assert Requirements.Directive + package + "\n" + (Fences.Fence + body) == code;
    Requirements.FirstLineDirective(package, Fences.Fence + body);
    assert '`' !in Requirements.Directive;
    assert '`' !in line;
    Fences.FenceAfterLine(line, body);
    Fences.FencedStaged(code);
  }

  /** Once the image is prepared, the first command issued installs the first requirement. */
  lemma FirstCommand(code: string, workingDirectory: Option<string>, host: Host, docker: Docker)
    requires |Requirements.FindAll(code)| >= 1
    requires docker.answer(0).Returned?
    ensures var r := Execute(code, workingDirectory, host, docker);
      |Commands(r.steps)| >= 1 && Commands(r.steps)[0] == InstallPrefix + Requirements.FindAll(code)[0]
  {
    var workspace := WorkspaceDir(workingDirectory, host);
    PerformFirstCommand(Requirements.FindAll(code), WorkspaceVolume(host.absPath(workspace)),
                        PathJoin(workspace, TempFileName), docker);
  }

  /** The plan-level form of `FirstCommand`. */
  lemma PerformFirstCommand(packages: seq<string>, volume: Volume, tempFile: string, docker: Docker)
    requires |packages| >= 1
    requires docker.answer(0).Returned?
    ensures var steps := Perform(Plan(packages, volume, tempFile), docker).steps;
      |Commands(steps)| >= 1 && Commands(steps)[0] == InstallPrefix + packages[0]
  {
    var plan := Plan(packages, volume, tempFile);
    var steps := Perform(plan, docker).steps;
    PlanPrefix(packages, volume, tempFile, 1);
    PerformReaches(plan, docker, 1);
    assert steps[..2] == plan[..2];
    assert steps[1] == Installs(packages[..1], volume)[0];
    CommandsOfFirstTwo(steps);
  }

  lemma CommandsOfFirstTwo(steps: seq<Step>)
    requires |steps| >= 2 && !steps[0].StartContainer? && steps[1].StartContainer?
    ensures |Commands(steps)| >= 1 && Commands(steps)[0] == steps[1].container.command
  {
    assert steps == [steps[0]] + ([steps[1]] + steps[2..]);
    CommandsCons(steps[0], [steps[1]] + steps[2..]);
    CommandsCons(steps[1], steps[2..]);
  }

  // ---------------------------------------------------------------------------
  // The engine as the source writes it

  /** The first `n` calls all returned. */
  predicate AllReturned(docker: Docker, n: nat)
  {
    forall j :: 0 <= j < n ==> docker.answer(j).Returned?
  }

  /** `calls` are the first calls of the plan, in plan order. */
  predicate MadeSoFar(plan: seq<Step>, calls: seq<Step>)
  {
    |calls| <= |plan| && calls == plan[..|calls|]
  }

  /**
    Making `step`, the next call of the plan after `calls`, once those all
    returned: it is recorded, and it returns or raises with the oracle's message.
   */
  method Attempt(ghost plan: seq<Step>, calls: seq<Step>, step: Step, docker: Docker)
    returns (failure: Option<string>, made: seq<Step>)
    requires MadeSoFar(plan, calls) && |calls| < |plan| && plan[|calls|] == step
    requires AllReturned(docker, |calls|)
    ensures made == calls + [step] && MadeSoFar(plan, made)
    ensures failure.None? ==> AllReturned(docker, |made|)
    ensures failure.Some? ==> docker.answer(|calls|) == Raised(failure.value)
  {
    made := calls + [step];
    assert plan[..|made|] == plan[..|calls|] + [plan[|calls|]];
    match docker.answer(|calls|)
    case Returned => failure := None;
    case Raised(message) => failure := Some(message);
  }

  /** What the engine has set up before its `try` block: the workspace, the temp file, the staged text and the plan. */
  predicate Prepared(code: string, workingDirectory: Option<string>, host: Host,
                     workspace: string, tempFile: string, staged: string, plan: seq<Step>)
  {
    && workspace == WorkspaceDir(workingDirectory, host)
    && tempFile == PathJoin(workspace, TempFileName)
    && staged == Fences.StripFence(code)
    && plan == PlanOf(code, workingDirectory, host)
  }

  /** The report of a call in which call `h` of the plan raised. */
  lemma StoppedReport(code: string, workingDirectory: Option<string>, host: Host, docker: Docker,
                      workspace: string, tempFile: string, staged: string, plan: seq<Step>, h: nat)
    requires Prepared(code, workingDirectory, host, workspace, tempFile, staged, plan)
    requires h < |plan| && AllReturned(docker, h) && docker.answer(h).Raised?
    ensures Report(workspace, tempFile, staged, plan[..h + 1], ErrorPrefix + docker.answer(h).message)
      == Execute(code, workingDirectory, host, docker)
  {
    PerformStopsAt(plan, docker, h);
  }

  /** `return f"Error: {str(e)}"` once the last of the calls made raised with `message`. */
  method ErrorReport(code: string, workingDirectory: Option<string>, host: Host, docker: Docker,
                     workspace: string, tempFile: string, staged: string, plan: seq<Step>,
                     calls: seq<Step>, message: string)
    returns (r: Report)
    requires Prepared(code, workingDirectory, host, workspace, tempFile, staged, plan)
    requires calls != [] && MadeSoFar(plan, calls)
    requires AllReturned(docker, |calls| - 1) && docker.answer(|calls| - 1) == Raised(message)
    ensures r == Execute(code, workingDirectory, host, docker)
  {
    StoppedReport(code, workingDirectory, host, docker, workspace, tempFile, staged, plan, |calls| - 1);
    r := Report(workspace, tempFile, staged, calls, ErrorPrefix + message);
  }

  /** The report of a call in which no call raised. */
  lemma CompletedReport(code: string, workingDirectory: Option<string>, host: Host, docker: Docker,
                        workspace: string, tempFile: string, staged: string, plan: seq<Step>)
    requires Prepared(code, workingDirectory, host, workspace, tempFile, staged, plan)
    requires AllReturned(docker, |plan|)
    ensures Report(workspace, tempFile, staged, plan, docker.logs) == Execute(code, workingDirectory, host, docker)
  {
    PerformCompletes(plan, docker);
  }

  /**
    The run phase of the `try` block, after the calls `calls`: start the
    container for the staged file, wait for it, read its logs, remove it and
    delete temp.py.  Every call is recorded; the first one that raises ends it.
   */
  method RunStaged(ghost plan: seq<Step>, calls: seq<Step>, volume: Volume, tempFile: string, docker: Docker)
    returns (failure: Option<string>, made: seq<Step>)
    requires MadeSoFar(plan, calls) && |calls| + 5 == |plan|
    requires plan[|calls|] == StartContainer(RunContainer(volume)) && plan[|calls| + 1] == WaitContainer
    requires plan[|calls| + 2] == ReadLogs && plan[|calls| + 3] == RemoveContainer
    requires plan[|calls| + 4] == DeleteFile(tempFile)
    requires AllReturned(docker, |calls|)
    ensures MadeSoFar(plan, made) && |calls| < |made|
    ensures failure.None? ==> made == plan && AllReturned(docker, |plan|)
    ensures failure.Some? ==> AllReturned(docker, |made| - 1) && docker.answer(|made| - 1) == Raised(failure.value)
  {
    failure, made := Attempt(plan, calls, StartContainer(RunContainer(volume)), docker);
    if failure.Some? {
      return;
    }
    failure, made := Attempt(plan, made, WaitContainer, docker);
    if failure.Some? {
      return;
    }
    failure, made := Attempt(plan, made, ReadLogs, docker);
    if failure.Some? {
      return;
    }
    failure, made := Attempt(plan, made, RemoveContainer, docker);
    if failure.Some? {
      return;
    }
    failure, made := Attempt(plan, made, DeleteFile(tempFile), docker);
  }

  /**
    Everything before the `try` block: the workspace directory, the requirements
    of the snippet as given, the text staged into temp.py, and the mount.
   */
  method Stage(code: string, workingDirectory: Option<string>, host: Host)
    returns (workspace: string, tempFile: string, staged: string, requirements: seq<string>, volume: Volume)
    ensures workspace == WorkspaceDir(workingDirectory, host)
    ensures tempFile == PathJoin(workspace, TempFileName)
    ensures staged == Fences.StripFence(code)
    ensures requirements == Requirements.FindAll(code)
    ensures volume == WorkspaceVolume(host.absPath(workspace))
  {
    workspace := if workingDirectory.None? then PathJoin(host.cwd, DefaultWorkspaceName) else workingDirectory.value;
    requirements := Requirements.FindAll(code);
    staged := code;
    if Contains(code, Fences.Fence) {
      staged := Fences.StripFence(code);
    }
    tempFile := PathJoin(workspace, TempFileName);
    volume := Volume(host.absPath(workspace), MountPoint, "rw");
  }

  /**
    The install loop: after the image call `calls`, start one install container
    per requirement, in order, stopping at the first that raises.
   */
  method InstallAll(ghost plan: seq<Step>, calls: seq<Step>, requirements: seq<string>, volume: Volume, docker: Docker)
    returns (failure: Option<string>, made: seq<Step>)
    requires |calls| == 1 && MadeSoFar(plan, calls) && AllReturned(docker, 1)
    requires |plan| > |requirements| + 1
    requires forall k :: 0 <= k < |requirements| ==> plan[k + 1] == StartContainer(InstallContainer(requirements[k], volume))
    ensures MadeSoFar(plan, made) && |calls| <= |made|
    ensures failure.None? ==> |made| == |requirements| + 1 && AllReturned(docker, |made|)
    ensures failure.Some? ==> AllReturned(docker, |made| - 1) && docker.answer(|made| - 1) == Raised(failure.value)
  {
    made := calls;
    failure := None;
    for i := 0 to |requirements|
      invariant |made| == i + 1 && MadeSoFar(plan, made)
      invariant AllReturned(docker, i + 1) && failure.None?
    {
      failure, made := Attempt(plan, made, StartContainer(InstallContainer(requirements[i], volume)), docker);
      if failure.Some? {
        return;
      }
    }
  }

  /**
    `execute_python_code`: stage the snippet, install each requirement in its own
    container, returning at the first exception, then run the staged file.  The
    calls are recorded as they are made.
   */
  method ExecutePythonCode(code: string, workingDirectory: Option<string>, host: Host, docker: Docker)
    returns (r: Report)
    ensures r == Execute(code, workingDirectory, host, docker)
  {
    var workspace, tempFile, staged, requirements, volume := Stage(code, workingDirectory, host);
    var plan := Plan(requirements, volume, tempFile);
    assert Prepared(code, workingDirectory, host, workspace, tempFile, staged, plan);
    PlanAt(requirements, volume, tempFile);

    var failure, made := Attempt(plan, [], PrepareImage, docker);
    if failure.Some? {
      r := ErrorReport(code, workingDirectory, host, docker, workspace, tempFile, staged, plan, made, failure.value);
      return;
    }
    failure, made := InstallAll(plan, made, requirements, volume, docker);
    if failure.Some? {
      r := ErrorReport(code, workingDirectory, host, docker, workspace, tempFile, staged, plan, made, failure.value);
      return;
    }
    failure, made := RunStaged(plan, made, volume, tempFile, docker);
    if failure.Some? {
      r := ErrorReport(code, workingDirectory, host, docker, workspace, tempFile, staged, plan, made, failure.value);
      return;
    }
    CompletedReport(code, workingDirectory, host, docker, workspace, tempFile, staged, plan);
    r := Report(workspace, tempFile, staged, made, docker.logs);
  }
}
