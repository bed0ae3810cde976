/** architect/core/filesystem.py: formatting the three partitions and laying
    out the btrfs subvolumes.

    The source formats the partitions on a thread pool; here the three tasks
    run one after the other, in list order, and their failures are collected
    the same way. */
module Filesystem {
  import opened Text
  import opened Errors
  import opened Types
  import opened Command

  // ---------------------------------------------------------------------------
  // _create_filesystem
  // ---------------------------------------------------------------------------

  /** The mkfs command for a filesystem type the source knows. */
  function MkfsCommand(fsType: string, device: string, volumeLabel: string): Option<seq<string>> {
    if fsType == "fat" then Some(["mkfs.fat", "-F32", "-n", volumeLabel, device])
    else if fsType == "ext4" then Some(["mkfs.ext4", "-L", volumeLabel, device])
    else if fsType == "btrfs" then Some(["mkfs.btrfs", "-L", volumeLabel, device])
    else None
  }

  /** The (device, filesystem_type, success) triple a task returns. */
  datatype FsOutcome = FsOutcome(device: string, fsType: string, success: bool)

  /** `_create_filesystem`: an unknown type or a non-zero exit is reported as
      an unsuccessful outcome; only an OSError escapes. */
  function CreateFsStep(env: RunnerEnv, st: RunnerState, fsType: string, device: string, volumeLabel: string): (Result<FsOutcome>, RunnerState) {
    match MkfsCommand(fsType, device, volumeLabel)
    case None => (Ok(FsOutcome(device, fsType, false)), st)
    case Some(cmd) =>
      var (r, st1) := RunStep(env, st, cmd, None, true);
      if r.Ok? then (Ok(FsOutcome(device, fsType, true)), st1)
      else if r.error.CalledProcess? then (Ok(FsOutcome(device, fsType, false)), st1)
      else (Err(r.error), st1)
  }

  method CreateFilesystem(fsType: string, device: string, volumeLabel: string, runner: CommandRunner) returns (r: Result<FsOutcome>)
    modifies runner
    ensures runner.Env() == old(runner.Env())
    ensures (r, runner.State()) == CreateFsStep(old(runner.Env()), old(runner.State()), fsType, device, volumeLabel)
  {
    var cmd := MkfsCommand(fsType, device, volumeLabel);
    if cmd.None? {
      return Ok(FsOutcome(device, fsType, false));
    }
    var result := runner.Run(cmd.value, None, true);
    if result.Err? {
      if result.error.CalledProcess? {
        return Ok(FsOutcome(device, fsType, false));
      }
      return Err(result.error);
    }
    r := Ok(FsOutcome(device, fsType, true));
  }

  /** A task reports its own device and type; it succeeds exactly when its
      type is known and its mkfs ran cleanly; an unknown type issues nothing
      and a known one issues exactly its mkfs command. */
  lemma CreateFsOutcome(env: RunnerEnv, st: RunnerState, fsType: string, device: string, volumeLabel: string)
    ensures var (r, st') := CreateFsStep(env, st, fsType, device, volumeLabel);
      var cmd := MkfsCommand(fsType, device, volumeLabel);
      (r.Err? ==> r.error.HostFailure? && cmd.Some?)
      && (r.Ok? ==> r.value.device == device && r.value.fsType == fsType
                    && (r.value.success <==> cmd.Some? && RunStep(env, st, cmd.value, None, true).0.Ok?))
      && (cmd.None? ==> st' == st)
      && (cmd.Some? ==> st'.commandsRun == st.commandsRun + [CmdRecord(cmd.value, env.mode == Simulate)])
  {
    var cmd := MkfsCommand(fsType, device, volumeLabel);
    if cmd.Some? {
      RunLogsOnce(env, st, cmd.value, None, true);
      assert Basename(cmd.value[0]) == cmd.value[0] by { BasenameOfName(cmd.value[0]); }
      RunErrors(env, st, cmd.value, None, true);
    }
  }

  // ---------------------------------------------------------------------------
  // create_filesystems
  // ---------------------------------------------------------------------------

  /** One (type, device, label) entry of `fs_tasks`. */
  datatype FsTask = FsTask(fsType: string, device: string, volumeLabel: string)

  /** `fs_tasks`: FAT32 on the EFI partition, ext4 on boot, btrfs on system. */
  function FsTasks(partitions: PartitionTable): seq<FsTask>
    requires "efi" in partitions && "boot" in partitions && "system" in partitions
  {
    [FsTask("fat", partitions["efi"], "ESP"),
     FsTask("ext4", partitions["boot"], "boot"),
     FsTask("btrfs", partitions["system"], "root")]
  }

  /** `max_workers`: min(3, cpu count), and a single worker under SIMULATE. */
  function MaxWorkers(mode: SimulationMode, cpuCount: int): int {
    if mode == Simulate then 1 else if cpuCount < 3 then cpuCount else 3
  }

  /** What the collection loop has seen so far: the (type, device) pairs of
      failed tasks and the first exception a task raised. */
  datatype TaskReport = TaskReport(failed: seq<(string, string)>, raised: Option<Error>)

  /** Fold one task's outcome into the report. */
  function Accumulate(report: TaskReport, t: FsTask, o: Result<FsOutcome>): TaskReport {
    if o.Err? then report.(raised := if report.raised.None? then Some(o.error) else report.raised)
    else if !o.value.success then report.(failed := report.failed + [(t.fsType, t.device)])
    else report
  }

  /** All tasks run; their outcomes are collected in task order. */
  function TasksStep(env: RunnerEnv, st: RunnerState, tasks: seq<FsTask>): (TaskReport, RunnerState)
    decreases |tasks|
  {
    if tasks == [] then (TaskReport([], None), st)
    else
      var (prev, st1) := TasksStep(env, st, tasks[..|tasks| - 1]);
      var t := tasks[|tasks| - 1];
      var (o, st2) := CreateFsStep(env, st1, t.fsType, t.device, t.volumeLabel);
      (Accumulate(prev, t, o), st2)
  }

  /** "<type> on <device>" for every failed task. */
  function FailureTexts(failed: seq<(string, string)>): (r: seq<string>)
    ensures |r| == |failed| && forall i :: 0 <= i < |failed| ==> r[i] == failed[i].0 + " on " + failed[i].1
  {
    if failed == [] then [] else [failed[0].0 + " on " + failed[0].1] + FailureTexts(failed[1..])
  }

  const FsFailurePrefix := "Failed to create filesystem(s): "

  /** `create_filesystems` */
  function CreateFilesystemsStep(env: RunnerEnv, st: RunnerState, partitions: PartitionTable, info: DiskInfo): (Result<()>, RunnerState) {
    if "efi" !in partitions then (Err(KeyMissing("efi")), st)
    else if "boot" !in partitions then (Err(KeyMissing("boot")), st)
    else if "system" !in partitions then (Err(KeyMissing("system")), st)
    else if MaxWorkers(env.mode, info.cpuCount) < 1 then (Err(InvalidValue("max_workers must be greater than 0")), st)
    else
      var (report, st1) := TasksStep(env, st, FsTasks(partitions));
      if report.raised.Some? then (Err(report.raised.value), st1)
      else if report.failed != [] then (Err(Filesystem(FsFailurePrefix + Join(FailureTexts(report.failed), ", "))), st1)
      else (Ok(()), st1)
  }

  method CreateFilesystems(partitions: PartitionTable, info: DiskInfo, runner: CommandRunner) returns (r: Result<()>)
    modifies runner
    ensures runner.Env() == old(runner.Env())
    ensures (r, runner.State()) == CreateFilesystemsStep(old(runner.Env()), old(runner.State()), partitions, info)
  {
    if "efi" !in partitions {
      return Err(KeyMissing("efi"));
    }
    if "boot" !in partitions {
      return Err(KeyMissing("boot"));
    }
    if "system" !in partitions {
      return Err(KeyMissing("system"));
    }
    var tasks := FsTasks(partitions);
    var maxWorkers := if info.cpuCount < |tasks| then info.cpuCount else |tasks|;
    if runner.simulationMode == Simulate {
      maxWorkers := 1;
    }
    if maxWorkers < 1 {
      return Err(InvalidValue("max_workers must be greater than 0"));
    }
    var report := RunTasks(tasks, runner);
    if report.raised.Some? {
      return Err(report.raised.value);
    }
    if report.failed != [] {
      return Err(Filesystem(FsFailurePrefix + Join(FailureTexts(report.failed), ", ")));
    }
    r := Ok(());
  }

  /** The collection loop over the tasks. */
  method RunTasks(tasks: seq<FsTask>, runner: CommandRunner) returns (report: TaskReport)
    modifies runner
    ensures runner.Env() == old(runner.Env())
    ensures (report, runner.State()) == TasksStep(old(runner.Env()), old(runner.State()), tasks)
  {
    report := TaskReport([], None);
    var i := 0;
    while i < |tasks|
      invariant 0 <= i <= |tasks|
      invariant runner.Env() == old(runner.Env())
      invariant (report, runner.State()) == TasksStep(old(runner.Env()), old(runner.State()), tasks[..i])
    {
      var t := tasks[i];
      var o := CreateFilesystem(t.fsType, t.device, t.volumeLabel, runner);
      report := Accumulate(report, t, o);
      assert tasks[..i + 1][..i] == tasks[..i];
      i := i + 1;
    }
    assert tasks[..|tasks|] == tasks;
  }

  // ---------------------------------------------------------------------------
  // Properties of create_filesystems
  // ---------------------------------------------------------------------------

  /** The mkfs commands of the tasks whose type is known, in task order. */
  function MkfsRecords(tasks: seq<FsTask>, simulated: bool): seq<CmdRecord>
    decreases |tasks|
  {
    if tasks == [] then []
    else
      var t := tasks[|tasks| - 1];
      var last := match MkfsCommand(t.fsType, t.device, t.volumeLabel)
        case None => []
        case Some(cmd) => [CmdRecord(cmd, simulated)];
      MkfsRecords(tasks[..|tasks| - 1], simulated) + last
  }

  /** Every task runs, whatever the others did: the log grows by the mkfs
      command of each task, in task order. */
  lemma {:induction false} TasksLogEveryCommand(env: RunnerEnv, st: RunnerState, tasks: seq<FsTask>)
    ensures TasksStep(env, st, tasks).1.commandsRun == st.commandsRun + MkfsRecords(tasks, env.mode == Simulate)
  {
    if tasks != [] {
      var init := tasks[..|tasks| - 1];
      TasksLogEveryCommand(env, st, init);
      var st1 := TasksStep(env, st, init).1;
      var t := tasks[|tasks| - 1];
      CreateFsOutcome(env, st1, t.fsType, t.device, t.volumeLabel);
    }
  }

  /** The report lists only tasks that were given, in task order, at most
      once each; what a task raises is an OSError. */
  lemma {:induction false} TasksReportFailures(env: RunnerEnv, st: RunnerState, tasks: seq<FsTask>)
    ensures var report := TasksStep(env, st, tasks).0;
      |report.failed| <= |tasks|
      && (forall i :: 0 <= i < |report.failed| ==>
            exists j :: 0 <= j < |tasks| && report.failed[i] == (tasks[j].fsType, tasks[j].device))
      && (report.raised.Some? ==> report.raised.value.HostFailure?)
  {
    if tasks != [] {
      var init := tasks[..|tasks| - 1];
      TasksReportFailures(env, st, init);
      var (prev, st1) := TasksStep(env, st, init);
      var t := tasks[|tasks| - 1];
      CreateFsOutcome(env, st1, t.fsType, t.device, t.volumeLabel);
      var report := TasksStep(env, st, tasks).0;
      forall i | 0 <= i < |report.failed|
        ensures exists j :: 0 <= j < |tasks| && report.failed[i] == (tasks[j].fsType, tasks[j].device)
      {
        if i < |prev.failed| {
          var j :| 0 <= j < |init| && prev.failed[i] == (init[j].fsType, init[j].device);
          assert tasks[j] == init[j];
        } else {
          assert report.failed[i] == (tasks[|tasks| - 1].fsType, tasks[|tasks| - 1].device);
        }
      }
    }
  }

  /** A task of a known type whose mkfs exits non-zero is listed as failed. */
  lemma FailedTaskIsListed(env: RunnerEnv, st: RunnerState, tasks: seq<FsTask>)
    requires tasks != []
    requires var t := tasks[|tasks| - 1];
      var st1 := TasksStep(env, st, tasks[..|tasks| - 1]).1;
      var cmd := MkfsCommand(t.fsType, t.device, t.volumeLabel);
      cmd.None? || (RunStep(env, st1, cmd.value, None, true).0.Err? && RunStep(env, st1, cmd.value, None, true).0.error.CalledProcess?)
    ensures var t := tasks[|tasks| - 1];
      TasksStep(env, st, tasks).0.failed == TasksStep(env, st, tasks[..|tasks| - 1]).0.failed + [(t.fsType, t.device)]
  {
  }

  /** Under SIMULATE every task of a known type succeeds. */
  lemma {:induction false} SimulatedTasksSucceed(env: RunnerEnv, st: RunnerState, tasks: seq<FsTask>)
    requires env.mode == Simulate
    requires forall i :: 0 <= i < |tasks| ==> MkfsCommand(tasks[i].fsType, tasks[i].device, tasks[i].volumeLabel).Some?
    ensures TasksStep(env, st, tasks).0 == TaskReport([], None)
  {
    if tasks != [] {
      var init := tasks[..|tasks| - 1];
      assert forall i :: 0 <= i < |init| ==> init[i] == tasks[i];
      SimulatedTasksSucceed(env, st, init);
      var st1 := TasksStep(env, st, init).1;
      var t := tasks[|tasks| - 1];
      SimulatedMkfsSucceeds(env, st1, t.fsType, t.device, t.volumeLabel);
    }
  }

  lemma SimulatedMkfsSucceeds(env: RunnerEnv, st: RunnerState, fsType: string, device: string, volumeLabel: string)
    requires env.mode == Simulate && MkfsCommand(fsType, device, volumeLabel).Some?
    ensures CreateFsStep(env, st, fsType, device, volumeLabel).0 == Ok(FsOutcome(device, fsType, true))
  {
    var cmd := MkfsCommand(fsType, device, volumeLabel).value;
    BasenameOfName(cmd[0]);
    SimulatedRunSucceeds(env, st, cmd, None, true);
  }

  /** A missing role raises KeyError for the first of efi, boot, system that
      is absent, before any command. */
  lemma MissingRoleRaisesKeyError(env: RunnerEnv, st: RunnerState, partitions: PartitionTable, info: DiskInfo)
    requires !("efi" in partitions && "boot" in partitions && "system" in partitions)
    ensures var (r, st') := CreateFilesystemsStep(env, st, partitions, info);
      st' == st && r.Err? && r.error.KeyMissing?
      && (r.error.key == "efi" <==> "efi" !in partitions)
      && (r.error.key == "boot" ==> "efi" in partitions && "boot" !in partitions)
      && (r.error.key == "system" ==> "efi" in partitions && "boot" in partitions && "system" !in partitions)
  {
  }

  /** With every role present and at least one worker, the three mkfs
      commands are issued, in task order, whatever their outcome. */
  lemma CreateFilesystemsLog(env: RunnerEnv, st: RunnerState, partitions: PartitionTable, info: DiskInfo)
    requires "efi" in partitions && "boot" in partitions && "system" in partitions
    requires MaxWorkers(env.mode, info.cpuCount) >= 1
    ensures var sim := env.mode == Simulate;
      CreateFilesystemsStep(env, st, partitions, info).1.commandsRun == st.commandsRun
        + [CmdRecord(["mkfs.fat", "-F32", "-n", "ESP", partitions["efi"]], sim),
           CmdRecord(["mkfs.ext4", "-L", "boot", partitions["boot"]], sim),
           CmdRecord(["mkfs.btrfs", "-L", "root", partitions["system"]], sim)]
  {
    var tasks := FsTasks(partitions);
    TasksLogEveryCommand(env, st, tasks);
    var s := env.mode == Simulate;
    assert tasks[..2] == tasks[..|tasks| - 1];
    assert tasks[..2][..1] == tasks[..1];
    assert tasks[..1][..0] == [];
    assert MkfsRecords(tasks[..1], s) == [CmdRecord(["mkfs.fat", "-F32", "-n", "ESP", partitions["efi"]], s)];
    assert MkfsRecords(tasks, s) == MkfsRecords(tasks[..2], s) + [CmdRecord(["mkfs.btrfs", "-L", "root", partitions["system"]], s)];
    assert MkfsRecords(tasks[..2], s) == MkfsRecords(tasks[..1], s) + [CmdRecord(["mkfs.ext4", "-L", "boot", partitions["boot"]], s)];
  }

  /** The stage fails with a FilesystemError listing every failed task
      exactly when some task failed and none raised; otherwise it fails only
      with the OSError a task raised. */
  lemma CreateFilesystemsVerdict(env: RunnerEnv, st: RunnerState, partitions: PartitionTable, info: DiskInfo)
    requires "efi" in partitions && "boot" in partitions && "system" in partitions
    requires MaxWorkers(env.mode, info.cpuCount) >= 1
    ensures var r := CreateFilesystemsStep(env, st, partitions, info).0;
      var report := TasksStep(env, st, FsTasks(partitions)).0;
      (r.Ok? <==> report == TaskReport([], None))
      && (r.Err? && r.error.Filesystem? <==> report.raised.None? && report.failed != [])
      && (r.Err? && r.error.Filesystem? ==> r.error.msg == FsFailurePrefix + Join(FailureTexts(report.failed), ", "))
      && (r.Err? && !r.error.Filesystem? ==> r.error.HostFailure?)
  {
    TasksReportFailures(env, st, FsTasks(partitions));
  }

  /** Under SIMULATE the stage always succeeds once the three roles exist. */
  lemma SimulatedFilesystemsSucceed(env: RunnerEnv, st: RunnerState, partitions: PartitionTable, info: DiskInfo)
    requires env.mode == Simulate
    requires "efi" in partitions && "boot" in partitions && "system" in partitions
    ensures CreateFilesystemsStep(env, st, partitions, info).0 == Ok(())
  {
    SimulatedTasksSucceed(env, st, FsTasks(partitions));
  }

  /** The worker count is min(3, cpu count), forced to 1 under SIMULATE. */
  lemma WorkerCount(mode: SimulationMode, cpuCount: int)
    ensures mode == Simulate ==> MaxWorkers(mode, cpuCount) == 1
    ensures mode != Simulate ==>
      MaxWorkers(mode, cpuCount) <= 3 && MaxWorkers(mode, cpuCount) <= cpuCount
      && (MaxWorkers(mode, cpuCount) == 3 || MaxWorkers(mode, cpuCount) == cpuCount)
  {
  }

  // ---------------------------------------------------------------------------
  // create_btrfs_subvolumes
  // ---------------------------------------------------------------------------

  /** The subvolumes, in creation order. */
  const Subvolumes := ["@", "@boot", "@home", "@opt", "@root", "@srv", "@tmp", "@usr", "@var", "@var_log", "@var_tmp"]

  /** The mount point used instead of a temporary directory under SIMULATE. */
  const SimMountDir := "/tmp/architect-sim-mount"

  const SubvolumeErrorPrefix := "Error creating btrfs subvolumes: "
  const NoIdMessage := "Could not extract subvolume ID from btrfs output"
  const DefaultFailurePrefix := "Failed to set @ as the default subvolume: "
  const IdLabel := "Subvolume ID:"

  /** `temp_dir` */
  function TempDir(env: RunnerEnv): string {
    if env.mode == Simulate then SimMountDir else env.host.mkdtemp
  }

  /** A line that starts with `Subvolume ID:` after leading whitespace;
      `IdLineIsStrippedLabel` shows this is the source's test on the
      stripped line. */
  predicate IsIdLine(line: string) {
    if line != [] && IsSpace(line[0]) then IsIdLine(line[1..]) else StartsWith(line, IdLabel)
  }

  /** `line.strip().startswith('Subvolume ID:')` holds exactly for the lines
      `IsIdLine` accepts. */
  lemma {:induction false} IdLineIsStrippedLabel(line: string)
    ensures IsIdLine(line) <==> StartsWith(Strip(line), IdLabel)
  {
    if line != [] && IsSpace(line[0]) {
      IdLineIsStrippedLabel(line[1..]);
      assert LStrip(line) == LStrip(line[1..]);
    } else {
      assert LStrip(line) == line;
      var r := RStrip(line);
      RStripSpec(line);
      assert Strip(line) == r;
      if StartsWith(line, IdLabel) {
        assert line[12] == ':';
        assert r[..13] == line[..13];
      }
      if StartsWith(r, IdLabel) {
        assert line[..13] == r[..13];
      }
    }
  }

  /** The first labelled line at or after `from`. */
  function FindIdLine(lines: seq<string>, from: nat): (r: Option<nat>)
    requires from <= |lines|
    ensures r.Some? ==> from <= r.value < |lines| && IsIdLine(lines[r.value])
    ensures r.Some? ==> forall j :: from <= j < r.value ==> !IsIdLine(lines[j])
    ensures r.None? ==> forall j :: from <= j < |lines| ==> !IsIdLine(lines[j])
    decreases |lines| - from
  {
    if from == |lines| then None
    else if IsIdLine(lines[from]) then Some(from)
    else FindIdLine(lines, from + 1)
  }

  /** A line that starts with the label, once stripped, has a colon. */
  lemma {:induction false} LabelledLineHasColon(line: string)
    requires IsIdLine(line)
    ensures ':' in line
  {
    if line != [] && IsSpace(line[0]) {
      LabelledLineHasColon(line[1..]);
    } else {
      assert line[12] == ':';
    }
  }

  /** Split of a string holding the separator has at least two parts. */
  lemma SplitAtSeparator(s: string, sep: char)
    requires sep in s
    ensures |Split(s, sep)| >= 2
  {
  }

  /** The stripped text between the first and second colon of a labelled
      line. */
  function IdOfLine(line: string): string
    requires IsIdLine(line)
  {
    LabelledLineHasColon(line);
    SplitAtSeparator(line, ':');
    Strip(Split(line, ':')[1])
  }

  /** The subvolume ID in `btrfs subvolume show` output, taken from the
      first labelled line. */
  function SubvolumeId(stdout: string): Option<string> {
    var lines := Split(Strip(stdout), '\n');
    match FindIdLine(lines, 0)
    case None => None
    case Some(k) => Some(IdOfLine(lines[k]))
  }

  /** `root_subvol_id`, found by the search loop. */
  method ExtractSubvolumeId(stdout: string) returns (id: Option<string>)
    ensures id == SubvolumeId(stdout)
  {
    var lines := Split(Strip(stdout), '\n');
    var k := FirstIdLine(lines);
    id := if k.Some? then Some(IdOfLine(lines[k.value])) else None;
  }

  /** The search loop, which stops at the first labelled line. */
  method FirstIdLine(lines: seq<string>) returns (k: Option<nat>)
    ensures k == FindIdLine(lines, 0)
  {
    var i := 0;
    while i < |lines|
      invariant 0 <= i <= |lines|
      invariant forall j :: 0 <= j < i ==> !IsIdLine(lines[j])
    {
      if IsIdLine(lines[i]) {
        return Some(i);
      }
      i := i + 1;
    }
    return None;
  }

  /** Empty output (what the simulated runner prints) carries no ID. */
  lemma EmptyOutputHasNoId()
    ensures SubvolumeId("") == None
  {
    assert Strip("") == "";
    assert Split("", '\n') == [""];
    assert !IsIdLine("");
  }

  /** The `btrfs subvolume create` loop: a non-zero exit becomes a
      FilesystemError naming the subvolume; the map grows by one path per
      subvolume. */
  function CreateSubvolumesStep(env: RunnerEnv, st: RunnerState, tmp: string, names: seq<string>): (Result<map<string, string>>, RunnerState)
    decreases |names|
  {
    if names == [] then (Ok(map[]), st)
    else
      var (prev, st1) := CreateSubvolumesStep(env, st, tmp, names[..|names| - 1]);
      if prev.Err? then (prev, st1)
      else
        var name := names[|names| - 1];
        var path := PathJoin(tmp, name);
        var (r, st2) := RunStep(env, st1, ["btrfs", "subvolume", "create", path], None, true);
        if r.Err? then
          (Err(if r.error.CalledProcess? then Filesystem("Failed to create subvolume " + name + ": " + Describe(r.error)) else r.error), st2)
        else (Ok(prev.value[name := path]), st2)
  }

  /** A CalledProcessError while showing @ or setting it as the default. */
  function WrapDefaultError(e: Error): Error {
    if e.CalledProcess? then Filesystem(DefaultFailurePrefix + Describe(e)) else e
  }

  /** `btrfs subvolume show` on @, then the ID search and `set-default`. */
  function SetDefaultStep(env: RunnerEnv, st: RunnerState, tmp: string): (Result<()>, RunnerState) {
    var (s, st1) := RunStep(env, st, ["btrfs", "subvolume", "show", PathJoin(tmp, "@")], None, true);
    if s.Err? then (Err(WrapDefaultError(s.error)), st1)
    else SetIdStep(env, st1, tmp, SubvolumeId(s.value.stdout))
  }

  /** `set-default` with the ID found, or the error when there is none. */
  function SetIdStep(env: RunnerEnv, st: RunnerState, tmp: string, id: Option<string>): (Result<()>, RunnerState) {
    if id.None? || id.value == "" then (Err(Filesystem(NoIdMessage)), st)
    else
      var (d, st1) := RunStep(env, st, ["btrfs", "subvolume", "set-default", id.value, tmp], None, true);
      if d.Err? then (Err(WrapDefaultError(d.error)), st1) else (Ok(()), st1)
  }

  /** The body of the `try`: mount, create, set the default, unmount. */
  function SubvolumeBodyStep(env: RunnerEnv, st: RunnerState, system: string, tmp: string, names: seq<string>): (Result<map<string, string>>, RunnerState) {
    var (m, st1) := RunStep(env, st, ["mount", system, tmp], None, true);
    if m.Err? then (Err(m.error), st1)
    else
      var (c, st2) := CreateSubvolumesStep(env, st1, tmp, names);
      if c.Err? then (c, st2)
      else
        var (d, st3) := SetDefaultStep(env, st2, tmp);
        if d.Err? then (Err(d.error), st3)
        else
          var (u, st4) := RunStep(env, st3, ["umount", tmp], None, true);
          if u.Err? then (Err(u.error), st4) else (c, st4)
  }

  /** `create_btrfs_subvolumes`: any exception in the body is followed by an
      unchecked `umount` (whose own failure is ignored) and re-raised as a
      FilesystemError. */
  function SubvolumesStep(env: RunnerEnv, st: RunnerState, partitions: PartitionTable): (Result<map<string, string>>, RunnerState) {
    if "system" !in partitions then (Err(KeyMissing("system")), st)
    else
      var tmp := TempDir(env);
      var (r, st1) := SubvolumeBodyStep(env, st, partitions["system"], tmp, Subvolumes);
      if r.Ok? then (r, st1)
      else
        var st2 := RunStep(env, st1, ["umount", tmp], None, false).1;
        (Err(Filesystem(SubvolumeErrorPrefix + Describe(r.error))), st2)
  }

  method CreateBtrfsSubvolumes(partitions: PartitionTable, runner: CommandRunner) returns (r: Result<map<string, string>>)
    modifies runner
    ensures runner.Env() == old(runner.Env())
    ensures (r, runner.State()) == SubvolumesStep(old(runner.Env()), old(runner.State()), partitions)
  {
    if "system" !in partitions {
      return Err(KeyMissing("system"));
    }
    var systemPartition := partitions["system"];
    var tempDir := if runner.simulationMode == Simulate then SimMountDir else runner.host.mkdtemp;
    r := SubvolumeBody(systemPartition, tempDir, Subvolumes, runner);
    if r.Err? {
      var _ := runner.Run(["umount", tempDir], None, false);
      r := Err(Filesystem(SubvolumeErrorPrefix + Describe(r.error)));
    }
  }

  method SubvolumeBody(system: string, tmp: string, names: seq<string>, runner: CommandRunner) returns (r: Result<map<string, string>>)
    modifies runner
    ensures runner.Env() == old(runner.Env())
    ensures (r, runner.State()) == SubvolumeBodyStep(old(runner.Env()), old(runner.State()), system, tmp, names)
  {
    var mounted := runner.Run(["mount", system, tmp], None, true);
    if mounted.Err? {
      return Err(mounted.error);
    }
    r := CreateSubvolumes(tmp, names, runner);
    if r.Err? {
      return;
    }
    var d := SetDefault(tmp, runner);
    if d.Err? {
      return Err(d.error);
    }
    var unmounted := runner.Run(["umount", tmp], None, true);
    if unmounted.Err? {
      return Err(unmounted.error);
    }
  }

  /** The creation loop, filling `subvolume_paths`. */
  method CreateSubvolumes(tmp: string, names: seq<string>, runner: CommandRunner) returns (r: Result<map<string, string>>)
    modifies runner
    ensures runner.Env() == old(runner.Env())
    ensures (r, runner.State()) == CreateSubvolumesStep(old(runner.Env()), old(runner.State()), tmp, names)
  {
    var paths: map<string, string> := map[];
    var i := 0;
    while i < |names|
      invariant 0 <= i <= |names|
      invariant runner.Env() == old(runner.Env())
      invariant (Ok(paths), runner.State()) == CreateSubvolumesStep(old(runner.Env()), old(runner.State()), tmp, names[..i])
    {
      var name := names[i];
      var path := PathJoin(tmp, name);
      assert names[..i + 1][..i] == names[..i];
      var created := runner.Run(["btrfs", "subvolume", "create", path], None, true);
      if created.Err? {
        if created.error.CalledProcess? {
          r := Err(Filesystem("Failed to create subvolume " + name + ": " + Describe(created.error)));
        } else {
          r := Err(created.error);
        }
        PrefixErrorPersists(old(runner.Env()), old(runner.State()), tmp, names, i + 1);
        assert names[..i + 1][i] == name;
        return;
      }
      paths := paths[name := path];
      i := i + 1;
    }
    assert names[..|names|] == names;
    r := Ok(paths);
  }

  /** Once the loop has failed, the remaining subvolumes are not attempted. */
  lemma {:induction false} PrefixErrorPersists(env: RunnerEnv, st: RunnerState, tmp: string, names: seq<string>, k: nat)
    requires k <= |names|
    requires CreateSubvolumesStep(env, st, tmp, names[..k]).0.Err?
    ensures CreateSubvolumesStep(env, st, tmp, names) == CreateSubvolumesStep(env, st, tmp, names[..k])
    decreases |names| - k
  {
    if k < |names| {
      assert names[..k + 1][..k] == names[..k];
      PrefixErrorPersists(env, st, tmp, names, k + 1);
    } else {
      assert names[..k] == names;
    }
  }

  method SetDefault(tmp: string, runner: CommandRunner) returns (r: Result<()>)
    modifies runner
    ensures runner.Env() == old(runner.Env())
    ensures (r, runner.State()) == SetDefaultStep(old(runner.Env()), old(runner.State()), tmp)
  {
    var shown := runner.Run(["btrfs", "subvolume", "show", PathJoin(tmp, "@")], None, true);
    if shown.Err? {
      return Err(WrapDefaultError(shown.error));
    }
    var id := ExtractSubvolumeId(shown.value.stdout);
    if id.None? || id.value == "" {
      return Err(Filesystem(NoIdMessage));
    }
    var setResult := runner.Run(["btrfs", "subvolume", "set-default", id.value, tmp], None, true);
    if setResult.Err? {
      return Err(WrapDefaultError(setResult.error));
    }
    r := Ok(());
  }

  // ---------------------------------------------------------------------------
  // Properties of create_btrfs_subvolumes
  // ---------------------------------------------------------------------------

  /** The returned map: each subvolume name to its path under the mount point. */
  function SubvolumePaths(tmp: string, names: seq<string>): map<string, string> {
    map n | n in names :: PathJoin(tmp, n)
  }

  /** The `btrfs subvolume create` records of the loop, in order. */
  function CreateRecords(tmp: string, names: seq<string>, simulated: bool): (r: seq<CmdRecord>)
    ensures |r| == |names|
    ensures forall i :: 0 <= i < |names| ==> r[i] == CmdRecord(["btrfs", "subvolume", "create", PathJoin(tmp, names[i])], simulated)
  {
    if names == [] then [] else CreateRecords(tmp, names[..|names| - 1], simulated) + [CmdRecord(["btrfs", "subvolume", "create", PathJoin(tmp, names[|names| - 1])], simulated)]
  }

  /** A completed loop created every subvolume in order and maps exactly the
      given names to their paths. */
  lemma {:induction false} CreatedSubvolumes(env: RunnerEnv, st: RunnerState, tmp: string, names: seq<string>)
    requires CreateSubvolumesStep(env, st, tmp, names).0.Ok?
    ensures var (r, st') := CreateSubvolumesStep(env, st, tmp, names);
      r.value == SubvolumePaths(tmp, names)
      && st'.commandsRun == st.commandsRun + CreateRecords(tmp, names, env.mode == Simulate)
  {
    if names != [] {
      var init := names[..|names| - 1];
      CreatedSubvolumes(env, st, tmp, init);
      var st1 := CreateSubvolumesStep(env, st, tmp, init).1;
      var path := PathJoin(tmp, names[|names| - 1]);
      RunLogsOnce(env, st1, ["btrfs", "subvolume", "create", path], None, true);
      PathsGrow(tmp, names);
    }
  }

  lemma PathsGrow(tmp: string, names: seq<string>)
    requires names != []
    ensures SubvolumePaths(tmp, names) == SubvolumePaths(tmp, names[..|names| - 1])[names[|names| - 1] := PathJoin(tmp, names[|names| - 1])]
  {
  }

  /** A failed loop names the subvolume it stopped at, or passes an OSError on. */
  lemma {:induction false} SubvolumeFailureNamesSubvolume(env: RunnerEnv, st: RunnerState, tmp: string, names: seq<string>)
    requires CreateSubvolumesStep(env, st, tmp, names).0.Err?
    ensures NamesSubvolume(CreateSubvolumesStep(env, st, tmp, names).0.error, names)
  {
    var init := names[..|names| - 1];
    var (prev, st1) := CreateSubvolumesStep(env, st, tmp, init);
    if prev.Err? {
      SubvolumeFailureNamesSubvolume(env, st, tmp, init);
      NamesSubvolumeGrows(prev.error, init, names);
    } else {
      var name := names[|names| - 1];
      LastCreateFailure(env, st1, tmp, name);
      var e := CreateSubvolumesStep(env, st, tmp, names).0.error;
      if !e.HostFailure? {
        assert 0 <= |names| - 1 < |names| && StartsWith(e.msg, "Failed to create subvolume " + names[|names| - 1] + ": ");
      }
    }
  }

  /** The error is an OSError, or a FilesystemError whose message begins by
      naming one of `names` as the subvolume that could not be created. */
  predicate NamesSubvolume(e: Error, names: seq<string>) {
    e.HostFailure?
    || (e.Filesystem? && exists i :: 0 <= i < |names| && StartsWith(e.msg, "Failed to create subvolume " + names[i] + ": "))
  }

  lemma NamesSubvolumeGrows(e: Error, init: seq<string>, names: seq<string>)
    requires |init| <= |names| && names[..|init|] == init && NamesSubvolume(e, init)
    ensures NamesSubvolume(e, names)
  {
    if !e.HostFailure? {
      var i :| 0 <= i < |init| && StartsWith(e.msg, "Failed to create subvolume " + init[i] + ": ");
      assert names[i] == init[i];
    }
  }

  /** One failed `btrfs subvolume create`: an OSError, or a FilesystemError naming it. */
  lemma LastCreateFailure(env: RunnerEnv, st: RunnerState, tmp: string, name: string)
    ensures var r := RunStep(env, st, ["btrfs", "subvolume", "create", PathJoin(tmp, name)], None, true).0;
      r.Err? ==>
        var e := if r.error.CalledProcess? then Filesystem("Failed to create subvolume " + name + ": " + Describe(r.error)) else r.error;
        e.HostFailure? || (e.Filesystem? && StartsWith(e.msg, "Failed to create subvolume " + name + ": "))
  {
    var cmd := ["btrfs", "subvolume", "create", PathJoin(tmp, name)];
    BasenameOfName("btrfs");
    RunErrors(env, st, cmd, None, true);
    var r := RunStep(env, st, cmd, None, true).0;
    if r.Err? && r.error.CalledProcess? {
      var p := "Failed to create subvolume " + name + ": ";
      assert (p + Describe(r.error))[..|p|] == p;
      Reassociate("Failed to create subvolume " + name, ": ", Describe(r.error));
    }
  }

  /** Under SIMULATE every subvolume is created. */
  lemma {:induction false} SimulatedCreatesSucceed(env: RunnerEnv, st: RunnerState, tmp: string, names: seq<string>)
    requires env.mode == Simulate
    ensures CreateSubvolumesStep(env, st, tmp, names).0.Ok?
  {
    if names != [] {
      var init := names[..|names| - 1];
      SimulatedCreatesSucceed(env, st, tmp, init);
      var st1 := CreateSubvolumesStep(env, st, tmp, init).1;
      BasenameOfName("btrfs");
      SimulatedRunSucceeds(env, st1, ["btrfs", "subvolume", "create", PathJoin(tmp, names[|names| - 1])], None, true);
    }
  }

  /** Every failure, whatever raised it, surfaces as a FilesystemError after
      an unchecked `umount` of the mount point; only a missing `system` role
      raises KeyError, before any command. */
  lemma SubvolumeErrorsCleanUp(env: RunnerEnv, st: RunnerState, partitions: PartitionTable)
    requires SubvolumesStep(env, st, partitions).0.Err?
    ensures var (r, st') := SubvolumesStep(env, st, partitions);
      if "system" !in partitions then r.error == KeyMissing("system") && st' == st
      else
        r.error.Filesystem? && StartsWith(r.error.msg, SubvolumeErrorPrefix)
        && |st'.commandsRun| > |st.commandsRun|
        && st'.commandsRun[|st'.commandsRun| - 1] == CmdRecord(["umount", TempDir(env)], env.mode == Simulate)
  {
    if "system" in partitions {
      var tmp := TempDir(env);
      var (r, st1) := SubvolumeBodyStep(env, st, partitions["system"], tmp, Subvolumes);
      RunLogsOnce(env, st1, ["umount", tmp], None, false);
      BodyLogGrows(env, st, partitions["system"], tmp, Subvolumes);
      var msg := SubvolumeErrorPrefix + Describe(r.error);
      assert msg[..|SubvolumeErrorPrefix|] == SubvolumeErrorPrefix;
    }
  }

  /** The body always logs at least the mount. */
  lemma BodyLogGrows(env: RunnerEnv, st: RunnerState, system: string, tmp: string, names: seq<string>)
    ensures |SubvolumeBodyStep(env, st, system, tmp, names).1.commandsRun| > |st.commandsRun|
  {
    var st1 := RunStep(env, st, ["mount", system, tmp], None, true).1;
    var st2 := CreateSubvolumesStep(env, st1, tmp, names).1;
    var st3 := SetDefaultStep(env, st2, tmp).1;
    BodyEndState(env, st, system, tmp, names);
    RunLogsOnce(env, st, ["mount", system, tmp], None, true);
    CreateLogGrows(env, st1, tmp, names);
    SetDefaultLogGrows(env, st2, tmp);
    RunLogsOnce(env, st3, ["umount", tmp], None, true);
  }

  /** The body ends in the state after one of its four steps. */
  lemma BodyEndState(env: RunnerEnv, st: RunnerState, system: string, tmp: string, names: seq<string>)
    ensures var st1 := RunStep(env, st, ["mount", system, tmp], None, true).1;
      var st2 := CreateSubvolumesStep(env, st1, tmp, names).1;
      var st3 := SetDefaultStep(env, st2, tmp).1;
      var st4 := RunStep(env, st3, ["umount", tmp], None, true).1;
      var e := SubvolumeBodyStep(env, st, system, tmp, names).1;
      e == st1 || e == st2 || e == st3 || e == st4
  {
    var m := RunStep(env, st, ["mount", system, tmp], None, true);
    var c := CreateSubvolumesStep(env, m.1, tmp, names);
    var d := SetDefaultStep(env, c.1, tmp);
    var e := SubvolumeBodyStep(env, st, system, tmp, names).1;
    if m.0.Err? {
      assert e == m.1;
    } else if c.0.Err? {
      assert e == c.1;
    } else if d.0.Err? {
      assert e == d.1;
    } else {
      assert e == RunStep(env, d.1, ["umount", tmp], None, true).1;
    }
  }

  lemma {:induction false} CreateLogGrows(env: RunnerEnv, st: RunnerState, tmp: string, names: seq<string>)
    ensures |CreateSubvolumesStep(env, st, tmp, names).1.commandsRun| >= |st.commandsRun|
  {
    if names != [] {
      var init := names[..|names| - 1];
      CreateLogGrows(env, st, tmp, init);
      var st1 := CreateSubvolumesStep(env, st, tmp, init).1;
      RunLogsOnce(env, st1, ["btrfs", "subvolume", "create", PathJoin(tmp, names[|names| - 1])], None, true);
    }
  }

  lemma SetDefaultLogGrows(env: RunnerEnv, st: RunnerState, tmp: string)
    ensures |SetDefaultStep(env, st, tmp).1.commandsRun| > |st.commandsRun|
  {
    var (s, st1) := RunStep(env, st, ["btrfs", "subvolume", "show", PathJoin(tmp, "@")], None, true);
    RunLogsOnce(env, st, ["btrfs", "subvolume", "show", PathJoin(tmp, "@")], None, true);
    if s.Ok? {
      SetIdLogGrows(env, st1, tmp, SubvolumeId(s.value.stdout));
    }
  }

  lemma SetIdLogGrows(env: RunnerEnv, st: RunnerState, tmp: string, id: Option<string>)
    ensures |SetIdStep(env, st, tmp, id).1.commandsRun| >= |st.commandsRun|
  {
    if id.Some? && id.value != "" {
      RunLogsOnce(env, st, ["btrfs", "subvolume", "set-default", id.value, tmp], None, true);
    }
  }

  /** On success the result maps exactly the listed names (@boot among
      them) to their paths under the mount point, and nothing follows the
      body: its log is the one `BodySuccess` describes. */
  lemma SubvolumeSuccess(env: RunnerEnv, st: RunnerState, partitions: PartitionTable)
    requires SubvolumesStep(env, st, partitions).0.Ok?
    ensures var (r, st') := SubvolumesStep(env, st, partitions);
      var tmp := TempDir(env);
      "system" in partitions
      && r.value == SubvolumePaths(tmp, Subvolumes) && "@boot" in r.value
      && (r, st') == SubvolumeBodyStep(env, st, partitions["system"], tmp, Subvolumes)
  {
    BodySuccess(env, st, partitions["system"], TempDir(env), Subvolumes);
    BootIsSubvolume();
  }

  lemma BootIsSubvolume()
    ensures "@boot" in Subvolumes
  {
    assert Subvolumes[1] == "@boot";
  }

  /** A successful body mounts, creates the subvolumes in list order, shows
      @, sets the default and unmounts; the result maps exactly the names to
      their paths. */
  lemma BodySuccess(env: RunnerEnv, st: RunnerState, system: string, tmp: string, names: seq<string>)
    requires SubvolumeBodyStep(env, st, system, tmp, names).0.Ok?
    ensures var r := SubvolumeBodyStep(env, st, system, tmp, names).0;
      var st' := SubvolumeBodyStep(env, st, system, tmp, names).1;
      var sim := env.mode == Simulate;
      r.value == SubvolumePaths(tmp, names)
      && FinishedBodyLog(st'.commandsRun, st.commandsRun + [CmdRecord(["mount", system, tmp], sim)] + CreateRecords(tmp, names, sim), tmp, sim)
  {
    BodyContinues(env, st, system, tmp, names);
    var st1 := RunStep(env, st, ["mount", system, tmp], None, true).1;
    var st2 := CreateSubvolumesStep(env, st1, tmp, names).1;
    var st3 := SetDefaultStep(env, st2, tmp).1;
    CreatedSubvolumes(env, st1, tmp, names);
    BodyStepsLog(env, st, st1, st2, st3, system, tmp, names);
  }

  /** The log through the four steps of a successful body. */
  lemma BodyStepsLog(env: RunnerEnv, st: RunnerState, st1: RunnerState, st2: RunnerState, st3: RunnerState,
                     system: string, tmp: string, names: seq<string>)
    requires st1 == RunStep(env, st, ["mount", system, tmp], None, true).1
    requires CreateSubvolumesStep(env, st1, tmp, names).0.Ok? && st2 == CreateSubvolumesStep(env, st1, tmp, names).1
    requires SetDefaultStep(env, st2, tmp).0.Ok? && st3 == SetDefaultStep(env, st2, tmp).1
    ensures var sim := env.mode == Simulate;
      FinishedBodyLog(RunStep(env, st3, ["umount", tmp], None, true).1.commandsRun,
                      st.commandsRun + [CmdRecord(["mount", system, tmp], sim)] + CreateRecords(tmp, names, sim), tmp, sim)
  {
    var sim := env.mode == Simulate;
    var mount := CmdRecord(["mount", system, tmp], sim);
    var creates := CreateRecords(tmp, names, sim);
    var l0, l1, l2, l3 := st.commandsRun, st1.commandsRun, st2.commandsRun, st3.commandsRun;
    var l4 := RunStep(env, st3, ["umount", tmp], None, true).1.commandsRun;
    assert l1 == l0 + [mount] by { RunLogsOnce(env, st, ["mount", system, tmp], None, true); }
    assert l2 == l1 + creates by { CreatedSubvolumes(env, st1, tmp, names); }
    assert |l3| == |l2| + 2 && l3[..|l2|] == l2
      && l3[|l2|] == CmdRecord(["btrfs", "subvolume", "show", PathJoin(tmp, "@")], sim)
      && IsSetDefault(l3[|l2| + 1], tmp, sim) by { SetDefaultSuccess(env, st2, tmp); }
    assert l4 == l3 + [CmdRecord(["umount", tmp], sim)] by { RunLogsOnce(env, st3, ["umount", tmp], None, true); }
    BodyLogShape(l0, l1, l2, l3, l4, mount, creates, tmp, sim);
  }

  /** The log after the creations (`base`): the show of @, a set-default
      and the umount, and nothing else. */
  predicate FinishedBodyLog(log: seq<CmdRecord>, base: seq<CmdRecord>, tmp: string, sim: bool) {
    |log| == |base| + 3
    && log[..|base|] == base
    && log[|base|] == CmdRecord(["btrfs", "subvolume", "show", PathJoin(tmp, "@")], sim)
    && IsSetDefault(log[|base| + 1], tmp, sim)
    && log[|base| + 2] == CmdRecord(["umount", tmp], sim)
  }

  /** A successful body went through every step: the result is the creation
      loop's, the state the one after `umount`. */
  lemma BodyContinues(env: RunnerEnv, st: RunnerState, system: string, tmp: string, names: seq<string>)
    requires SubvolumeBodyStep(env, st, system, tmp, names).0.Ok?
    ensures var st1 := RunStep(env, st, ["mount", system, tmp], None, true).1;
      var c := CreateSubvolumesStep(env, st1, tmp, names);
      var d := SetDefaultStep(env, c.1, tmp);
      RunStep(env, st, ["mount", system, tmp], None, true).0.Ok? && c.0.Ok? && d.0.Ok?
      && SubvolumeBodyStep(env, st, system, tmp, names) == (c.0, RunStep(env, d.1, ["umount", tmp], None, true).1)
  {
  }

  /** The log of a successful body, from the logs of its steps. */
  lemma BodyLogShape(l0: seq<CmdRecord>, l1: seq<CmdRecord>, l2: seq<CmdRecord>, l3: seq<CmdRecord>, l4: seq<CmdRecord>,
                     mount: CmdRecord, creates: seq<CmdRecord>, tmp: string, sim: bool)
    requires l1 == l0 + [mount] && l2 == l1 + creates
    requires |l3| == |l2| + 2 && l3[..|l2|] == l2
    requires l3[|l2|] == CmdRecord(["btrfs", "subvolume", "show", PathJoin(tmp, "@")], sim)
    requires IsSetDefault(l3[|l2| + 1], tmp, sim)
    requires l4 == l3 + [CmdRecord(["umount", tmp], sim)]
    ensures FinishedBodyLog(l4, l0 + [mount] + creates, tmp, sim)
  {
    assert l4[..|l2|] == l3[..|l2|];
  }

  /** A record of `btrfs subvolume set-default <id> <tmp>` for some ID. */
  predicate IsSetDefault(rec: CmdRecord, tmp: string, simulated: bool) {
    var c := rec.command;
    rec.simulated == simulated && |c| == 5 && c[0] == "btrfs" && c[1] == "subvolume" && c[2] == "set-default" && c[4] == tmp
  }

  /** A successful show/set-default pair logs exactly those two commands. */
  lemma SetDefaultSuccess(env: RunnerEnv, st: RunnerState, tmp: string)
    requires SetDefaultStep(env, st, tmp).0.Ok?
    ensures var st' := SetDefaultStep(env, st, tmp).1;
      var sim := env.mode == Simulate;
      |st'.commandsRun| == |st.commandsRun| + 2
      && st'.commandsRun[..|st.commandsRun|] == st.commandsRun
      && st'.commandsRun[|st.commandsRun|] == CmdRecord(["btrfs", "subvolume", "show", PathJoin(tmp, "@")], sim)
      && IsSetDefault(st'.commandsRun[|st.commandsRun| + 1], tmp, sim)
  {
    var sim := env.mode == Simulate;
    var show := ["btrfs", "subvolume", "show", PathJoin(tmp, "@")];
    SetDefaultContinues(env, st, tmp);
    var s := RunStep(env, st, show, None, true);
    var id := SubvolumeId(s.0.value.stdout);
    RunLogsOnce(env, st, show, None, true);
    SetIdSuccess(env, s.1, tmp, id);
    var rec := CmdRecord(["btrfs", "subvolume", "set-default", id.value, tmp], sim);
    TwoRecords(st.commandsRun, s.1.commandsRun, SetDefaultStep(env, st, tmp).1.commandsRun, CmdRecord(show, sim), rec);
    assert IsSetDefault(rec, tmp, sim);
  }

  /** A successful show/set-default pair is the `set-default` step after the show. */
  lemma SetDefaultContinues(env: RunnerEnv, st: RunnerState, tmp: string)
    requires SetDefaultStep(env, st, tmp).0.Ok?
    ensures var s := RunStep(env, st, ["btrfs", "subvolume", "show", PathJoin(tmp, "@")], None, true);
      s.0.Ok? && SetDefaultStep(env, st, tmp) == SetIdStep(env, s.1, tmp, SubvolumeId(s.0.value.stdout))
  {
  }

  /** Two records appended one at a time, read back by position. */
  lemma TwoRecords(l0: seq<CmdRecord>, l1: seq<CmdRecord>, l2: seq<CmdRecord>, a: CmdRecord, b: CmdRecord)
    requires l1 == l0 + [a] && l2 == l1 + [b]
    ensures |l2| == |l0| + 2 && l2[..|l0|] == l0 && l2[|l0|] == a && l2[|l0| + 1] == b
  {
    assert l2[..|l0|] == l1[..|l0|];
  }

  /** `set-default` succeeds only with a non-empty ID, and logs itself. */
  lemma SetIdSuccess(env: RunnerEnv, st: RunnerState, tmp: string, id: Option<string>)
    requires SetIdStep(env, st, tmp, id).0.Ok?
    ensures id.Some? && id.value != ""
    ensures SetIdStep(env, st, tmp, id).1.commandsRun
      == st.commandsRun + [CmdRecord(["btrfs", "subvolume", "set-default", id.value, tmp], env.mode == Simulate)]
  {
    RunLogsOnce(env, st, ["btrfs", "subvolume", "set-default", id.value, tmp], None, true);
  }

  /** Under SIMULATE `btrfs subvolume show` prints nothing, so no ID is found
      and the stage always fails, after mounting, creating all eleven
      subvolumes, showing @ and unmounting. */
  lemma SimulatedSubvolumesFail(env: RunnerEnv, st: RunnerState, partitions: PartitionTable)
    requires env.mode == Simulate && "system" in partitions
    ensures var (r, st') := SubvolumesStep(env, st, partitions);
      r == Err(Filesystem(SubvolumeErrorPrefix + NoIdMessage))
      && st'.commandsRun == st.commandsRun
        + [CmdRecord(["mount", partitions["system"], SimMountDir], true)]
        + CreateRecords(SimMountDir, Subvolumes, true)
        + [CmdRecord(["btrfs", "subvolume", "show", PathJoin(SimMountDir, "@")], true),
           CmdRecord(["umount", SimMountDir], true)]
  {
    var system := partitions["system"];
    var prefix := st.commandsRun + [CmdRecord(["mount", system, SimMountDir], true)] + CreateRecords(SimMountDir, Subvolumes, true);
    var show := CmdRecord(["btrfs", "subvolume", "show", PathJoin(SimMountDir, "@")], true);
    var umount := CmdRecord(["umount", SimMountDir], true);
    SimulatedBodyFails(env, st, system, SimMountDir, Subvolumes);
    var st1 := SubvolumeBodyStep(env, st, system, SimMountDir, Subvolumes).1;
    var st2 := RunStep(env, st1, ["umount", SimMountDir], None, false).1;
    RunLogsOnce(env, st1, ["umount", SimMountDir], None, false);
    SubvolumesAfterBodyFailure(env, st, partitions);
    assert SubvolumesStep(env, st, partitions) == (Err(Filesystem(SubvolumeErrorPrefix + NoIdMessage)), st2);
    LogShape(st1.commandsRun, st2.commandsRun, prefix, show, umount);
  }

  /** The log after two appended records, regrouped. */
  lemma LogShape(log1: seq<CmdRecord>, log2: seq<CmdRecord>, prefix: seq<CmdRecord>, last: CmdRecord, next: CmdRecord)
    requires log1 == prefix + [last] && log2 == log1 + [next]
    ensures log2 == prefix + [last, next]
  {
    AppendPair(prefix, last, next);
  }

  /** A failed body is followed by the unchecked `umount` and re-raised. */
  lemma SubvolumesAfterBodyFailure(env: RunnerEnv, st: RunnerState, partitions: PartitionTable)
    requires "system" in partitions
    requires SubvolumeBodyStep(env, st, partitions["system"], TempDir(env), Subvolumes).0.Err?
    ensures var (r, st1) := SubvolumeBodyStep(env, st, partitions["system"], TempDir(env), Subvolumes);
      SubvolumesStep(env, st, partitions)
        == (Err(Filesystem(SubvolumeErrorPrefix + Describe(r.error))), RunStep(env, st1, ["umount", TempDir(env)], None, false).1)
  {
  }

  lemma SimulatedBodyFails(env: RunnerEnv, st: RunnerState, system: string, tmp: string, names: seq<string>)
    requires env.mode == Simulate
    ensures var (r, st') := SubvolumeBodyStep(env, st, system, tmp, names);
      r == Err(Filesystem(NoIdMessage))
      && st'.commandsRun == st.commandsRun
        + [CmdRecord(["mount", system, tmp], true)]
        + CreateRecords(tmp, names, true)
        + [CmdRecord(["btrfs", "subvolume", "show", PathJoin(tmp, "@")], true)]
  {
    BasenameOfName("mount");
    SimulatedRunSucceeds(env, st, ["mount", system, tmp], None, true);
    RunLogsOnce(env, st, ["mount", system, tmp], None, true);
    var st1 := RunStep(env, st, ["mount", system, tmp], None, true).1;
    SimulatedCreatesSucceed(env, st1, tmp, names);
    CreatedSubvolumes(env, st1, tmp, names);
    var st2 := CreateSubvolumesStep(env, st1, tmp, names).1;
    SimulatedShowFindsNoId(env, st2, tmp);
  }

  /** The simulated `btrfs subvolume show` is answered with empty output. */
  lemma SimulatedShowFindsNoId(env: RunnerEnv, st: RunnerState, tmp: string)
    requires env.mode == Simulate
    ensures SetDefaultStep(env, st, tmp).0 == Err(Filesystem(NoIdMessage))
    ensures SetDefaultStep(env, st, tmp).1.commandsRun
      == st.commandsRun + [CmdRecord(["btrfs", "subvolume", "show", PathJoin(tmp, "@")], true)]
  {
    var show := ["btrfs", "subvolume", "show", PathJoin(tmp, "@")];
    BasenameOfName("btrfs");
    UnhandledCommandIsSilent(env, st, show, None, true);
    EmptyOutputHasNoId();
    ShowWithoutId(env, st, tmp);
    RunLogsOnce(env, st, show, None, true);
  }

  /** A show whose output holds no ID stops the step before `set-default`. */
  lemma ShowWithoutId(env: RunnerEnv, st: RunnerState, tmp: string)
    requires var s := RunStep(env, st, ["btrfs", "subvolume", "show", PathJoin(tmp, "@")], None, true).0;
      s.Ok? && SubvolumeId(s.value.stdout) == None
    ensures SetDefaultStep(env, st, tmp)
      == (Err(Filesystem(NoIdMessage)), RunStep(env, st, ["btrfs", "subvolume", "show", PathJoin(tmp, "@")], None, true).1)
  {
  }

}
