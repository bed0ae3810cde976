/** architect/core/disk.py: is the disk there, what is it, and does it
    support TRIM.  Each operation is a method on the runner, proved against
    a step function that threads the runner's state; the probes the source
    makes directly (os.path.exists, sysfs, shutil.which, os.cpu_count) are
    fields of the host. */
module Disk {
  import opened Text
  import opened Errors
  import opened Types
  import opened SizeFormat
  import opened Command

  /** The size assumed when it cannot be probed or parsed (~465.76 GiB). */
  const FallbackSize: nat := 500107862016

  /** `int(s)` for a stripped string: an optional sign and decimal digits. */
  function ParseInt(s: string): (r: Option<int>)
    ensures r.Some? ==> s != []
    ensures s != [] && AllDigits(s) ==> r == Some(DigitsValue(s))
  {
    if s == [] then None
    else if s[0] == '-' || s[0] == '+' then
      var body := s[1..];
      if body != [] && AllDigits(body) then
        Some(if s[0] == '-' then -(DigitsValue(body) as int) else DigitsValue(body))
      else None
    else if AllDigits(s) then Some(DigitsValue(s))
    else None
  }

  /** `read_sysfs_value(path, default)` with a non-empty default: the
      stripped file content, or the default when the file is missing or
      unreadable. */
  function ReadSysfs(host: Host, path: string, default: string): string {
    match host.sysfs(path)
    case Some(raw) => Strip(raw)
    case None => default
  }

  /** Pure simulation: SIMULATE mode without real disk information. */
  predicate PureSimulation(env: RunnerEnv) {
    env.mode == Simulate && !env.useRealDiskInfo
  }

  /** The runner call a probe uses: `run_real` when `viaRunReal` holds, `run` otherwise. */
  function Probe(env: RunnerEnv, st: RunnerState, viaRunReal: bool, cmd: seq<string>, check: bool): (Result<Completed>, RunnerState) {
    if viaRunReal then RunRealStep(env, st, cmd, None, check) else RunStep(env, st, cmd, None, check)
  }

  // ---------------------------------------------------------------------------
  // is_disk_available
  // ---------------------------------------------------------------------------

  /** `is_disk_available`: true in pure simulation; otherwise the path must
      exist and `lsblk -n -o TYPE` must mention `disk` (any exception reads as
      false). */
  function DiskAvailableStep(env: RunnerEnv, st: RunnerState, disk: string): (bool, RunnerState) {
    if PureSimulation(env) then (true, st)
    else if !env.host.pathExists(disk) then (false, st)
    else
      var (r, st') := Probe(env, st, env.mode == Simulate && env.useRealDiskInfo, ["lsblk", "-n", "-o", "TYPE", disk], false);
      match r
      case Ok(c) => (Contains(Lower(c.stdout), "disk"), st')
      case Err(_) => (false, st')
  }

  method IsDiskAvailable(disk: string, runner: CommandRunner) returns (available: bool)
    modifies runner
    ensures runner.Env() == old(runner.Env())
    ensures (available, runner.State()) == DiskAvailableStep(old(runner.Env()), old(runner.State()), disk)
  {
    if runner.simulationMode == Simulate && !runner.useRealDiskInfo {
      return true;
    }
    if !runner.host.pathExists(disk) {
      return false;
    }
    var r;
    if runner.simulationMode == Simulate && runner.useRealDiskInfo {
      r := runner.RunReal(["lsblk", "-n", "-o", "TYPE", disk], None, false);
    } else {
      r := runner.Run(["lsblk", "-n", "-o", "TYPE", disk], None, false);
    }
    available := r.Ok? && Contains(Lower(r.value.stdout), "disk");
  }

  /** Pure simulation takes every path for an available disk, without a
      command; otherwise a missing path is unavailable, without a command. */
  lemma AvailabilityShortcuts(env: RunnerEnv, st: RunnerState, disk: string)
    ensures PureSimulation(env) ==> DiskAvailableStep(env, st, disk) == (true, st)
    ensures !PureSimulation(env) && !env.host.pathExists(disk) ==> DiskAvailableStep(env, st, disk) == (false, st)
  {
  }

  /** Outside pure simulation, availability needs the path to exist and a
      successful lsblk probe whose output mentions `disk`. */
  lemma AvailableNeedsProbe(env: RunnerEnv, st: RunnerState, disk: string)
    requires !PureSimulation(env) && DiskAvailableStep(env, st, disk).0
    ensures env.host.pathExists(disk)
    ensures var (r, _) := Probe(env, st, env.mode == Simulate, ["lsblk", "-n", "-o", "TYPE", disk], false);
      r.Ok? && Contains(Lower(r.value.stdout), "disk")
  {
  }

  // ---------------------------------------------------------------------------
  // check_trim_support
  // ---------------------------------------------------------------------------

  /** `check_trim_support` */
  function TrimStep(env: RunnerEnv, st: RunnerState, disk: string, isSsd: bool): (bool, RunnerState) {
    if !isSsd then (false, st)
    else if env.mode == Simulate then
      (match env.params.trimSupported case Some(t) => t case None => true, st)
    else if Contains(Basename(disk), "nvme") then (true, st)
    else if env.host.which("hdparm") then
      var (r, st') := RunStep(env, st, ["hdparm", "-I", disk], None, false);
      match r
      case Ok(c) => (Contains(c.stdout, "TRIM supported"), st')
      case Err(_) => (true, st')
    else (true, st)
  }

  method CheckTrimSupport(disk: string, isSsd: bool, runner: CommandRunner) returns (supported: bool)
    modifies runner
    ensures runner.Env() == old(runner.Env())
    ensures (supported, runner.State()) == TrimStep(old(runner.Env()), old(runner.State()), disk, isSsd)
  {
    if !isSsd {
      return false;
    }
    var diskName := Basename(disk);
    if runner.simulationMode == Simulate {
      match runner.simulationParams.trimSupported {
        case Some(t) => return t;
        case None => return true;
      }
    }
    if Contains(diskName, "nvme") {
      return true;
    }
    if runner.host.which("hdparm") {
      var r := runner.Run(["hdparm", "-I", disk], None, false);
      if r.Ok? {
        return Contains(r.value.stdout, "TRIM supported");
      }
    }
    return true;
  }

  /** The decision chain of `check_trim_support`. */
  lemma TrimDecisions(env: RunnerEnv, st: RunnerState, disk: string, isSsd: bool)
    ensures !isSsd ==> TrimStep(env, st, disk, isSsd) == (false, st)
    ensures isSsd && env.mode == Simulate ==>
      TrimStep(env, st, disk, isSsd) == (env.params.trimSupported != Some(false), st)
    ensures isSsd && env.mode != Simulate && Contains(Basename(disk), "nvme") ==> TrimStep(env, st, disk, isSsd) == (true, st)
    ensures isSsd && env.mode != Simulate && !Contains(Basename(disk), "nvme") && !env.host.which("hdparm") ==>
      TrimStep(env, st, disk, isSsd) == (true, st)
    ensures isSsd && env.mode != Simulate && !Contains(Basename(disk), "nvme") && env.host.which("hdparm") ==>
      var (r, st') := RunStep(env, st, ["hdparm", "-I", disk], None, false);
      TrimStep(env, st, disk, isSsd) == (r.Ok? ==> Contains(r.value.stdout, "TRIM supported"), st')
  {
  }

  // ---------------------------------------------------------------------------
  // get_disk_info
  // ---------------------------------------------------------------------------

  /** `_get_real_disk_info`: the size from blockdev (or the fallback), the
      rotational flag from sysfs (default "1"), the model from lsblk (or a
      name chosen by the NVMe flag when the output is blank). */
  function RealInfoStep(env: RunnerEnv, st: RunnerState, disk: string, diskName: string, info: DiskInfo): (DiskInfo, RunnerState) {
    var viaRunReal := env.mode == Simulate;
    var (sizeResult, st1) := Probe(env, st, viaRunReal, ["blockdev", "--getsize64", disk], true);
    var size := if sizeResult.Ok? && ParseInt(Strip(sizeResult.value.stdout)).Some?
                then ParseInt(Strip(sizeResult.value.stdout)).value else FallbackSize;
    var rotational := ReadSysfs(env.host, "/sys/block/" + diskName + "/queue/rotational", "1") == "1";
    var info1 := info.(sizeBytes := size, rotational := rotational);
    var (modelResult, st2) := Probe(env, st1, viaRunReal, ["lsblk", "-n", "-o", "MODEL", disk], false);
    match modelResult
    case Ok(c) =>
      var m := Strip(c.stdout);
      (info1.(model := if m != "" then m else if info1.nvme then "NVMe" else "SSD/HDD"), st2)
    case Err(_) => (info1, st2)
  }

  method GetRealDiskInfo(disk: string, diskName: string, info: DiskInfo, runner: CommandRunner) returns (updated: DiskInfo)
    modifies runner
    ensures runner.Env() == old(runner.Env())
    ensures (updated, runner.State()) == RealInfoStep(old(runner.Env()), old(runner.State()), disk, diskName, info)
  {
    var viaRunReal := runner.simulationMode == Simulate;
    updated := info;
    var r;
    if viaRunReal {
      r := runner.RunReal(["blockdev", "--getsize64", disk], None, true);
    } else {
      r := runner.Run(["blockdev", "--getsize64", disk], None, true);
    }
    if r.Ok? && ParseInt(Strip(r.value.stdout)).Some? {
      updated := updated.(sizeBytes := ParseInt(Strip(r.value.stdout)).value);
    } else {
      updated := updated.(sizeBytes := FallbackSize);
    }
    var rotational := ReadSysfs(runner.host, "/sys/block/" + diskName + "/queue/rotational", "1");
    updated := updated.(rotational := rotational == "1");
    if viaRunReal {
      r := runner.RunReal(["lsblk", "-n", "-o", "MODEL", disk], None, false);
    } else {
      r := runner.Run(["lsblk", "-n", "-o", "MODEL", disk], None, false);
    }
    if r.Ok? {
      var m := Strip(r.value.stdout);
      updated := updated.(model := if m != "" then m else if updated.nvme then "NVMe" else "SSD/HDD");
    }
  }

  /** The simulated size: `disk_size` read against 10 TiB, or the fallback. */
  function SimulatedSize(params: SimParams): int {
    match params.diskSize
    case None => FallbackSize
    case Some(spec) =>
      match ParseSizeSpec(spec, ReferenceSize)
      case Ok(n) => n
      case Err(_) => FallbackSize
  }

  /** `_get_simulated_disk_info`: everything comes from the parameters. */
  method GetSimulatedDiskInfo(info: DiskInfo, params: SimParams) returns (updated: DiskInfo)
    ensures updated.sizeBytes == SimulatedSize(params)
    ensures updated.rotational == (params.rotational == Some(true))
    ensures updated.nvme == (if params.nvme.Some? then params.nvme.value else info.nvme)
    ensures updated.model == "SIMULATED " + Upper(
      if params.diskType.Some? then params.diskType.value else if updated.rotational then "hdd" else "ssd")
    ensures updated.trimSupported == info.trimSupported && updated.cpuCount == info.cpuCount
  {
    updated := info;
    match params.diskSize {
      case Some(spec) =>
        var parsed := ParseSizeSpec(spec, ReferenceSize);
        if parsed.Ok? {
          updated := updated.(sizeBytes := parsed.value);
        } else {
          updated := updated.(sizeBytes := FallbackSize);
        }
      case None =>
        updated := updated.(sizeBytes := FallbackSize);
    }
    updated := updated.(rotational := if params.rotational.Some? then params.rotational.value else false);
    if params.nvme.Some? {
      updated := updated.(nvme := params.nvme.value);
    }
    var diskType := if params.diskType.Some? then params.diskType.value else if !updated.rotational then "ssd" else "hdd";
    updated := updated.(model := "SIMULATED " + Upper(diskType));
  }

  /** The simulated record, as a value. */
  function SimulatedInfo(info: DiskInfo, params: SimParams): DiskInfo {
    var rotational := params.rotational == Some(true);
    var diskType := if params.diskType.Some? then params.diskType.value else if rotational then "hdd" else "ssd";
    info.(sizeBytes := SimulatedSize(params), rotational := rotational,
          nvme := if params.nvme.Some? then params.nvme.value else info.nvme,
          model := "SIMULATED " + Upper(diskType))
  }

  /** The record `get_disk_info` starts from. */
  function InitialInfo(host: Host, disk: string): DiskInfo {
    DiskInfo(0, true, Contains(Lower(Basename(disk)), "nvme"), "Unknown", false,
             if host.cpuCount == 0 then 4 else host.cpuCount)
  }

  /** `get_disk_info` */
  function DiskInfoStep(env: RunnerEnv, st: RunnerState, disk: string): (Result<DiskInfo>, RunnerState) {
    var (available, st1) := DiskAvailableStep(env, st, disk);
    if !available && env.mode != Simulate then
      (Err(DiskNotFound("Disk " + disk + " not found or is not a block device")), st1)
    else
      var info0 := InitialInfo(env.host, disk);
      var (info1, st2) :=
        if PureSimulation(env) then (SimulatedInfo(info0, env.params), st1)
        else RealInfoStep(env, st1, disk, Basename(disk), info0);
      if !info1.rotational then
        var (trim, st3) := TrimStep(env, st2, disk, true);
        (Ok(info1.(trimSupported := trim)), st3)
      else (Ok(info1), st2)
  }

  method GetDiskInfo(disk: string, runner: CommandRunner) returns (r: Result<DiskInfo>)
    modifies runner
    ensures runner.Env() == old(runner.Env())
    ensures (r, runner.State()) == DiskInfoStep(old(runner.Env()), old(runner.State()), disk)
  {
    var available := IsDiskAvailable(disk, runner);
    if !available && runner.simulationMode != Simulate {
      return Err(DiskNotFound("Disk " + disk + " not found or is not a block device"));
    }
    var diskName := Basename(disk);
    var info := InitialInfo(runner.host, disk);
    if runner.simulationMode == Simulate && !runner.useRealDiskInfo {
      info := GetSimulatedDiskInfo(info, runner.simulationParams);
    } else {
      info := GetRealDiskInfo(disk, diskName, info, runner);
    }
    if !info.rotational {
      var trim := CheckTrimSupport(disk, true, runner);
      info := info.(trimSupported := trim);
    }
    r := Ok(info);
  }

  // ---------------------------------------------------------------------------
  // Properties
  // ---------------------------------------------------------------------------

  /** DiskNotFoundError is raised exactly when the disk is unavailable and
      the mode is not SIMULATE. */
  lemma NotFoundIffUnavailable(env: RunnerEnv, st: RunnerState, disk: string)
    ensures DiskInfoStep(env, st, disk).0.Err? <==> (!DiskAvailableStep(env, st, disk).0 && env.mode != Simulate)
    ensures DiskInfoStep(env, st, disk).0.Err? ==> DiskInfoStep(env, st, disk).0.error.DiskNotFound?
  {
  }

  /** TRIM is only ever reported for non-rotational disks. */
  lemma RotationalMeansNoTrim(env: RunnerEnv, st: RunnerState, disk: string)
    requires DiskInfoStep(env, st, disk).0.Ok?
    ensures var info := DiskInfoStep(env, st, disk).0.value;
      info.rotational ==> !info.trimSupported
  {
  }

  /** The NVMe flag is "nvme" in the lower-cased base name, unless a pure
      simulation sets the `nvme` parameter. */
  lemma NvmeFlag(env: RunnerEnv, st: RunnerState, disk: string)
    requires DiskInfoStep(env, st, disk).0.Ok?
    ensures DiskInfoStep(env, st, disk).0.value.nvme ==
      if PureSimulation(env) && env.params.nvme.Some? then env.params.nvme.value
      else Contains(Lower(Basename(disk)), "nvme")
  {
  }

  /** os.cpu_count() or 4. */
  lemma CpuCountDefault(env: RunnerEnv, st: RunnerState, disk: string)
    requires DiskInfoStep(env, st, disk).0.Ok?
    ensures DiskInfoStep(env, st, disk).0.value.cpuCount == if env.host.cpuCount == 0 then 4 else env.host.cpuCount
  {
  }

  /** The real probe: a failed or unparsable size gives 500107862016, the
      disk is rotational iff sysfs says "1" (missing reads as "1"), and a
      blank model falls back on the NVMe flag. */
  lemma RealInfoFallbacks(env: RunnerEnv, st: RunnerState, disk: string, diskName: string, info: DiskInfo)
    ensures var (sizeResult, st1) := Probe(env, st, env.mode == Simulate, ["blockdev", "--getsize64", disk], true);
      var out := RealInfoStep(env, st, disk, diskName, info).0;
      ((sizeResult.Err? || ParseInt(Strip(sizeResult.value.stdout)).None?) ==> out.sizeBytes == FallbackSize)
      && (out.rotational <==> ReadSysfs(env.host, "/sys/block/" + diskName + "/queue/rotational", "1") == "1")
      && (env.host.sysfs("/sys/block/" + diskName + "/queue/rotational").None? ==> out.rotational)
      && out.nvme == info.nvme
      && (var (m, _) := Probe(env, st1, env.mode == Simulate, ["lsblk", "-n", "-o", "MODEL", disk], false);
          m.Ok? && Strip(m.value.stdout) == "" ==> out.model == if info.nvme then "NVMe" else "SSD/HDD")
  {
  }

  /** In pure simulation no command is issued for the probes: the record
      comes from the parameters (size from `disk_size` or the fallback,
      rotational default false, model "SIMULATED <TYPE>"). */
  lemma PureSimulationInfo(env: RunnerEnv, st: RunnerState, disk: string)
    requires PureSimulation(env)
    ensures var (r, st') := DiskInfoStep(env, st, disk);
      r.Ok? && st' == st
      && r.value.sizeBytes == SimulatedSize(env.params)
      && r.value.rotational == (env.params.rotational == Some(true))
      && r.value.model == "SIMULATED " + Upper(
           if env.params.diskType.Some? then env.params.diskType.value
           else if r.value.rotational then "hdd" else "ssd")
      && r.value.trimSupported == (!r.value.rotational && env.params.trimSupported != Some(false))
  {
  }

  /** The fallback size is used when `disk_size` is absent or invalid. */
  lemma SimulatedSizeFallback(params: SimParams)
    ensures params.diskSize.None? ==> SimulatedSize(params) == FallbackSize
    ensures params.diskSize.Some? && ParseSizeSpec(params.diskSize.value, ReferenceSize).Err? ==> SimulatedSize(params) == FallbackSize
    ensures params.diskSize.Some? && ParseSizeSpec(params.diskSize.value, ReferenceSize).Ok? ==>
      SimulatedSize(params) == ParseSizeSpec(params.diskSize.value, ReferenceSize).value
  {
  }
}
