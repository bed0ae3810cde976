/** architect/core/partition.py: partition device names, the GPT type of the
    Linux system partition, and `prepare_disk`, which wipes the disk, feeds
    sfdisk a script and returns the role -> device table. */
module Partition {
  import opened Text
  import opened Errors
  import opened Types
  import opened SizeFormat
  import opened Command

  /** DEFAULT_SSD_OVERPROVISION: declared by the source and read nowhere. */
  const DefaultSsdOverprovision: nat := 5
  const MinWindowsSizeGiB: nat := 21

  const LuksType := "CA7D7CCB-63ED-4C53-861C-1742536059CC"
  const GenericLinuxType := "0FC63DAF-8483-4772-8E79-3D69D8477DE4"

  /** Architecture -> GPT type of its Linux root partition. */
  const ArchTypes: map<string, string> := map[
    "x86_64" := "4F68BCE3-E8CD-4DB1-96E7-FBCAF984B709",
    "arm64" := "B921B045-1DF0-41C3-AF44-4C6F280D3FAE",
    "ia64" := "993D8D3D-F80E-4225-855A-9DAF8ED7EA97",
    "arm" := "69DAD710-2CE4-4E3C-B16C-21A1D49ABED3",
    "x86" := "44479540-F297-41B2-9AF7-D131D5F0458A"]

  // ---------------------------------------------------------------------------
  // get_partition_device_name
  // ---------------------------------------------------------------------------

  /** NVMe disks (any path mentioning "nvme", in any case) number their
      partitions after a `p`. */
  function PartitionDeviceName(disk: string, n: nat): (r: string)
    ensures StartsWith(r, disk)
  {
    if Contains(Lower(disk), "nvme") then disk + "p" + NatToString(n) else disk + NatToString(n)
  }

  /** Different partition numbers name different devices of the same disk. */
  lemma DeviceNamesDistinct(disk: string, n: nat, m: nat)
    requires n != m
    ensures PartitionDeviceName(disk, n) != PartitionDeviceName(disk, m)
  {
    var infix := if Contains(Lower(disk), "nvme") then "p" else "";
    var a := PartitionDeviceName(disk, n);
    var b := PartitionDeviceName(disk, m);
    assert a == disk + infix + NatToString(n);
    assert b == disk + infix + NatToString(m);
    if a == b {
      assert NatToString(n) == a[|disk + infix|..] == b[|disk + infix|..] == NatToString(m);
      DigitsValueOfNatToString(n);
      DigitsValueOfNatToString(m);
    }
  }

  /** `/dev/sda`, 3 -> `/dev/sda3`. */
  lemma SdaDeviceName()
    ensures PartitionDeviceName("/dev/sda", 3) == "/dev/sda3"
  {
    LowerOfLowercase("/dev/sda");
    if Contains("/dev/sda", "nvme") {
      ContainsChar("/dev/sda", "nvme", 0);
    }
  }

  /** `/dev/nvme0n1`, 3 -> `/dev/nvme0n1p3`. */
  lemma NvmeDeviceName(d: string)
    requires d == "/dev/nvme0n1"
    ensures PartitionDeviceName(d, 3) == d + "p3"
  {
    assert Contains(Lower(d), "nvme") by {
      LowerOfLowercase(d);
      assert d[5..9] == "nvme";
      ContainsAt(d, "nvme", 5);
    }
    assert PartitionDeviceName(d, 3) == d + "p" + NatToString(3);
    assert NatToString(3) == "3";
  }

  // ---------------------------------------------------------------------------
  // get_architecture_specific_partition_type
  // ---------------------------------------------------------------------------

  /** The normalisation of `platform.machine()`.  The test for aarch64 is
      `arch in ("aarch64")`, which asks whether `arch` is a substring of
      "aarch64". */
  function NormalizeArch(machine: string): string {
    var arch := Lower(machine);
    if arch in ["x86_64", "amd64"] then "x86_64"
    else if Contains("aarch64", arch) then "arm64"
    else if arch in ["i386", "i486", "i586", "i686"] then "x86"
    else if StartsWith(arch, "arm") then (if Contains(arch, "64") then "arm64" else "arm")
    else arch
  }

  /** The GPT type of the Linux system partition. */
  function ArchPartitionType(args: Args, machine: string): (t: string)
    ensures t == LuksType || t == GenericLinuxType || t in ArchTypes.Values
  {
    if args.HardwareRequested() || args.SoftwareRequested() then LuksType
    else
      var arch := if args.targetArch != "" then args.targetArch else NormalizeArch(machine);
      if arch in ArchTypes then ArchTypes[arch] else GenericLinuxType
  }

  /** Any encryption selects the LUKS type, whatever the architecture. */
  lemma EncryptedSelectsLuks(args: Args, machine: string)
    requires args.HardwareRequested() || args.SoftwareRequested()
    ensures ArchPartitionType(args, machine) == LuksType
  {
  }

  /** Without encryption, `target_arch` wins over the detected machine and is
      looked up as given, falling back on the generic Linux type. */
  lemma TargetArchOverrides(args: Args, machine: string)
    requires !args.HardwareRequested() && !args.SoftwareRequested() && args.targetArch != ""
    ensures ArchPartitionType(args, machine) ==
      if args.targetArch in ArchTypes then ArchTypes[args.targetArch] else GenericLinuxType
  {
  }

  /** Without encryption or override, the detected machine is normalised
      and looked up; an unknown one gets the generic Linux type. */
  lemma DetectedArchLookup(args: Args, machine: string)
    requires !args.HardwareRequested() && !args.SoftwareRequested() && args.targetArch == ""
    ensures NormalizeArch(machine) !in ArchTypes ==> ArchPartitionType(args, machine) == GenericLinuxType
    ensures NormalizeArch(machine) in ArchTypes ==> ArchPartitionType(args, machine) == ArchTypes[NormalizeArch(machine)]
  {
  }

  /** "arm" is not a substring of "aarch64". */
  lemma ArmNotInAarch64()
    ensures !Contains("aarch64", "arm")
  {
    if Contains("aarch64", "arm") {
      ContainsChar("aarch64", "arm", 2);
      assert false;
    }
  }

  /** x86_64 and amd64 normalise to x86_64, aarch64 to arm64. */
  lemma Normalizes64BitNames(machine: string)
    ensures Lower(machine) in ["x86_64", "amd64"] ==> NormalizeArch(machine) == "x86_64"
    ensures Lower(machine) == "aarch64" ==> NormalizeArch(machine) == "arm64"
  {
    if Lower(machine) == "aarch64" {
      ContainsAt("aarch64", "aarch64", 0);
    }
  }

  /** i386 to i686 normalise to x86. */
  lemma NormalizesI386Family(machine: string)
    requires Lower(machine) in ["i386", "i486", "i586", "i686"]
    ensures NormalizeArch(machine) == "x86"
  {
    var arch := Lower(machine);
    if Contains("aarch64", arch) {
      ContainsChar("aarch64", arch, 0);
    }
  }

  /** arm* normalises to arm64 when it contains "64", to arm otherwise. */
  lemma NormalizesArmFamily(machine: string)
    requires StartsWith(Lower(machine), "arm")
    ensures NormalizeArch(machine) == (if Contains(Lower(machine), "64") then "arm64" else "arm")
  {
    var arch := Lower(machine);
    assert arch !in ["x86_64", "amd64", "i386", "i486", "i586", "i686"] by {
      assert arch[0] == 'a' && arch[1] == 'r';
    }
    if Contains("aarch64", arch) {
      ContainsPrefix("aarch64", arch, "arm");
      ArmNotInAarch64();
    }
  }

  /** The substring test also sends an empty machine name (what
      `platform.machine()` returns when it cannot tell) and fragments such
      as "64" to the ARM64 type. */
  lemma SubstringArchQuirk(args: Args)
    requires !args.HardwareRequested() && !args.SoftwareRequested() && args.targetArch == ""
    ensures NormalizeArch("") == "arm64" && NormalizeArch("64") == "arm64"
    ensures ArchPartitionType(args, "") == ArchTypes["arm64"]
  {
    assert Lower("64") == "64" by {
      assert Lower("64")[0] == '6' && Lower("64")[1] == '4';
    }
    assert "aarch64"[5..7] == "64";
    ContainsAt("aarch64", "64", 5);
  }

  // ---------------------------------------------------------------------------
  // The sfdisk script
  // ---------------------------------------------------------------------------

  const EfiLine := "size=550MiB, type=U, attrs=RequiredPartition, name=\"EFI System\""
  const MsrLine := "size=16MiB, type=E3C9E316-0B5C-4DB8-817D-F92DF00215AE, name=\"Microsoft reserved\""
  const RecoveryLine := "size=750MiB, type=DE94BBA4-06D1-4D40-A16A-BFD50179D6AC, attrs=RequiredPartition,63, name=\"Windows Recovery\""
  const BootLine := "size=1GiB, type=L, name=\"Linux boot\""

  function WindowsLine(windows: string): string {
    "size=" + windows + ", type=EBD0A0A2-B9E5-4433-87C0-68B6B72699C7, name=\"Windows\""
  }

  function RootLine(systemType: string): string {
    "size=+, type=" + systemType + ", name=\"Linux root\""
  }

  /** The lines the Windows branch adds: the Windows group, then the Linux
      boot and root partitions. */
  function DualBootLines(windows: string, systemType: string): seq<string> {
    ["# Windows partitions", MsrLine, WindowsLine(windows), RecoveryLine,
     "# Linux partitions", BootLine, RootLine(systemType)]
  }

  /** `script_lines` as `prepare_disk` assembles it. */
  function ScriptLines(args: Args, machine: string): seq<string> {
    ["label: gpt"]
    + (if args.overprovision != "" then ["# Overprovisioning: " + args.overprovision] else [])
    + (if args.windows != "" then ["# Dual-boot configuration with Windows"] else [])
    + [EfiLine]
    + (if args.windows != "" then DualBootLines(args.windows, ArchPartitionType(args, machine)) else [])
  }

  /** A script without Windows is the GPT label, the optional comment and
      the EFI line, nothing else (no boot or root partition); a Windows
      script adds the seven dual-boot lines after the EFI line, the Windows
      size copied verbatim. */
  lemma ScriptShape(args: Args, machine: string)
    ensures var comment := if args.overprovision != "" then ["# Overprovisioning: " + args.overprovision] else [];
      (args.windows == "" ==> ScriptLines(args, machine) == ["label: gpt"] + comment + [EfiLine])
      && (args.windows != "" ==>
            ScriptLines(args, machine) ==
              ["label: gpt"] + comment + ["# Dual-boot configuration with Windows", EfiLine]
              + DualBootLines(args.windows, ArchPartitionType(args, machine)))
  {
  }

  /** Overprovisioning is only a comment: with it, the script is the script
      without it plus one comment line after the label. */
  lemma OverprovisionIsComment(args: Args, machine: string)
    requires args.overprovision != ""
    ensures ScriptLines(args, machine) ==
      ["label: gpt", "# Overprovisioning: " + args.overprovision] + ScriptLines(args.(overprovision := ""), machine)[1..]
  {
    var plain := args.(overprovision := "");
    assert ArchPartitionType(plain, machine) == ArchPartitionType(args, machine);
    var rest := (if args.windows != "" then ["# Dual-boot configuration with Windows"] else [])
      + [EfiLine]
      + (if args.windows != "" then DualBootLines(args.windows, ArchPartitionType(args, machine)) else []);
    assert ScriptLines(args, machine) == ["label: gpt", "# Overprovisioning: " + args.overprovision] + rest;
    assert ScriptLines(plain, machine) == ["label: gpt"] + rest;
    assert (["label: gpt"] + rest)[1..] == rest;
  }

  // ---------------------------------------------------------------------------
  // The Windows size check
  // ---------------------------------------------------------------------------

  /** f"{b / 1024**3:.1f}": the quotient is exact in binary floating point
      (a division by a power of two), and `.1f` rounds it half to even. */
  function GibText(b: int): string {
    var a: nat := if b < 0 then -b else b;
    var q := a * 10 / GiB;
    var r := a * 10 % GiB;
    var t: nat := if 2 * r > GiB || (2 * r == GiB && q % 2 == 1) then q + 1 else q;
    (if b < 0 then "-" else "") + NatToString(t / 10) + "." + [DigitChar(t % 10)]
  }

  /** The Windows size, read against the disk size, must be at least 21 GiB. */
  function WindowsCheck(windows: string, diskSize: int): Result<int> {
    match ParseSizeSpec(windows, diskSize)
    case Err(_) => Err(Partitioning("Invalid Windows size specification: " + windows))
    case Ok(b) =>
      if b < MinWindowsSizeGiB * GiB then
        Err(NotEnoughSpace("Windows partition size must be at least 21 GiB, got " + GibText(b) + " GiB"))
      else Ok(b)
  }

  /** A Windows size passes iff it parses to at least 21 * 2^30 bytes; an
      unparsable one is a PartitioningError, a small one NotEnoughSpaceError. */
  lemma WindowsCheckOutcome(windows: string, diskSize: int)
    ensures var parsed := ParseSizeSpec(windows, diskSize);
      (WindowsCheck(windows, diskSize).Ok? <==> parsed.Ok? && parsed.value >= 21 * GiB)
      && (parsed.Err? ==> WindowsCheck(windows, diskSize) == Err(Partitioning("Invalid Windows size specification: " + windows)))
      && (parsed.Ok? && parsed.value < 21 * GiB ==> WindowsCheck(windows, diskSize).error.NotEnoughSpace?)
  {
  }

  // ---------------------------------------------------------------------------
  // prepare_disk
  // ---------------------------------------------------------------------------

  /** The positional role table. */
  function RoleTable(disk: string, windows: bool): PartitionTable {
    if windows then
      map["efi" := PartitionDeviceName(disk, 1), "msr" := PartitionDeviceName(disk, 2),
          "windows" := PartitionDeviceName(disk, 3), "recovery" := PartitionDeviceName(disk, 4),
          "boot" := PartitionDeviceName(disk, 5), "system" := PartitionDeviceName(disk, 6)]
    else
      map["efi" := PartitionDeviceName(disk, 1), "boot" := PartitionDeviceName(disk, 2),
          "system" := PartitionDeviceName(disk, 3)]
  }

  /** The roles, and each role's partition number, with and without Windows;
      different roles get different devices. */
  lemma RoleTableRoles(disk: string, windows: bool)
    ensures var t := RoleTable(disk, windows);
      (windows ==>
         (t.Keys == {"efi", "msr", "windows", "recovery", "boot", "system"}
          && t["efi"] == PartitionDeviceName(disk, 1) && t["boot"] == PartitionDeviceName(disk, 5)
          && t["system"] == PartitionDeviceName(disk, 6)))
      && (!windows ==>
         (t.Keys == {"efi", "boot", "system"}
          && t["efi"] == PartitionDeviceName(disk, 1) && t["boot"] == PartitionDeviceName(disk, 2)
          && t["system"] == PartitionDeviceName(disk, 3)))
      && forall r1, r2 :: r1 in t && r2 in t && r1 != r2 ==> t[r1] != t[r2]
  {
    var t := RoleTable(disk, windows);
    RoleTableNumbers(disk, windows);
    RoleNumbersDistinct(disk, windows);
    forall r1, r2 | r1 in t && r2 in t && r1 != r2
      ensures t[r1] != t[r2]
    {
      DeviceNamesDistinct(disk, RoleNumber(r1, windows), RoleNumber(r2, windows));
    }
  }

  /** The partition number the script gives each role. */
  function RoleNumber(role: string, windows: bool): nat {
    if role == "efi" then 1
    else if windows then
      (if role == "msr" then 2 else if role == "windows" then 3 else if role == "recovery" then 4
       else if role == "boot" then 5 else 6)
    else if role == "boot" then 2 else 3
  }

  /** Each role's device is the partition with the role's number. */
  lemma RoleTableNumbers(disk: string, windows: bool)
    ensures forall r :: r in RoleTable(disk, windows) ==>
      1 <= RoleNumber(r, windows) <= 6 && RoleTable(disk, windows)[r] == PartitionDeviceName(disk, RoleNumber(r, windows))
  {
  }

  /** Different roles have different partition numbers. */
  lemma RoleNumbersDistinct(disk: string, windows: bool)
    ensures forall r1, r2 :: r1 in RoleTable(disk, windows) && r2 in RoleTable(disk, windows) && r1 != r2 ==>
      RoleNumber(r1, windows) != RoleNumber(r2, windows)
  {
  }

  /** `prepare_disk`: wipe, check the Windows size, then partition.  A
      failing wipe becomes a PartitioningError; an OSError from the host
      escapes unchanged. */
  function PrepareDiskStep(env: RunnerEnv, st: RunnerState, disk: string, info: DiskInfo, args: Args): (Result<PartitionTable>, RunnerState) {
    var (w, st1) := RunStep(env, st, ["wipefs", "-a", disk], None, true);
    if w.Err? then
      (if w.error.CalledProcess? then Err(Partitioning("Failed to wipe disk: " + Describe(w.error))) else Err(w.error), st1)
    else if args.windows != "" && WindowsCheck(args.windows, info.sizeBytes).Err? then
      (Err(WindowsCheck(args.windows, info.sizeBytes).error), st1)
    else PartitionStep(env, st1, disk, Join(ScriptLines(args, env.host.machine), "\n"), args.windows != "")
  }

  /** sfdisk with the script on stdin (a failure is a PartitioningError),
      then udev settling. */
  function PartitionStep(env: RunnerEnv, st: RunnerState, disk: string, script: string, windows: bool): (Result<PartitionTable>, RunnerState) {
    var (s, st1) := RunStep(env, st, ["sfdisk", disk], Some(script), true);
    if s.Err? then
      (if s.error.CalledProcess? then Err(Partitioning("Failed to create partition table: " + Describe(s.error))) else Err(s.error), st1)
    else SettleStep(env, st1, disk, windows)
  }

  /** `udevadm settle`, whose failure is only a warning; then the role table. */
  function SettleStep(env: RunnerEnv, st: RunnerState, disk: string, windows: bool): (Result<PartitionTable>, RunnerState) {
    var (u, st1) := RunStep(env, st, ["udevadm", "settle"], None, true);
    if u.Err? && !u.error.CalledProcess? then (Err(u.error), st1)
    else (Ok(RoleTable(disk, windows)), st1)
  }

  /** `script_lines`, appended line by line. */
  method BuildScript(args: Args, machine: string) returns (lines: seq<string>)
    ensures lines == ScriptLines(args, machine)
  {
    lines := ["label: gpt"];
    if args.overprovision != "" {
      lines := lines + ["# Overprovisioning: " + args.overprovision];
    }
    if args.windows != "" {
      lines := lines + ["# Dual-boot configuration with Windows"];
    }
    lines := lines + [EfiLine];
    if args.windows != "" {
      lines := lines + ["# Windows partitions"];
      lines := lines + [MsrLine];
      lines := lines + [WindowsLine(args.windows)];
      lines := lines + [RecoveryLine];
      var systemType := ArchPartitionType(args, machine);
      lines := lines + ["# Linux partitions"];
      lines := lines + [BootLine];
      lines := lines + [RootLine(systemType)];
    }
  }

  /** The `partitions` dictionary, filled role by role. */
  method FillRoleTable(disk: string, windows: bool) returns (partitions: PartitionTable)
    ensures partitions == RoleTable(disk, windows)
  {
    partitions := map[];
    if windows {
      partitions := partitions["efi" := PartitionDeviceName(disk, 1)];
      partitions := partitions["msr" := PartitionDeviceName(disk, 2)];
      partitions := partitions["windows" := PartitionDeviceName(disk, 3)];
      partitions := partitions["recovery" := PartitionDeviceName(disk, 4)];
      partitions := partitions["boot" := PartitionDeviceName(disk, 5)];
      partitions := partitions["system" := PartitionDeviceName(disk, 6)];
    } else {
      partitions := partitions["efi" := PartitionDeviceName(disk, 1)];
      partitions := partitions["boot" := PartitionDeviceName(disk, 2)];
      partitions := partitions["system" := PartitionDeviceName(disk, 3)];
    }
  }

  method PrepareDisk(disk: string, info: DiskInfo, args: Args, runner: CommandRunner) returns (r: Result<PartitionTable>)
    modifies runner
    ensures runner.Env() == old(runner.Env())
    ensures (r, runner.State()) == PrepareDiskStep(old(runner.Env()), old(runner.State()), disk, info, args)
  {
    var wiped := runner.Run(["wipefs", "-a", disk], None, true);
    if wiped.Err? {
      if wiped.error.CalledProcess? {
        return Err(Partitioning("Failed to wipe disk: " + Describe(wiped.error)));
      }
      return Err(wiped.error);
    }
    if args.windows != "" {
      var check := WindowsCheck(args.windows, info.sizeBytes);
      if check.Err? {
        return Err(check.error);
      }
    }
    var lines := BuildScript(args, runner.host.machine);
    r := Partition(disk, Join(lines, "\n"), args.windows != "", runner);
  }

  /** The commands after the script is built. */
  method Partition(disk: string, script: string, windows: bool, runner: CommandRunner) returns (r: Result<PartitionTable>)
    modifies runner
    ensures runner.Env() == old(runner.Env())
    ensures (r, runner.State()) == PartitionStep(old(runner.Env()), old(runner.State()), disk, script, windows)
  {
    var created := runner.Run(["sfdisk", disk], Some(script), true);
    if created.Err? {
      if created.error.CalledProcess? {
        return Err(Partitioning("Failed to create partition table: " + Describe(created.error)));
      }
      return Err(created.error);
    }
    var settled := runner.Run(["udevadm", "settle"], None, true);
    if settled.Err? && !settled.error.CalledProcess? {
      return Err(settled.error);
    }
    var partitions := FillRoleTable(disk, windows);
    r := Ok(partitions);
  }

  // ---------------------------------------------------------------------------
  // Properties of prepare_disk
  // ---------------------------------------------------------------------------

  /** On success the log grew by exactly wipefs, sfdisk and udevadm settle,
      in that order. */
  lemma PrepareDiskCommandOrder(env: RunnerEnv, st: RunnerState, disk: string, info: DiskInfo, args: Args)
    requires PrepareDiskStep(env, st, disk, info, args).0.Ok?
    ensures var sim := env.mode == Simulate;
      PrepareDiskStep(env, st, disk, info, args).1.commandsRun == st.commandsRun
        + [CmdRecord(["wipefs", "-a", disk], sim), CmdRecord(["sfdisk", disk], sim), CmdRecord(["udevadm", "settle"], sim)]
  {
    var sim := env.mode == Simulate;
    var wipe := ["wipefs", "-a", disk];
    var script := Join(ScriptLines(args, env.host.machine), "\n");
    var st1 := RunStep(env, st, wipe, None, true).1;
    PrepareDiskContinues(env, st, disk, info, args);
    RunLogsOnce(env, st, wipe, None, true);
    PartitionCommandOrder(env, st1, disk, script, args.windows != "");
    AppendThenPair(st.commandsRun, st1.commandsRun, PrepareDiskStep(env, st, disk, info, args).1.commandsRun,
      CmdRecord(wipe, sim), CmdRecord(["sfdisk", disk], sim), CmdRecord(["udevadm", "settle"], sim));
  }

  /** A successful `prepare_disk` is the partitioning step after the wipe. */
  lemma PrepareDiskContinues(env: RunnerEnv, st: RunnerState, disk: string, info: DiskInfo, args: Args)
    requires PrepareDiskStep(env, st, disk, info, args).0.Ok?
    ensures PrepareDiskStep(env, st, disk, info, args)
      == PartitionStep(env, RunStep(env, st, ["wipefs", "-a", disk], None, true).1, disk,
                       Join(ScriptLines(args, env.host.machine), "\n"), args.windows != "")
  {
  }

  /** One record and then two more are three records. */
  lemma AppendThenPair(l0: seq<CmdRecord>, l1: seq<CmdRecord>, l2: seq<CmdRecord>, a: CmdRecord, b: CmdRecord, c: CmdRecord)
    requires l1 == l0 + [a] && l2 == l1 + [b, c]
    ensures l2 == l0 + [a, b, c]
  {
  }

  lemma PartitionCommandOrder(env: RunnerEnv, st: RunnerState, disk: string, script: string, windows: bool)
    requires PartitionStep(env, st, disk, script, windows).0.Ok?
    ensures var sim := env.mode == Simulate;
      PartitionStep(env, st, disk, script, windows).1.commandsRun == st.commandsRun
        + [CmdRecord(["sfdisk", disk], sim), CmdRecord(["udevadm", "settle"], sim)]
  {
    var sim := env.mode == Simulate;
    var st1 := RunStep(env, st, ["sfdisk", disk], Some(script), true).1;
    PartitionContinues(env, st, disk, script, windows);
    RunLogsOnce(env, st, ["sfdisk", disk], Some(script), true);
    RunLogsOnce(env, st1, ["udevadm", "settle"], None, true);
    AppendPair(st.commandsRun, CmdRecord(["sfdisk", disk], sim), CmdRecord(["udevadm", "settle"], sim));
  }

  /** A successful partitioning step is the settle step after sfdisk. */
  lemma PartitionContinues(env: RunnerEnv, st: RunnerState, disk: string, script: string, windows: bool)
    requires PartitionStep(env, st, disk, script, windows).0.Ok?
    ensures PartitionStep(env, st, disk, script, windows)
      == SettleStep(env, RunStep(env, st, ["sfdisk", disk], Some(script), true).1, disk, windows)
  {
  }

  /** A bad Windows size is reported after the disk has been wiped: wipefs
      is the only command issued. */
  lemma WindowsRejectedAfterWipe(env: RunnerEnv, st: RunnerState, disk: string, info: DiskInfo, args: Args)
    requires args.windows != "" && WindowsCheck(args.windows, info.sizeBytes).Err?
    requires RunStep(env, st, ["wipefs", "-a", disk], None, true).0.Ok?
    ensures var (r, st') := PrepareDiskStep(env, st, disk, info, args);
      r == Err(WindowsCheck(args.windows, info.sizeBytes).error)
      && (r.error.Partitioning? || r.error.NotEnoughSpace?)
      && st'.commandsRun == st.commandsRun + [CmdRecord(["wipefs", "-a", disk], env.mode == Simulate)]
  {
    RunLogsOnce(env, st, ["wipefs", "-a", disk], None, true);
  }

  /** Every error other than a host OSError is a PartitioningError or a
      NotEnoughSpaceError. */
  lemma PrepareDiskErrors(env: RunnerEnv, st: RunnerState, disk: string, info: DiskInfo, args: Args)
    requires var r := PrepareDiskStep(env, st, disk, info, args).0; r.Err? && !r.error.HostFailure?
    ensures var r := PrepareDiskStep(env, st, disk, info, args).0; r.error.Partitioning? || r.error.NotEnoughSpace?
  {
    var (w, st1) := RunStep(env, st, ["wipefs", "-a", disk], None, true);
    if w.Err? {
      BasenameOfName("wipefs");
      RunErrors(env, st, ["wipefs", "-a", disk], None, true);
    } else if args.windows != "" && WindowsCheck(args.windows, info.sizeBytes).Err? {
      WindowsCheckErrors(args.windows, info.sizeBytes);
    } else {
      PartitionErrors(env, st1, disk, Join(ScriptLines(args, env.host.machine), "\n"), args.windows != "");
    }
  }

  lemma WindowsCheckErrors(windows: string, diskSize: int)
    ensures var c := WindowsCheck(windows, diskSize); c.Err? ==> c.error.Partitioning? || c.error.NotEnoughSpace?
  {
  }

  lemma PartitionErrors(env: RunnerEnv, st: RunnerState, disk: string, script: string, windows: bool)
    requires var r := PartitionStep(env, st, disk, script, windows).0; r.Err? && !r.error.HostFailure?
    ensures PartitionStep(env, st, disk, script, windows).0.error.Partitioning?
  {
    BasenameOfName("sfdisk");
    RunErrors(env, st, ["sfdisk", disk], Some(script), true);
    var st1 := RunStep(env, st, ["sfdisk", disk], Some(script), true).1;
    SettleErrors(env, st1, disk, windows);
  }

  /** `udevadm settle` fails the stage only with an OSError. */
  lemma SettleErrors(env: RunnerEnv, st: RunnerState, disk: string, windows: bool)
    ensures var r := SettleStep(env, st, disk, windows).0; r.Err? ==> r.error.HostFailure?
  {
    BasenameOfName("udevadm");
    RunErrors(env, st, ["udevadm", "settle"], None, true);
  }

  /** A failing `udevadm settle` (non-zero exit) does not stop partitioning. */
  lemma SettleFailureIsNonFatal(env: RunnerEnv, st: RunnerState, disk: string, windows: bool)
    requires var u := RunStep(env, st, ["udevadm", "settle"], None, true).0; u.Err? && u.error.CalledProcess?
    ensures SettleStep(env, st, disk, windows).0 == Ok(RoleTable(disk, windows))
  {
  }

  /** In SIMULATE mode partitioning succeeds unless the Windows size is bad. */
  lemma SimulatedPrepareSucceeds(env: RunnerEnv, st: RunnerState, disk: string, info: DiskInfo, args: Args)
    requires env.mode == Simulate
    requires args.windows == "" || WindowsCheck(args.windows, info.sizeBytes).Ok?
    ensures PrepareDiskStep(env, st, disk, info, args).0 == Ok(RoleTable(disk, args.windows != ""))
  {
    BasenameOfName("wipefs");
    SimulatedRunSucceeds(env, st, ["wipefs", "-a", disk], None, true);
    var st1 := RunStep(env, st, ["wipefs", "-a", disk], None, true).1;
    SimulatedPartitionSucceeds(env, st1, disk, Join(ScriptLines(args, env.host.machine), "\n"), args.windows != "");
  }

  lemma SimulatedPartitionSucceeds(env: RunnerEnv, st: RunnerState, disk: string, script: string, windows: bool)
    requires env.mode == Simulate
    ensures PartitionStep(env, st, disk, script, windows).0 == Ok(RoleTable(disk, windows))
  {
    BasenameOfName("sfdisk");
    BasenameOfName("udevadm");
    SimulatedRunSucceeds(env, st, ["sfdisk", disk], Some(script), true);
    var st1 := RunStep(env, st, ["sfdisk", disk], Some(script), true).1;
    SimulatedRunSucceeds(env, st1, ["udevadm", "settle"], None, true);
  }
}
