/** architect/core/mount.py: the mount-option table and the order in which
    the target tree is mounted.

    Creating the mount-point directories (`Path.mkdir`) touches only the
    host's filesystem and issues no command; it is not part of this model. */
module Mount {
  import opened Text
  import opened Errors
  import opened Types
  import opened Command

  // ---------------------------------------------------------------------------
  // determine_mount_options
  // ---------------------------------------------------------------------------

  /** The twelve mount points the table covers, in the source's order. */
  const MountPoints: seq<string> := ["/", "/boot", "/boot/efi", "/home", "/opt", "/root", "/srv", "/tmp", "/usr", "/var", "/var/log", "/var/tmp"]

  /** The baseline options, restrictive even without `--hardened`. */
  const DefaultTable: MountOptions := map[
    "/" := "defaults,noatime",
    "/boot" := "defaults,nodev,nosuid",
    "/boot/efi" := "umask=0077,nodev,nosuid,noexec",
    "/home" := "defaults,nodev,nosuid",
    "/opt" := "defaults,nodev,nosuid",
    "/root" := "defaults,nodev,nosuid",
    "/srv" := "defaults,nodev,nosuid",
    "/tmp" := "defaults,nodev,nosuid,noexec",
    "/usr" := "defaults,nodev",
    "/var" := "defaults,nosuid,nodev",
    "/var/log" := "defaults,nodev,nosuid,noexec",
    "/var/tmp" := "defaults,nodev,nosuid,noexec"]

  /** The two entries `--hardened` replaces. */
  const HardenedBoot := "defaults,nodev,nosuid,noauto"
  const HardenedVar := "defaults,nosuid,nodev,noexec"

  /** The table once the hardening update has (or has not) been applied. */
  function BaseOptions(hardened: bool): MountOptions {
    if hardened then DefaultTable["/boot" := HardenedBoot]["/var" := HardenedVar] else DefaultTable
  }

  /** The mount points that get `,discard` on a TRIM-capable SSD. */
  const DiscardPoints: seq<string> := ["/boot", "/boot/efi"]

  predicate WantsDiscard(info: DiskInfo) {
    !info.rotational && info.trimSupported
  }

  const HddBtrfsOptions := "autodefrag,compress-force=zstd:2"
  const SsdBtrfsOptions := "ssd,compress-force=zstd:1"
  const AsyncDiscard := "discard=async"

  /** The filesystem-wide btrfs options: the explicit `--btrfs-options`, or a
      default chosen by the kind of disk. */
  function BtrfsOptions(info: DiskInfo, explicit: string): string {
    if explicit != "" then explicit
    else if info.rotational then HddBtrfsOptions
    else if info.nvme && info.cpuCount <= 4 then (if info.trimSupported then AsyncDiscard else "")
    else if info.trimSupported then SsdBtrfsOptions + "," + AsyncDiscard
    else SsdBtrfsOptions
  }

  function DiscardSuffix(mountpoint: string, info: DiskInfo): string {
    if mountpoint in DiscardPoints && WantsDiscard(info) then ",discard" else ""
  }

  function BtrfsSuffix(mountpoint: string, fsOptions: string): string {
    if mountpoint == "/" && fsOptions != "" then "," + fsOptions else ""
  }

  /** The disk-dependent part of the table: `,discard` where it applies,
      then the btrfs options on `/`, entry by entry. */
  function WithDiskOptions(base: MountOptions, info: DiskInfo, fsOptions: string): (r: MountOptions)
    ensures r.Keys == base.Keys
  {
    map k | k in base :: base[k] + DiscardSuffix(k, info) + BtrfsSuffix(k, fsOptions)
  }

  /** The table `determine_mount_options` returns. */
  function MountOptionsFor(info: DiskInfo, args: Args): (r: MountOptions)
    ensures forall k :: k in r <==> k in MountPoints
  {
    WithDiskOptions(BaseOptions(args.hardened), info, BtrfsOptions(info, args.btrfsOptions))
  }

  /** `determine_mount_options`: start from the default table and apply the
      hardening update, then the disk-dependent options. */
  method DetermineMountOptions(info: DiskInfo, args: Args) returns (options: MountOptions)
    ensures options == MountOptionsFor(info, args)
  {
    options := DefaultTable;
    if args.hardened {
      options := options["/boot" := HardenedBoot]["/var" := HardenedVar];
    }
    BaseHasKeys(args.hardened);
    options := AddDiskOptions(options, info, args);
  }

  /** The entries the disk-dependent options touch exist in either table. */
  lemma BaseHasKeys(hardened: bool)
    ensures "/" in BaseOptions(hardened) && "/boot" in BaseOptions(hardened) && "/boot/efi" in BaseOptions(hardened) && "/var" in BaseOptions(hardened)
  {
  }

  /** The second half of `determine_mount_options`: append `,discard` in a
      loop, choose the btrfs options, then extend `/`. */
  method AddDiskOptions(base: MountOptions, info: DiskInfo, args: Args) returns (options: MountOptions)
    requires "/" in base && "/boot" in base && "/boot/efi" in base
    ensures options == WithDiskOptions(base, info, BtrfsOptions(info, args.btrfsOptions))
  {
    options := AppendDiscard(base, info);
    assert "/" !in DiscardPoints;
    var fsOptions := "";
    if args.btrfsOptions != "" {
      fsOptions := args.btrfsOptions;
    } else if info.rotational {
      fsOptions := HddBtrfsOptions;
    } else if info.nvme && info.cpuCount <= 4 {
      fsOptions := "";
      if info.trimSupported {
        fsOptions := AsyncDiscard;
      }
    } else {
      fsOptions := SsdBtrfsOptions;
      if info.trimSupported {
        fsOptions := fsOptions + "," + AsyncDiscard;
      }
    }
    assert fsOptions == BtrfsOptions(info, args.btrfsOptions);
    ExtendRoot(options, base, info, fsOptions);
    if fsOptions != "" {
      options := options["/" := options["/"] + "," + fsOptions];
    }
  }

  /** Extending `/` after the discard loop gives the entry-by-entry table. */
  lemma ExtendRoot(options: MountOptions, base: MountOptions, info: DiskInfo, fsOptions: string)
    requires "/" in base && options.Keys == base.Keys
    requires forall k :: k in options ==> options[k] == base[k] + DiscardSuffix(k, info)
    ensures (if fsOptions != "" then options["/" := options["/"] + "," + fsOptions] else options)
      == WithDiskOptions(base, info, fsOptions)
  {
    var r := if fsOptions != "" then options["/" := options["/"] + "," + fsOptions] else options;
    assert "/" !in DiscardPoints;
    forall k | k in r
      ensures r[k] == WithDiskOptions(base, info, fsOptions)[k]
    {
      if k == "/" {
        assert DiscardSuffix(k, info) == "";
      } else {
        assert BtrfsSuffix(k, fsOptions) == "";
      }
    }
  }

  /** The `,discard` loop over /boot and /boot/efi, run on a TRIM-capable SSD. */
  method AppendDiscard(base: MountOptions, info: DiskInfo) returns (options: MountOptions)
    requires "/boot" in base && "/boot/efi" in base
    ensures options.Keys == base.Keys
    ensures forall k :: k in options ==> options[k] == base[k] + DiscardSuffix(k, info)
  {
    options := base;
    if !info.rotational && info.trimSupported {
      var points := DiscardPoints;
      for i := 0 to |points|
        invariant options.Keys == base.Keys
        invariant forall k :: k in options ==> options[k] == base[k] + (if k in points[..i] then ",discard" else "")
      {
        options := options[points[i] := options[points[i]] + ",discard"];
      }
      assert points[..|points|] == DiscardPoints;
    }
  }

  // ---------------------------------------------------------------------------
  // Properties of determine_mount_options
  // ---------------------------------------------------------------------------

  /** Hardening rewrites `/boot` and `/var` and leaves every other entry as
      it is. */
  lemma HardeningTouchesBootAndVarOnly(info: DiskInfo, args: Args)
    ensures var soft := MountOptionsFor(info, args.(hardened := false));
      var hard := MountOptionsFor(info, args.(hardened := true));
      forall k :: k in hard && k != "/boot" && k != "/var" ==> hard[k] == soft[k]
  {
  }

  /** The two hardened entries keep every default option and add one:
      `noauto` on /boot, `noexec` on /var. */
  lemma HardenedEntriesExtendDefaults(info: DiskInfo, args: Args)
    ensures var soft := MountOptionsFor(info, args.(hardened := false));
      var hard := MountOptionsFor(info, args.(hardened := true));
      hard["/boot"] == DefaultTable["/boot"] + ",noauto" + DiscardSuffix("/boot", info)
      && soft["/boot"] == DefaultTable["/boot"] + DiscardSuffix("/boot", info)
      && hard["/var"] == DefaultTable["/var"] + ",noexec"
      && soft["/var"] == DefaultTable["/var"]
  {
    BaseHasKeys(false);
    BaseHasKeys(true);
    var fs := BtrfsOptions(info, args.btrfsOptions);
    EntryOffRoot(BaseOptions(true), info, fs, "/boot");
    EntryOffRoot(BaseOptions(false), info, fs, "/boot");
    EntryOffRoot(BaseOptions(true), info, fs, "/var");
    EntryOffRoot(BaseOptions(false), info, fs, "/var");
    VarHasNoDiscard(info);
    HardenedBases();
  }

  lemma VarHasNoDiscard(info: DiskInfo)
    ensures DiscardSuffix("/var", info) == ""
  {
    assert "/var" !in DiscardPoints;
  }

  /** The hardened /boot and /var entries extend the defaults. */
  lemma HardenedBases()
    ensures BaseOptions(true)["/boot"] == DefaultTable["/boot"] + ",noauto"
    ensures BaseOptions(false)["/boot"] == DefaultTable["/boot"]
    ensures BaseOptions(true)["/var"] == DefaultTable["/var"] + ",noexec"
    ensures BaseOptions(false)["/var"] == DefaultTable["/var"]
  {
    assert HardenedBoot == DefaultTable["/boot"] + ",noauto";
    assert HardenedVar == DefaultTable["/var"] + ",noexec";
  }

  /** Off the root, an entry is its base entry with the discard suffix. */
  lemma EntryOffRoot(base: MountOptions, info: DiskInfo, fsOptions: string, k: string)
    requires k in base && k != "/"
    ensures WithDiskOptions(base, info, fsOptions)[k] == base[k] + DiscardSuffix(k, info)
  {
    assert BtrfsSuffix(k, fsOptions) == "";
  }

  /** `,discard` is appended to an entry other than `/` exactly when that
      entry is /boot or /boot/efi and the disk is a TRIM-capable SSD;
      otherwise the entry is the base table's. */
  lemma DiscardPlacement(info: DiskInfo, args: Args, k: string)
    requires k in MountPoints && k != "/"
    ensures var r := MountOptionsFor(info, args);
      var base := BaseOptions(args.hardened)[k];
      (r[k] == base + ",discard" <==> k in DiscardPoints && WantsDiscard(info))
      && (r[k] == base || r[k] == base + ",discard")
  {
  }

  /** The btrfs options reach no entry but `/`. */
  lemma BtrfsOptionsOnRootOnly(info: DiskInfo, args: Args, explicit: string)
    ensures var r := MountOptionsFor(info, args);
      var r' := MountOptionsFor(info, args.(btrfsOptions := explicit));
      forall k :: k in r && k != "/" ==> r[k] == r'[k]
  {
    BaseHasKeys(args.hardened);
    DiskOptionsOnRoot(BaseOptions(args.hardened), info, BtrfsOptions(info, args.btrfsOptions), BtrfsOptions(info, explicit));
  }

  /** `/` is the default entry, extended by a comma and the btrfs options
      exactly when these are non-empty. */
  lemma RootEntry(info: DiskInfo, args: Args)
    ensures var r := MountOptionsFor(info, args);
      var fsOptions := BtrfsOptions(info, args.btrfsOptions);
      (r["/"] == DefaultTable["/"] <==> fsOptions == "")
      && (fsOptions != "" ==> r["/"] == DefaultTable["/"] + "," + fsOptions)
  {
    var fsOptions := BtrfsOptions(info, args.btrfsOptions);
    RootIsSuffixed(info, args);
    SuffixedRoot(DefaultTable["/"], fsOptions);
  }

  lemma RootIsSuffixed(info: DiskInfo, args: Args)
    ensures MountOptionsFor(info, args)["/"] == DefaultTable["/"] + BtrfsSuffix("/", BtrfsOptions(info, args.btrfsOptions))
  {
    BaseHasKeys(args.hardened);
    DiskOptionsOnRoot(BaseOptions(args.hardened), info, BtrfsOptions(info, args.btrfsOptions), "");
    BaseRoot(args.hardened);
  }

  lemma BaseRoot(hardened: bool)
    ensures "/" in BaseOptions(hardened) && BaseOptions(hardened)["/"] == DefaultTable["/"]
  {
  }

  lemma SuffixedRoot(entry: string, fsOptions: string)
    ensures entry + BtrfsSuffix("/", fsOptions) == entry <==> fsOptions == ""
    ensures fsOptions != "" ==> entry + BtrfsSuffix("/", fsOptions) == entry + "," + fsOptions
  {
    if fsOptions != "" {
      assert |entry + BtrfsSuffix("/", fsOptions)| > |entry|;
    }
  }

  lemma DiskOptionsOnRoot(base: MountOptions, info: DiskInfo, fsOptions: string, fsOptions': string)
    requires "/" in base
    ensures forall k :: k in base && k != "/" ==> WithDiskOptions(base, info, fsOptions)[k] == WithDiskOptions(base, info, fsOptions')[k]
    ensures WithDiskOptions(base, info, fsOptions)["/"] == base["/"] + BtrfsSuffix("/", fsOptions)
  {
    assert "/" !in DiscardPoints;
  }

  /** The btrfs policy: explicit options are taken verbatim; otherwise a
      spinning disk gets autodefrag with zstd:2, a small NVMe system gets no
      compression, any other SSD gets `ssd` with zstd:1; and on any SSD the
      options end in `discard=async` exactly when TRIM is supported. */
  lemma BtrfsPolicy(info: DiskInfo, explicit: string)
    ensures var fs := BtrfsOptions(info, explicit);
      (explicit != "" ==> fs == explicit)
      && (explicit == "" && info.rotational ==> fs == HddBtrfsOptions)
      && (explicit == "" && !info.rotational && info.nvme && info.cpuCount <= 4 ==> fs == "" || fs == AsyncDiscard)
      && (explicit == "" && !info.rotational && !(info.nvme && info.cpuCount <= 4) ==> StartsWith(fs, SsdBtrfsOptions))
      && (explicit == "" && !info.rotational ==> (EndsWith(fs, AsyncDiscard) <==> info.trimSupported))
  {
    if explicit == "" && !info.rotational {
      var fs := BtrfsOptions(info, explicit);
      if info.nvme && info.cpuCount <= 4 {
        assert !info.trimSupported ==> |fs| < |AsyncDiscard|;
      } else if info.trimSupported {
        assert fs[..|SsdBtrfsOptions|] == SsdBtrfsOptions;
        assert fs[|fs| - |AsyncDiscard|..] == AsyncDiscard;
      } else {
        assert fs[|fs| - |AsyncDiscard|..][0] != AsyncDiscard[0];
      }
    }
  }

  /** No entry the planner produces is the bare word `defaults`, so every
      subvolume mount spells out its options after the subvolume name. */
  lemma NoBareDefaults(info: DiskInfo, args: Args)
    ensures var r := MountOptionsFor(info, args);
      forall k :: k in r ==> r[k] != "defaults"
  {
    var base := BaseOptions(args.hardened);
    BaseEntriesLong(args.hardened);
    var r := MountOptionsFor(info, args);
    assert forall k :: k in r ==> |r[k]| >= |base[k]|;
  }

  lemma BaseEntriesLong(hardened: bool)
    ensures forall k :: k in BaseOptions(hardened) ==> |BaseOptions(hardened)[k]| > |"defaults"|
  {
  }

  // ---------------------------------------------------------------------------
  // mount_filesystems
  // ---------------------------------------------------------------------------

  /** One btrfs subvolume and the mount point it is mounted on. */
  datatype SubvolMount = SubvolMount(subvol: string, mountpoint: string)

  /** The subvolumes mounted directly under the target, in order. */
  const FirstLevel: seq<SubvolMount> := [
    SubvolMount("@home", "/home"), SubvolMount("@opt", "/opt"), SubvolMount("@root", "/root"),
    SubvolMount("@srv", "/srv"), SubvolMount("@tmp", "/tmp"), SubvolMount("@usr", "/usr"),
    SubvolMount("@var", "/var")]

  /** The subvolumes mounted under /var once @var is in place. */
  const SecondLevel: seq<SubvolMount> := [SubvolMount("@var_log", "/var/log"), SubvolMount("@var_tmp", "/var/tmp")]

  const RootFailure := "Failed to mount root subvolume: "
  const BootFailure := "Failed to mount boot partition: "
  const EfiFailure := "Failed to mount EFI partition: "

  /** The `-o` argument of a subvolume mount: the subvolume, then the
      options unless they are exactly `defaults`. */
  function SubvolOptions(subvol: string, opts: string): string {
    if opts != "defaults" then "subvol=" + (subvol + ("," + opts)) else "subvol=" + subvol
  }

  /** The `-o` argument always names the subvolume first; it is nothing
      more exactly when the options are `defaults`, and otherwise the
      options follow after a comma. */
  lemma SubvolOptionsShape(subvol: string, opts: string)
    ensures var o := SubvolOptions(subvol, opts);
      StartsWith(o, "subvol=" + subvol)
      && (o == "subvol=" + subvol <==> opts == "defaults")
      && (opts != "defaults" ==> o == "subvol=" + subvol + "," + opts)
  {
    var o := SubvolOptions(subvol, opts);
    assert o[..|"subvol=" + subvol|] == "subvol=" + subvol;
  }

  function MountCommand(opts: string, device: string, path: string): seq<string> {
    ["mount", "-o", opts, device, path]
  }

  /** Where a subvolume is mounted: its mount point, made relative, under the target. */
  function SubvolPath(target: string, m: SubvolMount): string {
    PathJoin(target, LStripChar(m.mountpoint, '/'))
  }

  function SubvolFailure(m: SubvolMount): string {
    "Failed to mount " + (m.subvol + (" to " + (m.mountpoint + ": ")))
  }

  /** One checked `mount`: a non-zero exit becomes a MountError carrying
      `failure`; an OSError passes through. */
  function MountStep(env: RunnerEnv, st: RunnerState, cmd: seq<string>, failure: string): (Result<()>, RunnerState) {
    var (r, st1) := RunStep(env, st, cmd, None, true);
    if r.Ok? then (Ok(()), st1)
    else if r.error.CalledProcess? then (Err(Mount(failure + Describe(r.error))), st1)
    else (Err(r.error), st1)
  }

  /** Mounting the system partition's subvolumes one after the other,
      stopping at the first failure. */
  function SubvolsStep(env: RunnerEnv, st: RunnerState, partitions: PartitionTable, options: MountOptions, target: string, mounts: seq<SubvolMount>): (Result<()>, RunnerState)
    decreases |mounts|
  {
    if mounts == [] then (Ok(()), st)
    else
      var (prev, st1) := SubvolsStep(env, st, partitions, options, target, mounts[..|mounts| - 1]);
      if prev.Err? then (prev, st1)
      else
        var m := mounts[|mounts| - 1];
        if m.mountpoint !in options then (Err(KeyMissing(m.mountpoint)), st1)
        else if "system" !in partitions then (Err(KeyMissing("system")), st1)
        else MountStep(env, st1, MountCommand(SubvolOptions(m.subvol, options[m.mountpoint]), partitions["system"], SubvolPath(target, m)), SubvolFailure(m))
  }

  function BootPath(target: string): string {
    PathJoin(target, "boot")
  }

  function EfiPath(target: string): string {
    PathJoin(BootPath(target), "efi")
  }

  /** Subvolume @ of the system partition on the target itself. */
  function RootStep(env: RunnerEnv, st: RunnerState, partitions: PartitionTable, options: MountOptions, target: string): (Result<()>, RunnerState) {
    if "/" !in options then (Err(KeyMissing("/")), st)
    else if "system" !in partitions then (Err(KeyMissing("system")), st)
    else MountStep(env, st, MountCommand(SubvolOptions("@", options["/"]), partitions["system"], target), RootFailure)
  }

  /** The boot partition on target/boot, then the EFI partition on target/boot/efi. */
  function BootStep(env: RunnerEnv, st: RunnerState, partitions: PartitionTable, options: MountOptions, target: string): (Result<()>, RunnerState) {
    if "/boot" !in options then (Err(KeyMissing("/boot")), st)
    else if "boot" !in partitions then (Err(KeyMissing("boot")), st)
    else
      var (b, st1) := MountStep(env, st, MountCommand(options["/boot"], partitions["boot"], BootPath(target)), BootFailure);
      if b.Err? then (b, st1)
      else if "/boot/efi" !in options then (Err(KeyMissing("/boot/efi")), st1)
      else if "efi" !in partitions then (Err(KeyMissing("efi")), st1)
      else MountStep(env, st1, MountCommand(options["/boot/efi"], partitions["efi"], EfiPath(target)), EfiFailure)
  }

  /** The whole sequence for given subvolume lists: root, boot, EFI, the
      first level, the second level; no earlier mount is undone on failure. */
  function MountAllStep(env: RunnerEnv, st: RunnerState, partitions: PartitionTable, options: MountOptions, target: string, first: seq<SubvolMount>, second: seq<SubvolMount>): (Result<()>, RunnerState) {
    var (a, st1) := RootStep(env, st, partitions, options, target);
    if a.Err? then (a, st1)
    else
      var (b, st2) := BootStep(env, st1, partitions, options, target);
      if b.Err? then (b, st2)
      else
        var (c, st3) := SubvolsStep(env, st2, partitions, options, target, first);
        if c.Err? then (c, st3)
        else SubvolsStep(env, st3, partitions, options, target, second)
  }

  /** `mount_filesystems` */
  function MountFilesystemsStep(env: RunnerEnv, st: RunnerState, partitions: PartitionTable, options: MountOptions, args: Args): (Result<()>, RunnerState) {
    MountAllStep(env, st, partitions, options, args.target, FirstLevel, SecondLevel)
  }

  method MountFilesystems(partitions: PartitionTable, options: MountOptions, args: Args, runner: CommandRunner) returns (r: Result<()>)
    modifies runner
    ensures runner.Env() == old(runner.Env())
    ensures (r, runner.State()) == MountFilesystemsStep(old(runner.Env()), old(runner.State()), partitions, options, args)
  {
    var target := args.target;
    if "/" !in options {
      return Err(KeyMissing("/"));
    }
    var rootOptions := SubvolOptions("@", options["/"]);
    if "system" !in partitions {
      return Err(KeyMissing("system"));
    }
    r := MountChecked(MountCommand(rootOptions, partitions["system"], target), RootFailure, runner);
    if r.Err? {
      return;
    }
    if "/boot" !in options {
      return Err(KeyMissing("/boot"));
    }
    if "boot" !in partitions {
      return Err(KeyMissing("boot"));
    }
    r := MountChecked(MountCommand(options["/boot"], partitions["boot"], BootPath(target)), BootFailure, runner);
    if r.Err? {
      return;
    }
    if "/boot/efi" !in options {
      return Err(KeyMissing("/boot/efi"));
    }
    if "efi" !in partitions {
      return Err(KeyMissing("efi"));
    }
    r := MountChecked(MountCommand(options["/boot/efi"], partitions["efi"], EfiPath(target)), EfiFailure, runner);
    if r.Err? {
      return;
    }
    r := MountSubvolumes(partitions, options, target, FirstLevel, runner);
    if r.Err? {
      return;
    }
    r := MountSubvolumes(partitions, options, target, SecondLevel, runner);
  }

  method MountChecked(cmd: seq<string>, failure: string, runner: CommandRunner) returns (r: Result<()>)
    modifies runner
    ensures runner.Env() == old(runner.Env())
    ensures (r, runner.State()) == MountStep(old(runner.Env()), old(runner.State()), cmd, failure)
  {
    var result := runner.Run(cmd, None, true);
    if result.Err? {
      if result.error.CalledProcess? {
        return Err(Mount(failure + Describe(result.error)));
      }
      return Err(result.error);
    }
    r := Ok(());
  }

  /** The loop over a subvolume table. */
  method MountSubvolumes(partitions: PartitionTable, options: MountOptions, target: string, mounts: seq<SubvolMount>, runner: CommandRunner) returns (r: Result<()>)
    modifies runner
    ensures runner.Env() == old(runner.Env())
    ensures (r, runner.State()) == SubvolsStep(old(runner.Env()), old(runner.State()), partitions, options, target, mounts)
  {
    var i := 0;
    while i < |mounts|
      invariant 0 <= i <= |mounts|
      invariant runner.Env() == old(runner.Env())
      invariant (Ok(()), runner.State()) == SubvolsStep(old(runner.Env()), old(runner.State()), partitions, options, target, mounts[..i])
    {
      var m := mounts[i];
      assert mounts[..i + 1][..i] == mounts[..i];
      assert mounts[..i + 1][i] == m;
      if m.mountpoint !in options {
        r := Err(KeyMissing(m.mountpoint));
      } else if "system" !in partitions {
        r := Err(KeyMissing("system"));
      } else {
        r := MountChecked(MountCommand(SubvolOptions(m.subvol, options[m.mountpoint]), partitions["system"], SubvolPath(target, m)), SubvolFailure(m), runner);
      }
      if r.Err? {
        SubvolErrorPersists(old(runner.Env()), old(runner.State()), partitions, options, target, mounts, i + 1);
        return;
      }
      i := i + 1;
    }
    assert mounts[..|mounts|] == mounts;
    r := Ok(());
  }

  /** Once a subvolume mount has failed, the rest are not attempted. */
  lemma {:induction false} SubvolErrorPersists(env: RunnerEnv, st: RunnerState, partitions: PartitionTable, options: MountOptions, target: string, mounts: seq<SubvolMount>, k: nat)
    requires k <= |mounts|
    requires SubvolsStep(env, st, partitions, options, target, mounts[..k]).0.Err?
    ensures SubvolsStep(env, st, partitions, options, target, mounts) == SubvolsStep(env, st, partitions, options, target, mounts[..k])
    decreases |mounts| - k
  {
    if k < |mounts| {
      assert mounts[..k + 1][..k] == mounts[..k];
      SubvolErrorPersists(env, st, partitions, options, target, mounts, k + 1);
    } else {
      assert mounts[..k] == mounts;
    }
  }

  // ---------------------------------------------------------------------------
  // Properties of mount_filesystems
  // ---------------------------------------------------------------------------

  /** The `mount` records of a subvolume table, in order. */
  function SubvolRecords(partitions: PartitionTable, options: MountOptions, target: string, mounts: seq<SubvolMount>, simulated: bool): (r: seq<CmdRecord>)
    requires "system" in partitions && forall m :: m in mounts ==> m.mountpoint in options
    ensures |r| == |mounts|
    ensures forall i :: 0 <= i < |mounts| ==>
      r[i] == CmdRecord(MountCommand(SubvolOptions(mounts[i].subvol, options[mounts[i].mountpoint]), partitions["system"], SubvolPath(target, mounts[i])), simulated)
  {
    if mounts == [] then []
    else
      var m := mounts[|mounts| - 1];
      SubvolRecords(partitions, options, target, mounts[..|mounts| - 1], simulated)
        + [CmdRecord(MountCommand(SubvolOptions(m.subvol, options[m.mountpoint]), partitions["system"], SubvolPath(target, m)), simulated)]
  }

  /** Whether every key the sequence reads is present. */
  predicate KeysPresent(partitions: PartitionTable, options: MountOptions, first: seq<SubvolMount>, second: seq<SubvolMount>) {
    "system" in partitions && "boot" in partitions && "efi" in partitions
    && "/" in options && "/boot" in options && "/boot/efi" in options
    && (forall m :: m in first ==> m.mountpoint in options)
    && (forall m :: m in second ==> m.mountpoint in options)
  }

  /** The three partition mounts that open the sequence. */
  function TopRecords(partitions: PartitionTable, options: MountOptions, target: string, simulated: bool): seq<CmdRecord>
    requires "system" in partitions && "boot" in partitions && "efi" in partitions
    requires "/" in options && "/boot" in options && "/boot/efi" in options
  {
    [CmdRecord(MountCommand(SubvolOptions("@", options["/"]), partitions["system"], target), simulated),
     CmdRecord(MountCommand(options["/boot"], partitions["boot"], BootPath(target)), simulated),
     CmdRecord(MountCommand(options["/boot/efi"], partitions["efi"], EfiPath(target)), simulated)]
  }

  /** A subvolume loop that finished issued one mount per entry, in order. */
  lemma {:induction false} SubvolsLog(env: RunnerEnv, st: RunnerState, partitions: PartitionTable, options: MountOptions, target: string, mounts: seq<SubvolMount>)
    requires SubvolsStep(env, st, partitions, options, target, mounts).0.Ok?
    ensures "system" in partitions || mounts == []
    ensures forall m :: m in mounts ==> m.mountpoint in options
    ensures "system" in partitions ==>
      SubvolsStep(env, st, partitions, options, target, mounts).1.commandsRun
        == st.commandsRun + SubvolRecords(partitions, options, target, mounts, env.mode == Simulate)
  {
    if mounts != [] {
      var init := mounts[..|mounts| - 1];
      var m := mounts[|mounts| - 1];
      SubvolsLog(env, st, partitions, options, target, init);
      var st1 := SubvolsStep(env, st, partitions, options, target, init).1;
      var cmd := MountCommand(SubvolOptions(m.subvol, options[m.mountpoint]), partitions["system"], SubvolPath(target, m));
      RunLogsOnce(env, st1, cmd, None, true);
      LastOrInit(mounts);
      if "system" in partitions {
        Reassociate(st.commandsRun, SubvolRecords(partitions, options, target, init, env.mode == Simulate), [CmdRecord(cmd, env.mode == Simulate)]);
      }
    }
  }

  /** An element of a non-empty sequence is its last one or one before it. */
  lemma LastOrInit<T>(xs: seq<T>)
    requires xs != []
    ensures forall x :: x in xs ==> x in xs[..|xs| - 1] || x == xs[|xs| - 1]
  {
    assert xs == xs[..|xs| - 1] + [xs[|xs| - 1]];
  }

  /** A successful run mounted root, boot and EFI, then every subvolume of
      the first level, then every one of the second, and issued nothing else. */
  lemma MountAllLog(env: RunnerEnv, st: RunnerState, partitions: PartitionTable, options: MountOptions, target: string, first: seq<SubvolMount>, second: seq<SubvolMount>)
    requires MountAllStep(env, st, partitions, options, target, first, second).0.Ok?
    ensures KeysPresent(partitions, options, first, second)
    ensures var sim := env.mode == Simulate;
      MountAllStep(env, st, partitions, options, target, first, second).1.commandsRun
        == st.commandsRun + TopRecords(partitions, options, target, sim)
           + SubvolRecords(partitions, options, target, first, sim) + SubvolRecords(partitions, options, target, second, sim)
  {
    var sim := env.mode == Simulate;
    AllSucceeded(env, st, partitions, options, target, first, second);
    var st1 := RootStep(env, st, partitions, options, target).1;
    RootLog(env, st, partitions, options, target);
    var st2 := BootStep(env, st1, partitions, options, target).1;
    BootLog(env, st1, partitions, options, target);
    var st3 := SubvolsStep(env, st2, partitions, options, target, first).1;
    SubvolsLog(env, st2, partitions, options, target, first);
    var st4 := SubvolsStep(env, st3, partitions, options, target, second).1;
    SubvolsLog(env, st3, partitions, options, target, second);
    var top := TopRecords(partitions, options, target, sim);
    LogChain(st.commandsRun, st1.commandsRun, st2.commandsRun, st3.commandsRun, st4.commandsRun, top,
      SubvolRecords(partitions, options, target, first, sim), SubvolRecords(partitions, options, target, second, sim));
  }

  /** A successful sequence succeeded at every stage, and its final state is the last stage's. */
  lemma AllSucceeded(env: RunnerEnv, st: RunnerState, partitions: PartitionTable, options: MountOptions, target: string, first: seq<SubvolMount>, second: seq<SubvolMount>)
    requires MountAllStep(env, st, partitions, options, target, first, second).0.Ok?
    ensures var st1 := RootStep(env, st, partitions, options, target).1;
      var st2 := BootStep(env, st1, partitions, options, target).1;
      var st3 := SubvolsStep(env, st2, partitions, options, target, first).1;
      RootStep(env, st, partitions, options, target).0.Ok?
      && BootStep(env, st1, partitions, options, target).0.Ok?
      && SubvolsStep(env, st2, partitions, options, target, first).0.Ok?
      && MountAllStep(env, st, partitions, options, target, first, second) == SubvolsStep(env, st3, partitions, options, target, second)
  {
  }

  /** The root mount logs itself. */
  lemma RootLog(env: RunnerEnv, st: RunnerState, partitions: PartitionTable, options: MountOptions, target: string)
    requires RootStep(env, st, partitions, options, target).0.Ok?
    ensures "/" in options && "system" in partitions
    ensures RootStep(env, st, partitions, options, target).1.commandsRun
      == st.commandsRun + [CmdRecord(MountCommand(SubvolOptions("@", options["/"]), partitions["system"], target), env.mode == Simulate)]
  {
    RunLogsOnce(env, st, MountCommand(SubvolOptions("@", options["/"]), partitions["system"], target), None, true);
  }

  /** The boot and EFI mounts log themselves, in that order. */
  lemma BootLog(env: RunnerEnv, st: RunnerState, partitions: PartitionTable, options: MountOptions, target: string)
    requires BootStep(env, st, partitions, options, target).0.Ok?
    ensures "/boot" in options && "boot" in partitions && "/boot/efi" in options && "efi" in partitions
    ensures var sim := env.mode == Simulate;
      BootStep(env, st, partitions, options, target).1.commandsRun
        == st.commandsRun + [CmdRecord(MountCommand(options["/boot"], partitions["boot"], BootPath(target)), sim),
                             CmdRecord(MountCommand(options["/boot/efi"], partitions["efi"], EfiPath(target)), sim)]
  {
    var sim := env.mode == Simulate;
    var boot := MountCommand(options["/boot"], partitions["boot"], BootPath(target));
    RunLogsOnce(env, st, boot, None, true);
    var st1 := RunStep(env, st, boot, None, true).1;
    RunLogsOnce(env, st1, MountCommand(options["/boot/efi"], partitions["efi"], EfiPath(target)), None, true);
    AppendPair(st.commandsRun, CmdRecord(boot, sim), CmdRecord(MountCommand(options["/boot/efi"], partitions["efi"], EfiPath(target)), sim));
  }

  /** Four logs, each extending the previous one, regrouped. */
  lemma LogChain(l0: seq<CmdRecord>, l1: seq<CmdRecord>, l2: seq<CmdRecord>, l3: seq<CmdRecord>, l4: seq<CmdRecord>,
                 top: seq<CmdRecord>, s1: seq<CmdRecord>, s2: seq<CmdRecord>)
    requires |top| == 3 && l1 == l0 + top[..1] && l2 == l1 + top[1..]
    requires l3 == l2 + s1 && l4 == l3 + s2
    ensures l4 == l0 + top + s1 + s2
  {
    assert top[..1] + top[1..] == top;
    assert l2 == l0 + top;
  }

  /** Whatever happens, the commands issued are all `mount`s appended to the
      log: a failure part-way leaves the earlier mounts in place. */
  lemma MountsOnly(env: RunnerEnv, st: RunnerState, partitions: PartitionTable, options: MountOptions, target: string, first: seq<SubvolMount>, second: seq<SubvolMount>)
    ensures var st' := MountAllStep(env, st, partitions, options, target, first, second).1;
      OnlyMounts(st.commandsRun, st'.commandsRun)
  {
    var (a, st1) := RootStep(env, st, partitions, options, target);
    RootOnlyMounts(env, st, partitions, options, target);
    if a.Ok? {
      var (b, st2) := BootStep(env, st1, partitions, options, target);
      BootOnlyMounts(env, st1, partitions, options, target);
      OnlyMountsTrans(st.commandsRun, st1.commandsRun, st2.commandsRun);
      if b.Ok? {
        var (c, st3) := SubvolsStep(env, st2, partitions, options, target, first);
        SubvolsOnlyMount(env, st2, partitions, options, target, first);
        OnlyMountsTrans(st.commandsRun, st2.commandsRun, st3.commandsRun);
        if c.Ok? {
          var st4 := SubvolsStep(env, st3, partitions, options, target, second).1;
          SubvolsOnlyMount(env, st3, partitions, options, target, second);
          OnlyMountsTrans(st.commandsRun, st3.commandsRun, st4.commandsRun);
        }
      }
    }
  }

  /** `after` extends `before` with `mount` commands only. */
  predicate OnlyMounts(before: seq<CmdRecord>, after: seq<CmdRecord>) {
    |before| <= |after| && after[..|before|] == before
    && forall i :: |before| <= i < |after| ==> after[i].command != [] && after[i].command[0] == "mount"
  }

  lemma OnlyMountsTrans(a: seq<CmdRecord>, b: seq<CmdRecord>, c: seq<CmdRecord>)
    requires OnlyMounts(a, b) && OnlyMounts(b, c)
    ensures OnlyMounts(a, c)
  {
    assert c[..|a|] == c[..|b|][..|a|];
  }

  lemma MountStepOnlyMounts(env: RunnerEnv, st: RunnerState, opts: string, device: string, path: string, failure: string)
    ensures OnlyMounts(st.commandsRun, MountStep(env, st, MountCommand(opts, device, path), failure).1.commandsRun)
  {
    RunLogsOnce(env, st, MountCommand(opts, device, path), None, true);
    OnlyMountsAppend(st.commandsRun, CmdRecord(MountCommand(opts, device, path), env.mode == Simulate));
  }

  lemma OnlyMountsAppend(before: seq<CmdRecord>, rec: CmdRecord)
    requires rec.command != [] && rec.command[0] == "mount"
    ensures OnlyMounts(before, before + [rec])
  {
    assert (before + [rec])[..|before|] == before;
  }

  lemma RootOnlyMounts(env: RunnerEnv, st: RunnerState, partitions: PartitionTable, options: MountOptions, target: string)
    ensures OnlyMounts(st.commandsRun, RootStep(env, st, partitions, options, target).1.commandsRun)
  {
    if "/" in options && "system" in partitions {
      MountStepOnlyMounts(env, st, SubvolOptions("@", options["/"]), partitions["system"], target, RootFailure);
    }
  }

  lemma BootOnlyMounts(env: RunnerEnv, st: RunnerState, partitions: PartitionTable, options: MountOptions, target: string)
    ensures OnlyMounts(st.commandsRun, BootStep(env, st, partitions, options, target).1.commandsRun)
  {
    if "/boot" in options && "boot" in partitions {
      MountStepOnlyMounts(env, st, options["/boot"], partitions["boot"], BootPath(target), BootFailure);
      var st1 := MountStep(env, st, MountCommand(options["/boot"], partitions["boot"], BootPath(target)), BootFailure).1;
      if "/boot/efi" in options && "efi" in partitions {
        MountStepOnlyMounts(env, st1, options["/boot/efi"], partitions["efi"], EfiPath(target), EfiFailure);
        OnlyMountsTrans(st.commandsRun, st1.commandsRun, BootStep(env, st, partitions, options, target).1.commandsRun);
      }
    }
  }

  lemma {:induction false} SubvolsOnlyMount(env: RunnerEnv, st: RunnerState, partitions: PartitionTable, options: MountOptions, target: string, mounts: seq<SubvolMount>)
    ensures OnlyMounts(st.commandsRun, SubvolsStep(env, st, partitions, options, target, mounts).1.commandsRun)
    decreases |mounts|
  {
    if mounts != [] {
      var init := mounts[..|mounts| - 1];
      var m := mounts[|mounts| - 1];
      SubvolsOnlyMount(env, st, partitions, options, target, init);
      var (prev, st1) := SubvolsStep(env, st, partitions, options, target, init);
      if prev.Ok? && m.mountpoint in options && "system" in partitions {
        MountStepOnlyMounts(env, st1, SubvolOptions(m.subvol, options[m.mountpoint]), partitions["system"], SubvolPath(target, m), SubvolFailure(m));
        OnlyMountsTrans(st.commandsRun, st1.commandsRun, SubvolsStep(env, st, partitions, options, target, mounts).1.commandsRun);
      }
    }
  }

  /** What can go wrong: a missing key (KeyError, before the mount that
      needs it), or, in a real run only, an OSError or a failed mount
      reported as a MountError. */
  lemma MountErrors(env: RunnerEnv, st: RunnerState, partitions: PartitionTable, options: MountOptions, target: string, first: seq<SubvolMount>, second: seq<SubvolMount>)
    requires MountAllStep(env, st, partitions, options, target, first, second).0.Err?
    ensures var e := MountAllStep(env, st, partitions, options, target, first, second).0.error;
      e.KeyMissing? || (env.mode != Simulate && (e.HostFailure? || e.Mount?))
    ensures KeysPresent(partitions, options, first, second) ==> !MountAllStep(env, st, partitions, options, target, first, second).0.error.KeyMissing?
  {
    var st1 := RootStep(env, st, partitions, options, target).1;
    RootErrors(env, st, partitions, options, target);
    var st2 := BootStep(env, st1, partitions, options, target).1;
    BootErrors(env, st1, partitions, options, target);
    var st3 := SubvolsStep(env, st2, partitions, options, target, first).1;
    SubvolsErrors(env, st2, partitions, options, target, first);
    SubvolsErrors(env, st3, partitions, options, target, second);
  }

  /** What a mount step can raise. */
  predicate MountStepError(env: RunnerEnv, r: Result<()>) {
    r.Err? ==> env.mode != Simulate && (r.error.HostFailure? || r.error.Mount?)
  }

  lemma MountStepErrors(env: RunnerEnv, st: RunnerState, opts: string, device: string, path: string, failure: string)
    ensures MountStepError(env, MountStep(env, st, MountCommand(opts, device, path), failure).0)
  {
    BasenameOfName("mount");
    RunErrors(env, st, MountCommand(opts, device, path), None, true);
    if env.mode == Simulate {
      SimulatedRunSucceeds(env, st, MountCommand(opts, device, path), None, true);
    }
  }

  lemma RootErrors(env: RunnerEnv, st: RunnerState, partitions: PartitionTable, options: MountOptions, target: string)
    ensures var r := RootStep(env, st, partitions, options, target).0;
      ("/" in options && "system" in partitions ==> MountStepError(env, r))
      && (r.Err? ==> r.error.KeyMissing? || MountStepError(env, r))
  {
    if "/" in options && "system" in partitions {
      MountStepErrors(env, st, SubvolOptions("@", options["/"]), partitions["system"], target, RootFailure);
    }
  }

  lemma BootErrors(env: RunnerEnv, st: RunnerState, partitions: PartitionTable, options: MountOptions, target: string)
    ensures var r := BootStep(env, st, partitions, options, target).0;
      ("/boot" in options && "boot" in partitions && "/boot/efi" in options && "efi" in partitions ==> MountStepError(env, r))
      && (r.Err? ==> r.error.KeyMissing? || MountStepError(env, r))
  {
    if "/boot" in options && "boot" in partitions {
      MountStepErrors(env, st, options["/boot"], partitions["boot"], BootPath(target), BootFailure);
      var st1 := MountStep(env, st, MountCommand(options["/boot"], partitions["boot"], BootPath(target)), BootFailure).1;
      if "/boot/efi" in options && "efi" in partitions {
        MountStepErrors(env, st1, options["/boot/efi"], partitions["efi"], EfiPath(target), EfiFailure);
      }
    }
  }

  lemma {:induction false} SubvolsErrors(env: RunnerEnv, st: RunnerState, partitions: PartitionTable, options: MountOptions, target: string, mounts: seq<SubvolMount>)
    ensures var r := SubvolsStep(env, st, partitions, options, target, mounts).0;
      ("system" in partitions && (forall m :: m in mounts ==> m.mountpoint in options) ==> MountStepError(env, r))
      && (r.Err? ==> r.error.KeyMissing? || MountStepError(env, r))
    decreases |mounts|
  {
    if mounts != [] {
      var init := mounts[..|mounts| - 1];
      var m := mounts[|mounts| - 1];
      assert forall x :: x in init ==> x in mounts;
      SubvolsErrors(env, st, partitions, options, target, init);
      var st1 := SubvolsStep(env, st, partitions, options, target, init).1;
      if m.mountpoint in options && "system" in partitions {
        MountStepErrors(env, st1, SubvolOptions(m.subvol, options[m.mountpoint]), partitions["system"], SubvolPath(target, m), SubvolFailure(m));
      }
    }
  }

  /** Under SIMULATE, with every key present, the whole sequence succeeds. */
  lemma SimulatedMountsSucceed(env: RunnerEnv, st: RunnerState, partitions: PartitionTable, options: MountOptions, target: string, first: seq<SubvolMount>, second: seq<SubvolMount>)
    requires env.mode == Simulate && KeysPresent(partitions, options, first, second)
    ensures MountAllStep(env, st, partitions, options, target, first, second).0.Ok?
  {
    if MountAllStep(env, st, partitions, options, target, first, second).0.Err? {
      MountErrors(env, st, partitions, options, target, first, second);
    }
  }

  /** Planning and mounting together: the table the planner builds has every
      key the sequence reads, so a simulated run with the three partition
      roles mounts all twelve mount points. */
  lemma PlannedMountsSucceed(env: RunnerEnv, st: RunnerState, partitions: PartitionTable, info: DiskInfo, args: Args)
    requires env.mode == Simulate && "system" in partitions && "boot" in partitions && "efi" in partitions
    ensures var (r, st') := MountFilesystemsStep(env, st, partitions, MountOptionsFor(info, args), args);
      r.Ok? && |st'.commandsRun| == |st.commandsRun| + 12
  {
    var options := MountOptionsFor(info, args);
    PlannedKeysPresent(partitions, info, args);
    SimulatedMountsSucceed(env, st, partitions, options, args.target, FirstLevel, SecondLevel);
    MountAllLog(env, st, partitions, options, args.target, FirstLevel, SecondLevel);
  }

  lemma PlannedKeysPresent(partitions: PartitionTable, info: DiskInfo, args: Args)
    requires "system" in partitions && "boot" in partitions && "efi" in partitions
    ensures KeysPresent(partitions, MountOptionsFor(info, args), FirstLevel, SecondLevel)
  {
    var options := MountOptionsFor(info, args);
    LevelsInTable();
  }

  /** Every subvolume's mount point is one of the table's. */
  lemma LevelsInTable()
    ensures forall m :: m in FirstLevel ==> m.mountpoint in MountPoints
    ensures forall m :: m in SecondLevel ==> m.mountpoint in MountPoints
  {
  }

  /** The mount points in the order they are mounted: every nested one
      (/boot/efi, /var/log, /var/tmp) comes after the one it lies under. */
  function MountOrder(first: seq<SubvolMount>, second: seq<SubvolMount>): (r: seq<string>)
    ensures |r| == 3 + |first| + |second|
  {
    ["/", "/boot", "/boot/efi"] + Mountpoints(first) + Mountpoints(second)
  }

  function Mountpoints(mounts: seq<SubvolMount>): (r: seq<string>)
    ensures |r| == |mounts| && forall i :: 0 <= i < |mounts| ==> r[i] == mounts[i].mountpoint
  {
    if mounts == [] then [] else [mounts[0].mountpoint] + Mountpoints(mounts[1..])
  }

  /** The order is the table's: root, /boot, /boot/efi, the first level,
      then /var/log and /var/tmp. */
  lemma MountOrderIsTableOrder()
    ensures MountOrder(FirstLevel, SecondLevel) == MountPoints
  {
  }

  /** Mount point `p` lies strictly below mount point `q`. */
  predicate Under(p: string, q: string) {
    StartsWith(p, q + "/")
  }

  /** No mount point is mounted before one it lies under. */
  predicate ParentsFirst(order: seq<string>) {
    forall i, j :: 0 <= i < j < |order| ==> !Under(order[i], order[j])
  }

  /** A path below `q` is longer than `q` and shares its first characters. */
  lemma UnderShape(p: string, q: string)
    requires |q| >= 2
    ensures Under(p, q) ==> |p| > |q| && p[1] == q[1]
  {
    if Under(p, q) {
      assert p[..|q| + 1][1] == (q + "/")[1];
    }
  }

  /** /boot/efi is mounted after /boot and /var/log, /var/tmp after /var:
      the sequence never mounts a directory before its parent mount. */
  lemma ParentsBeforeChildren()
    ensures ParentsFirst(MountOrder(FirstLevel, SecondLevel))
  {
    MountOrderIsTableOrder();
    TableParentsFirst();
  }

  lemma TableParentsFirst()
    ensures ParentsFirst(MountPoints)
  {
    forall i, j | 0 <= i < j < |MountPoints|
      ensures !Under(MountPoints[i], MountPoints[j])
    {
      var p, q := MountPoints[i], MountPoints[j];
      UnderShape(p, q);
      assert |p| <= |q| || p[1] != q[1];
    }
  }
}
