/** The record shapes of architect/utils/types.py, the parsed command line the
    core reads, and the host the core runs on.

    Optional command-line strings are `string`s in which "" stands for an
    option that was not given: the core only ever tests them for truthiness,
    and in Python both None and "" are false. */
module Types {
  import opened Errors

  datatype SimulationMode = Disabled | Simulate

  /** DiskInfo, without the floating-point `size_gib`. */
  datatype DiskInfo = DiskInfo(
    sizeBytes: int,
    rotational: bool,
    nvme: bool,
    model: string,
    trimSupported: bool,
    cpuCount: int)

  /** Role name -> device path. */
  type PartitionTable = map<string, string>

  /** Mount point -> comma-joined option string. */
  type MountOptions = map<string, string>

  /** The (PSID, admin secret, LUKS secret) triple of `--hardware-encryption`. */
  datatype HwSecrets = HwSecrets(psid: string, admin: string, luks: string)

  /** The fields of the argparse namespace that the core reads. */
  datatype Args = Args(
    disk: string,
    hardened: bool,
    overprovision: string,
    windows: string,
    hwPsid: string,
    hwAdmin: string,
    hwPass: string,
    hardwareEncryption: Option<HwSecrets>,
    softwareEncryption: string,
    target: string,
    generateCrypttab: bool,
    btrfsOptions: string,
    targetArch: string)
  {
    /** Truthiness of `args.hardware_encryption` (a non-empty list or tuple, or None). */
    predicate HardwareRequested() { hardwareEncryption.Some? }

    /** Truthiness of `args.software_encryption`. */
    predicate SoftwareRequested() { softwareEncryption != "" }
  }

  /** The simulation parameters cli.py puts in `simulation_params`; a key that
      is absent from the dictionary is None here. */
  datatype SimParams = SimParams(
    diskSize: Option<string>,
    diskType: Option<string>,
    rotational: Option<bool>,
    nvme: Option<bool>,
    trimSupported: Option<bool>)

  /** What the host answers when a process is started: it ran and exited, or
      it could not be started (an OSError such as a missing executable). */
  datatype ProcessResult =
    | Exited(returncode: int, stdout: string, stderr: string)
    | LaunchFailed(msg: string)

  /** The host as the core observes it.  `exec` answers the n-th real process
      started during the run; the other fields are the probes os.path.exists,
      read of a sysfs file (None when absent or unreadable), shutil.which,
      os.geteuid, os.cpu_count (0 for None), platform.machine and the
      directory tempfile.mkdtemp creates. */
  datatype Host = Host(
    exec: (nat, seq<string>, Option<string>) -> ProcessResult,
    pathExists: string -> bool,
    sysfs: string -> Option<string>,
    which: string -> bool,
    euid: int,
    cpuCount: nat,
    machine: string,
    mkdtemp: string)
}
