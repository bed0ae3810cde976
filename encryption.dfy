/** architect/core/encryption.py: the Opal factory reset, cryptsetup calls
    with their secrets on stdin, and `setup_encryption`, which formats and
    opens the LUKS container and rewrites the partition table. */
module Encryption {
  import opened Text
  import opened Errors
  import opened Types
  import opened Command

  const LuksName := "luks-root"
  const LuksDevice := "/dev/mapper/luks-root"

  // ---------------------------------------------------------------------------
  // run_cryptsetup_cmd
  // ---------------------------------------------------------------------------

  /** `run_cryptsetup_cmd`: run with the secret on stdin; a non-zero exit
      becomes an EncryptionError carrying cryptsetup's stderr. */
  function CryptsetupStep(env: RunnerEnv, st: RunnerState, cmd: seq<string>, secretInput: string): (Result<()>, RunnerState) {
    var (r, st') := RunStep(env, st, cmd, Some(secretInput), true);
    if r.Ok? then (Ok(()), st')
    else if r.error.CalledProcess? then (Err(Encryption("Cryptsetup command failed: " + r.error.stderr)), st')
    else (Err(r.error), st')
  }

  method RunCryptsetupCmd(cmd: seq<string>, secretInput: string, runner: CommandRunner) returns (r: Result<()>)
    modifies runner
    ensures runner.Env() == old(runner.Env())
    ensures (r, runner.State()) == CryptsetupStep(old(runner.Env()), old(runner.State()), cmd, secretInput)
  {
    var result := runner.Run(cmd, Some(secretInput), true);
    if result.Err? {
      if result.error.CalledProcess? {
        return Err(Encryption("Cryptsetup command failed: " + result.error.stderr));
      }
      return Err(result.error);
    }
    r := Ok(());
  }

  /** A cryptsetup call fails with the stderr of a non-zero exit, or with the
      host's OSError; it is logged once; a simulated one always succeeds. */
  lemma CryptsetupOutcome(env: RunnerEnv, st: RunnerState, cmd: seq<string>, secretInput: string)
    requires cmd != [] && cmd[0] == "cryptsetup"
    ensures var (r, st') := CryptsetupStep(env, st, cmd, secretInput);
      var (raw, _) := RunStep(env, st, cmd, Some(secretInput), true);
      st'.commandsRun == st.commandsRun + [CmdRecord(cmd, env.mode == Simulate)]
      && (r.Ok? <==> raw.Ok?)
      && (r.Err? ==> r.error.HostFailure? || r.error == Encryption("Cryptsetup command failed: " + raw.error.stderr))
      && (env.mode == Simulate ==> r.Ok?)
  {
    RunLogsOnce(env, st, cmd, Some(secretInput), true);
    BasenameOfName("cryptsetup");
    RunErrors(env, st, cmd, Some(secretInput), true);
  }

  // ---------------------------------------------------------------------------
  // reset_opal_drive
  // ---------------------------------------------------------------------------

  function ResetCommand(disk: string): seq<string> {
    ["cryptsetup", "erase", "--hw-opal-factory-reset", disk]
  }

  /** `reset_opal_drive`: the PSID and a confirming YES on stdin; every
      failure, whatever its kind, is re-raised as an EncryptionError. */
  function ResetOpalStep(env: RunnerEnv, st: RunnerState, disk: string, psid: string): (Result<()>, RunnerState) {
    var (r, st') := CryptsetupStep(env, st, ResetCommand(disk), psid + "\nYES\n");
    if r.Ok? then (r, st')
    else (Err(Encryption("Failed to reset Opal drive: " + Describe(r.error))), st')
  }

  method ResetOpalDrive(disk: string, psid: string, runner: CommandRunner) returns (r: Result<()>)
    modifies runner
    ensures runner.Env() == old(runner.Env())
    ensures (r, runner.State()) == ResetOpalStep(old(runner.Env()), old(runner.State()), disk, psid)
  {
    r := RunCryptsetupCmd(ResetCommand(disk), psid + "\nYES\n", runner);
    if r.Err? {
      r := Err(Encryption("Failed to reset Opal drive: " + Describe(r.error)));
    }
  }

  /** The reset issues exactly the erase command, and its only error is an
      EncryptionError. */
  lemma ResetOpalOutcome(env: RunnerEnv, st: RunnerState, disk: string, psid: string)
    ensures var (r, st') := ResetOpalStep(env, st, disk, psid);
      st'.commandsRun == st.commandsRun + [CmdRecord(ResetCommand(disk), env.mode == Simulate)]
      && (r.Err? ==> r.error.Encryption?)
      && (r.Ok? <==> RunStep(env, st, ResetCommand(disk), Some(psid + "\nYES\n"), true).0.Ok?)
  {
    CryptsetupOutcome(env, st, ResetCommand(disk), psid + "\nYES\n");
  }

  // ---------------------------------------------------------------------------
  // setup_encryption
  // ---------------------------------------------------------------------------

  /** The three modes, as the source derives them from the arguments. */
  predicate HwOnly(args: Args) { args.HardwareRequested() && !args.SoftwareRequested() }
  predicate HwAndSw(args: Args) { args.HardwareRequested() && args.SoftwareRequested() }
  predicate SwOnly(args: Args) { !args.HardwareRequested() && args.SoftwareRequested() }

  /** The modes exclude each other, and one of them holds exactly when some
      encryption is requested. */
  lemma ModesExclusive(args: Args)
    ensures !(HwOnly(args) && HwAndSw(args)) && !(HwOnly(args) && SwOnly(args)) && !(HwAndSw(args) && SwOnly(args))
    ensures (HwOnly(args) || HwAndSw(args) || SwOnly(args)) <==> (args.HardwareRequested() || args.SoftwareRequested())
  {
  }

  /** The cipher settings of a software LUKS format. */
  const CipherOptions := ["--cipher", "aes-xts-plain64", "--key-size", "512",
                          "--hash", "sha512", "--pbkdf", "argon2id", "--iter-time", "5000"]

  /** The luksFormat command of each mode: Opal-only formats the whole disk,
      the other two the system partition. */
  function FormatCommand(args: Args, disk: string, system: string): seq<string> {
    if HwOnly(args) then ["cryptsetup", "luksFormat", "--type", "luks2", "--hw-opal-only", disk]
    else if HwAndSw(args) then ["cryptsetup", "luksFormat", "--type", "luks2", "--hw-opal"] + CipherOptions + [system]
    else ["cryptsetup", "luksFormat", "--type", "luks2"] + CipherOptions + [system]
  }

  /** The LUKS secret of the mode: the third hardware secret, or the
      software passphrase. */
  function LuksSecret(args: Args): string {
    if args.HardwareRequested() then args.hardwareEncryption.value.luks else args.softwareEncryption
  }

  /** Stdin of luksFormat: the LUKS secret twice, then for hardware modes
      the admin secret twice. */
  function FormatInput(args: Args): string {
    if args.HardwareRequested() then
      var s := args.hardwareEncryption.value;
      s.luks + "\n" + s.luks + "\n" + s.admin + "\n" + s.admin + "\n"
    else args.softwareEncryption + "\n" + args.softwareEncryption + "\n"
  }

  function OpenCommand(system: string): seq<string> {
    ["cryptsetup", "open", system, LuksName]
  }

  /** The table after encryption: `system` names the mapped device and
      `system_crypt` the raw partition. */
  function MappedTable(partitions: PartitionTable, system: string): PartitionTable {
    partitions["system" := LuksDevice]["system_crypt" := system]
  }

  /** An EncryptionError raised inside the setup gets one more prefix; other
      exceptions pass through. */
  function WrapSetupError(e: Error): Error {
    if e.Encryption? then Encryption("Failed to set up encryption: " + e.msg) else e
  }

  /** `setup_encryption` */
  function SetupEncryptionStep(env: RunnerEnv, st: RunnerState, disk: string, partitions: PartitionTable, args: Args): (Result<PartitionTable>, RunnerState) {
    if "system" !in partitions then (Err(KeyMissing("system")), st)
    else
      var system := partitions["system"];
      if !(HwOnly(args) || HwAndSw(args) || SwOnly(args)) then (Ok(partitions), st)
      else
        var (f, st1) := CryptsetupStep(env, st, FormatCommand(args, disk, system), FormatInput(args));
        if f.Err? then (Err(WrapSetupError(f.error)), st1)
        else
          var (o, st2) := CryptsetupStep(env, st1, OpenCommand(system), LuksSecret(args) + "\n");
          if o.Err? then (Err(WrapSetupError(o.error)), st2)
          else (Ok(MappedTable(partitions, system)), st2)
  }

  method SetupEncryption(disk: string, partitions: PartitionTable, args: Args, runner: CommandRunner) returns (r: Result<PartitionTable>)
    modifies runner
    ensures runner.Env() == old(runner.Env())
    ensures (r, runner.State()) == SetupEncryptionStep(old(runner.Env()), old(runner.State()), disk, partitions, args)
  {
    if "system" !in partitions {
      return Err(KeyMissing("system"));
    }
    var system := partitions["system"];
    var mapped := partitions;
    var hwOnly := HwOnly(args);
    var hwAndSw := HwAndSw(args);
    var swOnly := SwOnly(args);

    var step: Result<()> := Ok(());
    if hwOnly || hwAndSw || swOnly {
      step := RunCryptsetupCmd(FormatCommand(args, disk, system), FormatInput(args), runner);
      if step.Err? {
        return Err(WrapSetupError(step.error));
      }
      step := RunCryptsetupCmd(OpenCommand(system), LuksSecret(args) + "\n", runner);
      if step.Err? {
        return Err(WrapSetupError(step.error));
      }
      mapped := mapped["system" := LuksDevice];
      mapped := mapped["system_crypt" := system];
    }
    r := Ok(mapped);
  }

  // ---------------------------------------------------------------------------
  // Properties of setup_encryption
  // ---------------------------------------------------------------------------

  /** A table without `system` raises KeyError before any command. */
  lemma MissingSystemKey(env: RunnerEnv, st: RunnerState, disk: string, partitions: PartitionTable, args: Args)
    requires "system" !in partitions
    ensures SetupEncryptionStep(env, st, disk, partitions, args) == (Err(KeyMissing("system")), st)
  {
  }

  /** Without encryption nothing is run and an equal table comes back. */
  lemma NoEncryptionNoCommands(env: RunnerEnv, st: RunnerState, disk: string, partitions: PartitionTable, args: Args)
    requires "system" in partitions && !args.HardwareRequested() && !args.SoftwareRequested()
    ensures SetupEncryptionStep(env, st, disk, partitions, args) == (Ok(partitions), st)
  {
  }

  /** On success with encryption, `system` becomes /dev/mapper/luks-root,
      `system_crypt` the old system partition, and every other role keeps
      its device. */
  lemma EncryptionRewritesTable(env: RunnerEnv, st: RunnerState, disk: string, partitions: PartitionTable, args: Args)
    requires args.HardwareRequested() || args.SoftwareRequested()
    requires SetupEncryptionStep(env, st, disk, partitions, args).0.Ok?
    ensures var t := SetupEncryptionStep(env, st, disk, partitions, args).0.value;
      "system" in partitions
      && t.Keys == partitions.Keys + {"system_crypt"}
      && t["system"] == LuksDevice && t["system_crypt"] == partitions["system"]
      && forall k :: k in partitions && k != "system" && k != "system_crypt" ==> t[k] == partitions[k]
  {
  }

  /** The format command runs before the open command, and those two are
      all that is logged. */
  lemma FormatThenOpen(env: RunnerEnv, st: RunnerState, disk: string, partitions: PartitionTable, args: Args)
    requires args.HardwareRequested() || args.SoftwareRequested()
    requires SetupEncryptionStep(env, st, disk, partitions, args).0.Ok?
    ensures var system := partitions["system"]; var sim := env.mode == Simulate;
      SetupEncryptionStep(env, st, disk, partitions, args).1.commandsRun == st.commandsRun
        + [CmdRecord(FormatCommand(args, disk, system), sim), CmdRecord(OpenCommand(system), sim)]
  {
    var system := partitions["system"];
    CryptsetupOutcome(env, st, FormatCommand(args, disk, system), FormatInput(args));
    var st1 := CryptsetupStep(env, st, FormatCommand(args, disk, system), FormatInput(args)).1;
    CryptsetupOutcome(env, st1, OpenCommand(system), LuksSecret(args) + "\n");
  }

  /** Opal-only formats the whole disk; the other modes format the system
      partition with the cipher settings. */
  lemma FormatTargets(args: Args, disk: string, system: string)
    requires args.HardwareRequested() || args.SoftwareRequested()
    ensures var c := FormatCommand(args, disk, system);
      c[..4] == ["cryptsetup", "luksFormat", "--type", "luks2"]
      && (HwOnly(args) ==> c[|c| - 1] == disk && c[4] == "--hw-opal-only" && |c| == 6)
      && (!HwOnly(args) ==> c[|c| - 1] == system && c[|c| - 11..|c| - 1] == CipherOptions)
      && (HwAndSw(args) ==> "--hw-opal" in c)
  {
    var c := FormatCommand(args, disk, system);
    if HwOnly(args) {
      assert c[4] == "--hw-opal-only";
    } else if HwAndSw(args) {
      assert c[4] == "--hw-opal";
    }
  }

  /** The secrets on stdin: luksFormat gets the LUKS secret twice (then the
      admin secret twice for hardware modes), open gets it once. */
  lemma SecretsOnStdin(args: Args)
    requires args.HardwareRequested() || args.SoftwareRequested()
    ensures args.HardwareRequested() ==>
      var s := args.hardwareEncryption.value;
      FormatInput(args) == s.luks + "\n" + s.luks + "\n" + s.admin + "\n" + s.admin + "\n" && LuksSecret(args) == s.luks
    ensures !args.HardwareRequested() ==>
      FormatInput(args) == LuksSecret(args) + "\n" + LuksSecret(args) + "\n" && LuksSecret(args) == args.softwareEncryption
  {
  }

  /** A failing cryptsetup surfaces as one EncryptionError carrying both
      prefixes and cryptsetup's stderr. */
  lemma SetupErrors(env: RunnerEnv, st: RunnerState, disk: string, partitions: PartitionTable, args: Args)
    requires var r := SetupEncryptionStep(env, st, disk, partitions, args).0; r.Err? && !r.error.HostFailure? && !r.error.KeyMissing?
    ensures var r := SetupEncryptionStep(env, st, disk, partitions, args).0;
      r.error.Encryption?
      && exists stderr: string :: r.error.msg == "Failed to set up encryption: " + ("Cryptsetup command failed: " + stderr)
  {
    var system := partitions["system"];
    var (f, st1) := CryptsetupStep(env, st, FormatCommand(args, disk, system), FormatInput(args));
    if f.Err? {
      WrappedCryptsetupError(env, st, FormatCommand(args, disk, system), FormatInput(args));
    } else {
      WrappedCryptsetupError(env, st1, OpenCommand(system), LuksSecret(args) + "\n");
    }
  }

  /** One failing cryptsetup call, wrapped by the setup. */
  lemma WrappedCryptsetupError(env: RunnerEnv, st: RunnerState, cmd: seq<string>, secretInput: string)
    requires cmd != [] && cmd[0] == "cryptsetup"
    requires var r := CryptsetupStep(env, st, cmd, secretInput).0; r.Err? && !r.error.HostFailure?
    ensures var e := WrapSetupError(CryptsetupStep(env, st, cmd, secretInput).0.error);
      e.Encryption? && exists stderr: string :: e.msg == "Failed to set up encryption: " + ("Cryptsetup command failed: " + stderr)
  {
    CryptsetupOutcome(env, st, cmd, secretInput);
    var raw := RunStep(env, st, cmd, Some(secretInput), true).0;
    assert WrapSetupError(CryptsetupStep(env, st, cmd, secretInput).0.error).msg
      == "Failed to set up encryption: " + ("Cryptsetup command failed: " + raw.error.stderr);
  }

  /** In SIMULATE mode encryption always succeeds once `system` is there. */
  lemma SimulatedEncryptionSucceeds(env: RunnerEnv, st: RunnerState, disk: string, partitions: PartitionTable, args: Args)
    requires env.mode == Simulate && "system" in partitions
    ensures SetupEncryptionStep(env, st, disk, partitions, args).0.Ok?
  {
    var system := partitions["system"];
    CryptsetupOutcome(env, st, FormatCommand(args, disk, system), FormatInput(args));
    var st1 := CryptsetupStep(env, st, FormatCommand(args, disk, system), FormatInput(args)).1;
    CryptsetupOutcome(env, st1, OpenCommand(system), LuksSecret(args) + "\n");
  }
}
