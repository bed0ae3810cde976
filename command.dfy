/** `CommandRunner` of architect/utils/command.py: every command the core
    issues goes through `Run`, which logs it and either hands it to the host
    or answers it from a table of simulated responses.

    The runner is a class whose fields are those of the Python object.  Each
    method is proved against a pure step function over `RunnerEnv` (what the
    runner was configured with) and `RunnerState` (what its methods change);
    the stage modules specify themselves with the same step functions. */
module Command {
  import opened Text
  import opened Errors
  import opened Types
  import opened SizeFormat

  /** One entry of `commands_run`. */
  datatype CmdRecord = CmdRecord(command: seq<string>, simulated: bool)

  /** subprocess.CompletedProcess (text mode, output captured). */
  datatype Completed = Completed(args: seq<string>, returncode: int, stdout: string, stderr: string)

  /** The configuration a runner holds: the mode, the simulation parameters,
      the `use_real_disk_info` flag, the host that real commands reach, and
      the supply of fresh identifiers that `uuid.uuid4` stands for. */
  datatype RunnerEnv = RunnerEnv(
    mode: SimulationMode,
    params: SimParams,
    useRealDiskInfo: bool,
    host: Host,
    supply: nat -> string)

  /** The part of a runner that `run` changes: the command log, the two
      identifier memos, how many identifiers have been drawn from the supply
      and how many processes the host has been asked to start. */
  datatype RunnerState = RunnerState(
    commandsRun: seq<CmdRecord>,
    uuids: map<string, string>,
    partuuids: map<string, string>,
    drawn: nat,
    realCalls: nat)

  /** The parameters of a runner on which `set_simulation_params` was not called. */
  const NoParams := SimParams(None, None, None, None, None)

  /** 10 TiB: the disk size that percentages in `disk_size` are read against. */
  const ReferenceSize: nat := 10 * TiB

  /** The size reported when no usable `disk_size` is configured. */
  const DefaultDiskSize: nat := 500107862016

  const SfdiskBanner := "Created a new disklabel (gpt)\nThe new table will be used at the next reboot\nPartitioning completed successfully\n"

  /** str(uuid.uuid4())[:8] */
  function IdPrefix(s: string): (r: string)
    ensures |r| <= 8 && StartsWith(s, r) && (|s| >= 8 ==> |r| == 8)
  {
    if |s| >= 8 then s[..8] else s
  }

  // ---------------------------------------------------------------------------
  // Specification of one step
  // ---------------------------------------------------------------------------

  /** subprocess.run(cmd, check=check, input=input): the host answers the
      `realCalls`-th process; a non-zero exit with `check` raises
      CalledProcessError, a process that cannot start raises OSError. */
  function ExecuteStep(env: RunnerEnv, st: RunnerState, cmd: seq<string>, input: Option<string>, check: bool): (out: (Result<Completed>, RunnerState))
    ensures out.1 == st.(realCalls := st.realCalls + 1)
    ensures out.0.Ok? ==> out.0.value.args == cmd && (check ==> out.0.value.returncode == 0)
    ensures out.0.Err? ==> out.0.error.HostFailure? || (check && out.0.error.CalledProcess? && out.0.error.cmd == cmd && out.0.error.returncode != 0)
  {
    var st' := st.(realCalls := st.realCalls + 1);
    match env.host.exec(st.realCalls, cmd, input)
    case LaunchFailed(msg) => (Err(HostFailure(msg)), st')
    case Exited(code, out, err) =>
      if check && code != 0 then (Err(CalledProcess(cmd, code, out, err)), st')
      else (Ok(Completed(cmd, code, out, err)), st')
  }

  /** `run_real`: straight to the host, nothing logged. */
  function RunRealStep(env: RunnerEnv, st: RunnerState, cmd: seq<string>, input: Option<string>, check: bool): (Result<Completed>, RunnerState) {
    ExecuteStep(env, st, cmd, input, check)
  }

  /** `run`: log the command, then simulate it or execute it. */
  function RunStep(env: RunnerEnv, st: RunnerState, cmd: seq<string>, input: Option<string>, check: bool): (Result<Completed>, RunnerState) {
    var st1 := st.(commandsRun := st.commandsRun + [CmdRecord(cmd, env.mode == Simulate)]);
    if env.mode == Simulate then (SimResponse(env, st1, cmd, input), SimState(env, st1, cmd))
    else ExecuteStep(env, st1, cmd, input, check)
  }

  /** The base name `_simulate_command` dispatches on. */
  function SimName(cmd: seq<string>): string {
    if cmd != [] then Basename(cmd[0]) else ""
  }

  /** The response of `_simulate_command`: exit status 0, empty output
      unless a handler fills it. */
  function SimResponse(env: RunnerEnv, st: RunnerState, cmd: seq<string>, input: Option<string>): Result<Completed> {
    var base := Completed(cmd, 0, "", "");
    var name := SimName(cmd);
    if name == "blkid" then Ok(BlkidStep(env, st, cmd, base).0)
    else if name == "blockdev" then Ok(BlockdevResponse(env.params, cmd, base))
    else if name == "lsblk" then LsblkResponse(env.params, cmd, base)
    else if name == "cryptsetup" then Ok(CryptsetupResponse(cmd, base))
    else if name == "hdparm" then Ok(HdparmResponse(env.params, cmd, base))
    else if name == "sfdisk" then Ok(SfdiskResponse(input, base))
    else Ok(base)
  }

  /** The state after `_simulate_command`: only `blkid` touches the memos. */
  function SimState(env: RunnerEnv, st: RunnerState, cmd: seq<string>): RunnerState {
    if SimName(cmd) == "blkid" then BlkidStep(env, st, cmd, Completed(cmd, 0, "", "")).1 else st
  }

  /** The identifier `blkid -s <type>` asks for and the device it names, when
      the command has a value after `-s`. */
  function BlkidQuery(cmd: seq<string>): Option<(string, string)> {
    if "-s" in cmd && |cmd| > IndexOf(cmd, "-s") + 1 then
      Some((cmd[IndexOf(cmd, "-s") + 1], cmd[|cmd| - 1]))
    else None
  }

  /** Look `device` up in a memo, drawing a fresh identifier when it is absent. */
  function Memo(env: RunnerEnv, memo: map<string, string>, drawn: nat, device: string): (out: (string, map<string, string>, nat))
    ensures device in out.1 && out.0 == out.1[device]
    ensures device in memo ==> out == (memo[device], memo, drawn)
    ensures device !in memo ==> out == (env.supply(drawn), memo[device := env.supply(drawn)], drawn + 1)
  {
    if device in memo then (memo[device], memo, drawn)
    else (env.supply(drawn), memo[device := env.supply(drawn)], drawn + 1)
  }

  /** `_handle_blkid_simulation`: a stable identifier per device path. */
  function BlkidStep(env: RunnerEnv, st: RunnerState, cmd: seq<string>, base: Completed): (out: (Completed, RunnerState))
    ensures out.0 == base.(stdout := out.0.stdout)
    ensures out.1.commandsRun == st.commandsRun && out.1.realCalls == st.realCalls
  {
    match BlkidQuery(cmd)
    case None => (base, st)
    case Some((kind, device)) =>
      if kind == "UUID" then
        var (v, m, d) := Memo(env, st.uuids, st.drawn, device);
        (base.(stdout := v + "\n"), st.(uuids := m, drawn := d))
      else if kind == "PARTUUID" then
        var (v, m, d) := Memo(env, st.partuuids, st.drawn, device);
        (base.(stdout := v + "\n"), st.(partuuids := m, drawn := d))
      else (base, st)
  }

  /** `_handle_blockdev_simulation` */
  function BlockdevResponse(params: SimParams, cmd: seq<string>, base: Completed): (r: Completed)
    ensures r == base.(stdout := r.stdout)
  {
    if "--getsize64" in cmd then
      match params.diskSize
      case None => base.(stdout := NatToString(DefaultDiskSize) + "\n")
      case Some(spec) =>
        match ParseSizeSpec(spec, ReferenceSize)
        case Ok(n) => base.(stdout := IntToString(n) + "\n")
        case Err(_) => base.(stdout := NatToString(DefaultDiskSize) + "\n")
    else base
  }

  /** `_handle_lsblk_simulation`; `-o` as the last word makes the subscript
      after it raise IndexError. */
  function LsblkResponse(params: SimParams, cmd: seq<string>, base: Completed): (r: Result<Completed>)
    ensures r.Err? <==> ("-o" in cmd && IndexOf(cmd, "-o") == |cmd| - 1)
    ensures r.Err? ==> r.error == IndexOutOfRange
    ensures r.Ok? ==> r.value == base.(stdout := r.value.stdout)
  {
    if "-o" in cmd then
      var k := IndexOf(cmd, "-o");
      if k + 1 >= |cmd| then Err(IndexOutOfRange)
      else if Contains(cmd[k + 1], "TYPE") then Ok(base.(stdout := "disk\n"))
      else if Contains(cmd[k + 1], "MODEL") then
        match params.diskType
        case Some(t) => Ok(base.(stdout := "SIMULATED " + Upper(t) + " DISK\n"))
        case None => Ok(base.(stdout := "SIMULATED DISK\n"))
      else Ok(base)
    else Ok(base)
  }

  /** `_handle_cryptsetup_simulation` */
  function CryptsetupResponse(cmd: seq<string>, base: Completed): (r: Completed)
    ensures r == base.(stdout := r.stdout)
  {
    if "--version" in cmd then base.(stdout := "cryptsetup 2.6.1\n") else base
  }

  /** `_handle_hdparm_simulation` */
  function HdparmResponse(params: SimParams, cmd: seq<string>, base: Completed): (r: Completed)
    ensures r == base.(stdout := r.stdout)
  {
    if "-I" in cmd then
      if params.trimSupported == Some(false) then base.(stdout := "TRIM COMMAND: not supported\n")
      else base.(stdout := "TRIM COMMAND: supported\n")
    else base
  }

  /** `_handle_sfdisk_simulation` */
  function SfdiskResponse(input: Option<string>, base: Completed): (r: Completed)
    ensures r == base.(stdout := r.stdout)
  {
    if input.Some? then base.(stdout := SfdiskBanner) else base
  }

  // ---------------------------------------------------------------------------
  // Properties of a step
  // ---------------------------------------------------------------------------

  /** `run` appends exactly one record, flagged simulated exactly in SIMULATE
      mode, before anything else happens. */
  lemma RunLogsOnce(env: RunnerEnv, st: RunnerState, cmd: seq<string>, input: Option<string>, check: bool)
    ensures RunStep(env, st, cmd, input, check).1.commandsRun == st.commandsRun + [CmdRecord(cmd, env.mode == Simulate)]
  {
    var st1 := st.(commandsRun := st.commandsRun + [CmdRecord(cmd, env.mode == Simulate)]);
    var answered := BlkidStep(env, st1, cmd, Completed(cmd, 0, "", ""));
  }

  /** `run_real` logs nothing, leaves the memos alone and starts exactly one
      process on the host, whatever the mode. */
  lemma RunRealBypassesLog(env: RunnerEnv, st: RunnerState, cmd: seq<string>, input: Option<string>, check: bool)
    ensures var st' := RunRealStep(env, st, cmd, input, check).1;
      st'.commandsRun == st.commandsRun && st'.uuids == st.uuids && st'.partuuids == st.partuuids
      && st'.drawn == st.drawn && st'.realCalls == st.realCalls + 1
  {
  }

  /** `lsblk ... -o` with nothing after `-o`: the one simulated command that raises. */
  predicate LsblkMissingColumn(cmd: seq<string>) {
    SimName(cmd) == "lsblk" && "-o" in cmd && IndexOf(cmd, "-o") == |cmd| - 1
  }

  /** In SIMULATE mode `run` starts no process and succeeds with exit status
      0, whatever `check` says, except for an `lsblk` whose `-o` has no
      value, which raises IndexError. */
  lemma SimulatedRunSucceeds(env: RunnerEnv, st: RunnerState, cmd: seq<string>, input: Option<string>, check: bool)
    requires env.mode == Simulate
    ensures var (r, st') := RunStep(env, st, cmd, input, check);
      st'.realCalls == st.realCalls
      && (LsblkMissingColumn(cmd) <==> r.Err?)
      && (r.Err? ==> r.error == IndexOutOfRange)
      && (r.Ok? ==> r.value.args == cmd && r.value.returncode == 0 && r.value.stderr == "")
  {
    var st1 := st.(commandsRun := st.commandsRun + [CmdRecord(cmd, true)]);
    SimResponseShape(env, st1, cmd, input);
    var answered := BlkidStep(env, st1, cmd, Completed(cmd, 0, "", ""));
  }

  /** A simulated answer has exit status 0 and no stderr; only the lsblk
      with a missing column raises. */
  lemma SimResponseShape(env: RunnerEnv, st: RunnerState, cmd: seq<string>, input: Option<string>)
    ensures var r := SimResponse(env, st, cmd, input);
      (LsblkMissingColumn(cmd) <==> r.Err?)
      && (r.Err? ==> r.error == IndexOutOfRange)
      && (r.Ok? ==> r.value == Completed(cmd, 0, r.value.stdout, ""))
  {
    var name := SimName(cmd);
    if name == "lsblk" {
    } else {
      assert !LsblkMissingColumn(cmd);
      if name == "blkid" {
      } else if name == "blockdev" {
      } else if name == "cryptsetup" {
      } else if name == "hdparm" {
      } else if name == "sfdisk" {
      }
    }
  }

  /** What `run` can raise: an OSError from the host, a CalledProcessError
      for a real command run with `check`, or the IndexError of a malformed
      simulated lsblk. */
  lemma RunErrors(env: RunnerEnv, st: RunnerState, cmd: seq<string>, input: Option<string>, check: bool)
    requires !LsblkMissingColumn(cmd)
    ensures var r := RunStep(env, st, cmd, input, check).0;
      r.Err? ==> r.error.HostFailure? || (r.error.CalledProcess? && check && env.mode != Simulate)
  {
    if env.mode == Simulate {
      SimulatedRunSucceeds(env, st, cmd, input, check);
    }
  }

  /** Commands without a handler are answered with empty output. */
  lemma UnhandledCommandIsSilent(env: RunnerEnv, st: RunnerState, cmd: seq<string>, input: Option<string>, check: bool)
    requires env.mode == Simulate
    requires SimName(cmd) !in ["blkid", "blockdev", "lsblk", "cryptsetup", "hdparm", "sfdisk"]
    ensures RunStep(env, st, cmd, input, check).0 == Ok(Completed(cmd, 0, "", ""))
  {
    var st1 := st.(commandsRun := st.commandsRun + [CmdRecord(cmd, true)]);
    UnhandledResponse(env, st1, cmd, input);
  }

  lemma UnhandledResponse(env: RunnerEnv, st: RunnerState, cmd: seq<string>, input: Option<string>)
    requires SimName(cmd) !in ["blkid", "blockdev", "lsblk", "cryptsetup", "hdparm", "sfdisk"]
    ensures SimResponse(env, st, cmd, input) == Ok(Completed(cmd, 0, "", ""))
  {
    var name := SimName(cmd);
    assert name != "blkid" && name != "blockdev" && name != "lsblk";
    assert name != "cryptsetup" && name != "hdparm" && name != "sfdisk";
  }

  /** `run` never forgets or changes an identifier it has handed out. */
  lemma RunKeepsMemos(env: RunnerEnv, st: RunnerState, cmd: seq<string>, input: Option<string>, check: bool)
    ensures var st' := RunStep(env, st, cmd, input, check).1;
      st.uuids.Keys <= st'.uuids.Keys && st.partuuids.Keys <= st'.partuuids.Keys
      && (forall p :: p in st.uuids ==> st'.uuids[p] == st.uuids[p])
      && (forall p :: p in st.partuuids ==> st'.partuuids[p] == st.partuuids[p])
  {
    MemosOnlyChangeOnBlkid(env, st, cmd, input, check);
    var st1 := st.(commandsRun := st.commandsRun + [CmdRecord(cmd, env.mode == Simulate)]);
    BlkidKeepsMemos(env, st1, cmd, Completed(cmd, 0, "", ""));
  }

  lemma BlkidKeepsMemos(env: RunnerEnv, st: RunnerState, cmd: seq<string>, base: Completed)
    ensures var st' := BlkidStep(env, st, cmd, base).1;
      st.uuids.Keys <= st'.uuids.Keys && st.partuuids.Keys <= st'.partuuids.Keys
      && (forall p :: p in st.uuids ==> st'.uuids[p] == st.uuids[p])
      && (forall p :: p in st.partuuids ==> st'.partuuids[p] == st.partuuids[p])
  {
  }

  /** A simulated `blkid -s UUID` (or `-s PARTUUID`) answers the memo entry
      of its device, creating it on first use; the two memos are separate. */
  lemma BlkidAnswersFromMemo(env: RunnerEnv, st: RunnerState, cmd: seq<string>, input: Option<string>, check: bool, kind: string, device: string)
    requires env.mode == Simulate && SimName(cmd) == "blkid" && BlkidQuery(cmd) == Some((kind, device))
    requires kind == "UUID" || kind == "PARTUUID"
    ensures var (r, st') := RunStep(env, st, cmd, input, check);
      r.Ok?
      && (kind == "UUID" ==> device in st'.uuids && r.value.stdout == st'.uuids[device] + "\n" && st'.partuuids == st.partuuids)
      && (kind == "PARTUUID" ==> device in st'.partuuids && r.value.stdout == st'.partuuids[device] + "\n" && st'.uuids == st.uuids)
  {
  }

  /** Asking twice for the same device's identifier gives the same answer. */
  lemma BlkidRepeatable(env: RunnerEnv, st: RunnerState, cmd: seq<string>, cmd2: seq<string>, kind: string, device: string)
    requires env.mode == Simulate && SimName(cmd) == "blkid" && SimName(cmd2) == "blkid"
    requires BlkidQuery(cmd) == Some((kind, device)) && BlkidQuery(cmd2) == Some((kind, device))
    requires kind == "UUID" || kind == "PARTUUID"
    ensures var (r1, st1) := RunStep(env, st, cmd, None, true);
      var (r2, st2) := RunStep(env, st1, cmd2, None, true);
      r1.Ok? && r2.Ok? && r2.value.stdout == r1.value.stdout && st2.uuids == st1.uuids && st2.partuuids == st1.partuuids
  {
    BlkidAnswersFromMemo(env, st, cmd, None, true, kind, device);
    var st1 := RunStep(env, st, cmd, None, true).1;
    BlkidAnswersFromMemo(env, st1, cmd2, None, true, kind, device);
  }

  /** The identifiers drawn so far (the first one became the simulation id). */
  ghost function DrawnIds(supply: nat -> string, drawn: nat): set<string> {
    set k: nat | 1 <= k < drawn :: supply(k)
  }

  /** A supply that never repeats a value. */
  ghost predicate Injective(supply: nat -> string) {
    forall i: nat, j: nat :: supply(i) == supply(j) ==> i == j
  }

  /** The memo invariant: every identifier handed out was drawn from the
      supply, and no two devices (in either memo) share one. */
  ghost predicate FreshIds(env: RunnerEnv, st: RunnerState) {
    st.drawn >= 1
    && (forall p :: p in st.uuids ==> st.uuids[p] in DrawnIds(env.supply, st.drawn))
    && (forall p :: p in st.partuuids ==> st.partuuids[p] in DrawnIds(env.supply, st.drawn))
    && (forall p, q :: p in st.uuids && q in st.uuids && p != q ==> st.uuids[p] != st.uuids[q])
    && (forall p, q :: p in st.partuuids && q in st.partuuids && p != q ==> st.partuuids[p] != st.partuuids[q])
    && (forall p, q :: p in st.uuids && q in st.partuuids ==> st.uuids[p] != st.partuuids[q])
  }

  /** The next identifier differs from every one drawn before it. */
  lemma NextIdIsNew(supply: nat -> string, drawn: nat)
    requires Injective(supply)
    ensures supply(drawn) !in DrawnIds(supply, drawn)
    ensures DrawnIds(supply, drawn) <= DrawnIds(supply, drawn + 1)
  {
  }

  /** Filling a UUID memo entry keeps the memo invariant. */
  lemma NewUuidKeepsFreshIds(env: RunnerEnv, st: RunnerState, device: string)
    requires Injective(env.supply) && FreshIds(env, st) && device !in st.uuids
    ensures FreshIds(env, st.(uuids := st.uuids[device := env.supply(st.drawn)], drawn := st.drawn + 1))
  {
    NextIdIsNew(env.supply, st.drawn);
  }

  /** Filling a PARTUUID memo entry keeps the memo invariant. */
  lemma NewPartuuidKeepsFreshIds(env: RunnerEnv, st: RunnerState, device: string)
    requires Injective(env.supply) && FreshIds(env, st) && device !in st.partuuids
    ensures FreshIds(env, st.(partuuids := st.partuuids[device := env.supply(st.drawn)], drawn := st.drawn + 1))
  {
    NextIdIsNew(env.supply, st.drawn);
  }

  /** Only a simulated `blkid` can change the memos or the draw count. */
  lemma MemosOnlyChangeOnBlkid(env: RunnerEnv, st: RunnerState, cmd: seq<string>, input: Option<string>, check: bool)
    ensures var st' := RunStep(env, st, cmd, input, check).1;
      var st1 := st.(commandsRun := st.commandsRun + [CmdRecord(cmd, env.mode == Simulate)]);
      if env.mode == Simulate && SimName(cmd) == "blkid" then st' == BlkidStep(env, st1, cmd, Completed(cmd, 0, "", "")).1
      else st'.uuids == st.uuids && st'.partuuids == st.partuuids && st'.drawn == st.drawn
  {
  }

  /** The memo invariant depends only on the memos and the draw count. */
  lemma FreshIdsFrame(env: RunnerEnv, st: RunnerState, st': RunnerState)
    requires FreshIds(env, st)
    requires st'.uuids == st.uuids && st'.partuuids == st.partuuids && st'.drawn == st.drawn
    ensures FreshIds(env, st')
  {
  }

  /** Under a supply that never repeats itself, `run` keeps the memo
      invariant, so distinct device paths get distinct identifiers. */
  lemma RunKeepsFreshIds(env: RunnerEnv, st: RunnerState, cmd: seq<string>, input: Option<string>, check: bool)
    requires Injective(env.supply) && FreshIds(env, st)
    ensures FreshIds(env, RunStep(env, st, cmd, input, check).1)
  {
    var st' := RunStep(env, st, cmd, input, check).1;
    var st1 := st.(commandsRun := st.commandsRun + [CmdRecord(cmd, env.mode == Simulate)]);
    MemosOnlyChangeOnBlkid(env, st, cmd, input, check);
    if env.mode == Simulate && SimName(cmd) == "blkid" {
      FreshIdsFrame(env, st, st1);
      BlkidKeepsFreshIds(env, st1, cmd, Completed(cmd, 0, "", ""));
    } else {
      FreshIdsFrame(env, st, st');
    }
  }

  /** The simulated `blkid` keeps the memo invariant. */
  lemma BlkidKeepsFreshIds(env: RunnerEnv, st: RunnerState, cmd: seq<string>, base: Completed)
    requires Injective(env.supply) && FreshIds(env, st)
    ensures FreshIds(env, BlkidStep(env, st, cmd, base).1)
  {
    match BlkidQuery(cmd)
    case None =>
    case Some((kind, device)) =>
      if kind == "UUID" && device !in st.uuids {
        NewUuidKeepsFreshIds(env, st, device);
      } else if kind == "PARTUUID" && device !in st.partuuids {
        NewPartuuidKeepsFreshIds(env, st, device);
      } else {
        FreshIdsFrame(env, st, BlkidStep(env, st, cmd, base).1);
      }
  }

  /** A new runner satisfies the memo invariant. */
  lemma InitialFreshIds(env: RunnerEnv)
    ensures FreshIds(env, RunnerState([], map[], map[], 1, 0))
  {
  }

  /** `blockdev --getsize64`: the configured `disk_size` read against 10
      TiB, or 500107862016 when it is absent or does not parse. */
  lemma BlockdevSize(params: SimParams, cmd: seq<string>, base: Completed)
    requires "--getsize64" in cmd
    ensures params.diskSize.Some? && ParseSizeSpec(params.diskSize.value, ReferenceSize).Ok? ==>
      BlockdevResponse(params, cmd, base).stdout == IntToString(ParseSizeSpec(params.diskSize.value, ReferenceSize).value) + "\n"
    ensures (params.diskSize.None? || ParseSizeSpec(params.diskSize.value, ReferenceSize).Err?) ==>
      BlockdevResponse(params, cmd, base).stdout == "500107862016\n"
  {
    DefaultSizeText();
  }

  lemma DefaultSizeText()
    ensures NatToString(DefaultDiskSize) == "500107862016"
  {
    assert NatToString(5) == "5";
    assert NatToString(50) == "50";
    assert NatToString(500) == "500";
    assert NatToString(5001) == "5001";
    assert NatToString(50010) == "50010";
    assert NatToString(500107) == "500107";
    assert NatToString(5001078) == "5001078";
    assert NatToString(50010786) == "50010786";
    assert NatToString(500107862) == "500107862";
    assert NatToString(5001078620) == "5001078620";
    assert NatToString(50010786201) == "50010786201";
  }

  /** `lsblk -o TYPE` says `disk`. */
  lemma LsblkType(params: SimParams, cmd: seq<string>, base: Completed)
    requires "-o" in cmd && IndexOf(cmd, "-o") + 1 < |cmd| && cmd[IndexOf(cmd, "-o") + 1] == "TYPE"
    ensures LsblkResponse(params, cmd, base) == Ok(base.(stdout := "disk\n"))
  {
    var column := cmd[IndexOf(cmd, "-o") + 1];
    ContainsSameLength(column, "TYPE");
    assert Contains(column, "TYPE");
  }

  /** `lsblk -o MODEL` names the simulated disk type, upper-cased. */
  lemma LsblkModel(params: SimParams, cmd: seq<string>, base: Completed)
    requires "-o" in cmd && IndexOf(cmd, "-o") + 1 < |cmd| && cmd[IndexOf(cmd, "-o") + 1] == "MODEL"
    ensures params.diskType.Some? ==>
      LsblkResponse(params, cmd, base) == Ok(base.(stdout := "SIMULATED " + Upper(params.diskType.value) + " DISK\n"))
    ensures params.diskType.None? ==> LsblkResponse(params, cmd, base) == Ok(base.(stdout := "SIMULATED DISK\n"))
  {
    ContainsSameLength("ODEL", "TYPE");
    assert "MODEL"[1..] == "ODEL";
    assert "MODEL"[..4][0] != "TYPE"[0];
    assert !Contains("MODEL", "TYPE");
    ContainsSameLength("MODEL", "MODEL");
  }

  // ---------------------------------------------------------------------------
  // The runner
  // ---------------------------------------------------------------------------

  class CommandRunner {
    const simulationMode: SimulationMode
    const simulationId: string
    /** The host real commands reach (subprocess.run and the probes). */
    const host: Host
    /** The values successive uuid.uuid4() calls return. */
    const supply: nat -> string
    var simulationParams: SimParams
    var useRealDiskInfo: bool
    var commandsRun: seq<CmdRecord>
    var simulatedUuids: map<string, string>
    var simulatedPartuuids: map<string, string>
    /** How many identifiers have been taken from `supply`. */
    var drawn: nat
    /** How many processes have been started on the host. */
    var realCalls: nat

    function Env(): RunnerEnv
      reads this
    {
      RunnerEnv(simulationMode, simulationParams, useRealDiskInfo, host, supply)
    }

    function State(): RunnerState
      reads this
    {
      RunnerState(commandsRun, simulatedUuids, simulatedPartuuids, drawn, realCalls)
    }

    /** A new runner: empty log and memos; the simulation id is the first
        eight characters of the first identifier drawn. */
    constructor (mode: SimulationMode, host: Host, supply: nat -> string)
      ensures Env() == RunnerEnv(mode, NoParams, false, host, supply)
      ensures State() == RunnerState([], map[], map[], 1, 0)
      ensures simulationId == IdPrefix(supply(0))
    {
      simulationMode := mode;
      this.host := host;
      this.supply := supply;
      simulationId := IdPrefix(supply(0));
      simulationParams := NoParams;
      useRealDiskInfo := false;
      commandsRun := [];
      simulatedUuids := map[];
      simulatedPartuuids := map[];
      drawn := 1;
      realCalls := 0;
    }

    method SetSimulationParams(params: SimParams)
      modifies this`simulationParams
      ensures simulationParams == params
    {
      simulationParams := params;
    }

    /** `run` */
    method Run(cmd: seq<string>, input: Option<string>, check: bool) returns (r: Result<Completed>)
      modifies this
      ensures Env() == old(Env())
      ensures (r, State()) == RunStep(old(Env()), old(State()), cmd, input, check)
    {
      commandsRun := commandsRun + [CmdRecord(cmd, simulationMode == Simulate)];
      if simulationMode == Simulate {
        r := SimulateCommand(cmd, input);
        return;
      }
      r := Execute(cmd, input, check);
    }

    /** `run_real` */
    method RunReal(cmd: seq<string>, input: Option<string>, check: bool) returns (r: Result<Completed>)
      modifies this
      ensures Env() == old(Env())
      ensures (r, State()) == RunRealStep(old(Env()), old(State()), cmd, input, check)
    {
      r := Execute(cmd, input, check);
    }

    method Execute(cmd: seq<string>, input: Option<string>, check: bool) returns (r: Result<Completed>)
      modifies this`realCalls
      ensures (r, State()) == ExecuteStep(Env(), old(State()), cmd, input, check)
    {
      var answer := host.exec(realCalls, cmd, input);
      realCalls := realCalls + 1;
      match answer
      case LaunchFailed(msg) =>
        r := Err(HostFailure(msg));
      case Exited(code, out, err) =>
        if check && code != 0 {
          r := Err(CalledProcess(cmd, code, out, err));
        } else {
          r := Ok(Completed(cmd, code, out, err));
        }
    }

    /** `_simulate_command` */
    method SimulateCommand(cmd: seq<string>, input: Option<string>) returns (r: Result<Completed>)
      modifies this`simulatedUuids, this`simulatedPartuuids, this`drawn
      ensures r == SimResponse(Env(), old(State()), cmd, input)
      ensures State() == SimState(Env(), old(State()), cmd)
    {
      var result := Completed(cmd, 0, "", "");
      var name := SimName(cmd);
      if name == "blkid" {
        result := HandleBlkid(cmd, result);
        r := Ok(result);
      } else if name == "blockdev" {
        r := Ok(BlockdevResponse(simulationParams, cmd, result));
      } else if name == "lsblk" {
        r := LsblkResponse(simulationParams, cmd, result);
      } else if name == "cryptsetup" {
        r := Ok(CryptsetupResponse(cmd, result));
      } else if name == "hdparm" {
        r := Ok(HdparmResponse(simulationParams, cmd, result));
      } else if name == "sfdisk" {
        r := Ok(SfdiskResponse(input, result));
      } else {
        r := Ok(result);
      }
    }

    /** `_handle_blkid_simulation`: fills the memo on first use. */
    method HandleBlkid(cmd: seq<string>, result: Completed) returns (r: Completed)
      modifies this`simulatedUuids, this`simulatedPartuuids, this`drawn
      ensures (r, State()) == BlkidStep(Env(), old(State()), cmd, result)
    {
      r := result;
      if "-s" in cmd && |cmd| > IndexOf(cmd, "-s") + 1 {
        var paramType := cmd[IndexOf(cmd, "-s") + 1];
        var devicePath := cmd[|cmd| - 1];
        if paramType == "UUID" {
          if devicePath !in simulatedUuids {
            simulatedUuids := simulatedUuids[devicePath := supply(drawn)];
            drawn := drawn + 1;
          }
          r := r.(stdout := simulatedUuids[devicePath] + "\n");
        } else if paramType == "PARTUUID" {
          if devicePath !in simulatedPartuuids {
            simulatedPartuuids := simulatedPartuuids[devicePath := supply(drawn)];
            drawn := drawn + 1;
          }
          r := r.(stdout := simulatedPartuuids[devicePath] + "\n");
        }
      }
    }

    /** `get_simulation_report` */
    method GetSimulationReport() returns (report: string)
      ensures report == Report(simulationMode, simulationId, commandsRun)
    {
      if simulationMode != Simulate {
        return "Simulation mode is not active.";
      }
      var grouping := GroupCommands(commandsRun);
      GroupKeys(commandsRun);
      var body := RenderGroups(grouping.order, grouping.groups);
      var lines := ReportHeader(simulationId) + body + ReportFooter(|commandsRun|);
      report := Join(lines, "\n");
    }
  }

  /** The first loop of `get_simulation_report`: `command_groups`, filled
      record by record. */
  method GroupCommands(records: seq<CmdRecord>) returns (grouping: Grouping)
    ensures grouping == GroupsOf(records)
  {
    var order: seq<string> := [];
    var groups: map<string, seq<seq<string>>> := map[];
    var i := 0;
    while i < |records|
      invariant 0 <= i <= |records|
      invariant Grouping(order, groups) == GroupsOf(records[..i])
    {
      var cmd := records[i].command;
      var kind := CommandKind(cmd);
      if kind !in groups {
        order := order + [kind];
        groups := groups[kind := []];
      }
      groups := groups[kind := groups[kind] + [cmd]];
      assert records[..i + 1][..i] == records[..i];
      i := i + 1;
    }
    assert records[..i] == records;
    grouping := Grouping(order, groups);
  }

  /** The second loop of `get_simulation_report`: a title, a rule and the
      numbered commands of each group. */
  method RenderGroups(order: seq<string>, groups: map<string, seq<seq<string>>>) returns (lines: seq<string>)
    requires forall k :: k in order ==> k in groups
    ensures lines == GroupLines(order, groups)
  {
    lines := [];
    var g := 0;
    while g < |order|
      invariant 0 <= g <= |order|
      invariant lines == GroupLines(order[..g], groups)
    {
      var block := RenderBlock(order[g], groups[order[g]]);
      lines := lines + (block + [""]);
      assert order[..g + 1][..g] == order[..g];
      g := g + 1;
    }
    assert order[..g] == order;
  }

  /** One group: its title, a rule, then its commands numbered from 1. */
  method RenderBlock(kind: string, cmds: seq<seq<string>>) returns (block: seq<string>)
    ensures block == GroupTitle(kind) + Numbered(cmds)
  {
    block := GroupTitle(kind);
    var j := 0;
    while j < |cmds|
      invariant 0 <= j <= |cmds|
      invariant block == GroupTitle(kind) + Numbered(cmds[..j])
    {
      block := block + [NatToString(j + 1) + ". " + Join(cmds[j], " ")];
      assert cmds[..j + 1][..j] == cmds[..j];
      j := j + 1;
    }
    assert cmds[..j] == cmds;
  }

  // ---------------------------------------------------------------------------
  // The simulation report
  // ---------------------------------------------------------------------------

  /** The group a logged command is reported under. */
  function CommandKind(cmd: seq<string>): string {
    if cmd != [] then Basename(cmd[0]) else "unknown"
  }

  /** `command_groups`: the dict's key order and its lists. */
  datatype Grouping = Grouping(order: seq<string>, groups: map<string, seq<seq<string>>>)

  /** The grouping the loop of `get_simulation_report` builds from `records`. */
  function GroupsOf(records: seq<CmdRecord>): Grouping {
    if records == [] then Grouping([], map[])
    else
      var prev := GroupsOf(records[..|records| - 1]);
      var cmd := records[|records| - 1].command;
      var kind := CommandKind(cmd);
      var order := if kind in prev.groups then prev.order else prev.order + [kind];
      var groups := if kind in prev.groups then prev.groups else prev.groups[kind := []];
      Grouping(order, groups[kind := groups[kind] + [cmd]])
  }

  /** The commands of `records` whose kind is `kind`, in log order. */
  function CommandsOfKind(records: seq<CmdRecord>, kind: string): (r: seq<seq<string>>)
    ensures |r| <= |records|
  {
    if records == [] then []
    else
      var last := records[|records| - 1];
      CommandsOfKind(records[..|records| - 1], kind)
        + (if CommandKind(last.command) == kind then [last.command] else [])
  }

  /** `c` is the command of some record of the log. */
  predicate Logged(records: seq<CmdRecord>, c: seq<string>) {
    exists i :: 0 <= i < |records| && records[i].command == c
  }

  /** The last record adds its command exactly when it has the kind. */
  lemma CommandsOfKindLast(records: seq<CmdRecord>, kind: string)
    requires records != []
    ensures var last := records[|records| - 1].command;
      CommandsOfKind(records, kind)
        == CommandsOfKind(records[..|records| - 1], kind) + (if CommandKind(last) == kind then [last] else [])
  {
  }

  /** Every listed command is a logged command of that kind. */
  lemma {:induction false} CommandsOfKindSound(records: seq<CmdRecord>, kind: string)
    ensures forall c :: c in CommandsOfKind(records, kind) ==> CommandKind(c) == kind && Logged(records, c)
    decreases |records|
  {
    if records != [] {
      CommandsOfKindSound(records[..|records| - 1], kind);
      forall c | c in CommandsOfKind(records, kind)
        ensures CommandKind(c) == kind && Logged(records, c)
      {
        ListedCommandLogged(records, kind, c);
      }
    }
  }

  /** One step of `CommandsOfKindSound`: a listed command comes from the
      earlier records or is the last one. */
  lemma ListedCommandLogged(records: seq<CmdRecord>, kind: string, c: seq<string>)
    requires records != [] && c in CommandsOfKind(records, kind)
    requires c in CommandsOfKind(records[..|records| - 1], kind) ==>
      CommandKind(c) == kind && Logged(records[..|records| - 1], c)
    ensures CommandKind(c) == kind && Logged(records, c)
  {
    CommandsOfKindLast(records, kind);
    if c in CommandsOfKind(records[..|records| - 1], kind) {
      LoggedInInit(records, c);
    } else {
      LastIsLogged(records, kind, c);
    }
  }

  lemma LoggedInInit(records: seq<CmdRecord>, c: seq<string>)
    requires records != [] && Logged(records[..|records| - 1], c)
    ensures Logged(records, c)
  {
    var init := records[..|records| - 1];
    var i :| 0 <= i < |init| && init[i].command == c;
    assert records[i] == init[i];
  }

  lemma LastIsLogged(records: seq<CmdRecord>, kind: string, c: seq<string>)
    requires records != []
    requires var last := records[|records| - 1].command;
      c in CommandsOfKind(records[..|records| - 1], kind) + (if CommandKind(last) == kind then [last] else [])
    requires c !in CommandsOfKind(records[..|records| - 1], kind)
    ensures CommandKind(c) == kind && Logged(records, c)
  {
    assert records[|records| - 1].command == c;
  }



  /** Every logged command of that kind is listed. */
  lemma CommandsOfKindComplete(records: seq<CmdRecord>, kind: string)
    ensures forall i :: 0 <= i < |records| && CommandKind(records[i].command) == kind ==>
      records[i].command in CommandsOfKind(records, kind)
  {
    forall i | 0 <= i < |records| && CommandKind(records[i].command) == kind
      ensures records[i].command in CommandsOfKind(records, kind)
    {
      CommandOfKindListed(records, kind, i);
    }
  }

  lemma CommandOfKindListed(records: seq<CmdRecord>, kind: string, i: nat)
    requires i < |records| && CommandKind(records[i].command) == kind
    ensures records[i].command in CommandsOfKind(records, kind)
  {
    var upTo := records[..i + 1];
    CommandsOfKindSplit(records, kind, i);
    CommandsOfKindLast(upTo, kind);
    assert upTo[i] == records[i];
  }

  /** The commands of a kind, split after record `i`. */
  lemma CommandsOfKindSplit(records: seq<CmdRecord>, kind: string, i: nat)
    requires i < |records|
    ensures CommandsOfKind(records, kind) == CommandsOfKind(records[..i + 1], kind) + CommandsOfKind(records[i + 1..], kind)
  {
    SplitAt(records, i);
    CommandsOfKindAppend(records[..i + 1], records[i + 1..], kind);
  }





  /** Splitting the log splits the commands of a kind the same way: they
      keep the log's order. */
  lemma {:induction false} CommandsOfKindAppend(a: seq<CmdRecord>, b: seq<CmdRecord>, kind: string)
    ensures CommandsOfKind(a + b, kind) == CommandsOfKind(a, kind) + CommandsOfKind(b, kind)
    decreases |b|
  {
    if b == [] {
      assert a + b == a;
    } else {
      var init := b[..|b| - 1];
      var last := b[|b| - 1].command;
      CommandsOfKindAppend(a, init, kind);
      InitOfAppend(a, b);
      CommandsOfKindLast(a + b, kind);
      CommandsOfKindLast(b, kind);
      Reassociate(CommandsOfKind(a, kind), CommandsOfKind(init, kind), if CommandKind(last) == kind then [last] else []);
    }
  }


  /** The kinds of `records`, each once, in order of first appearance. */
  function FirstAppearances(records: seq<CmdRecord>): seq<string> {
    if records == [] then []
    else
      var prev := FirstAppearances(records[..|records| - 1]);
      var kind := CommandKind(records[|records| - 1].command);
      if kind in prev then prev else prev + [kind]
  }

  /** A sequence without repetitions. */
  predicate Distinct(xs: seq<string>) {
    forall i, j :: 0 <= i < j < |xs| ==> xs[i] != xs[j]
  }

  /** Sum of the group sizes, in key order. */
  function TotalSize(order: seq<string>, groups: map<string, seq<seq<string>>>): nat {
    if order == [] then 0
    else
      var k := order[|order| - 1];
      TotalSize(order[..|order| - 1], groups) + (if k in groups then |groups[k]| else 0)
  }

  /** The grouping is keyed by the kinds in first-appearance order. */
  lemma {:induction false} GroupKeys(records: seq<CmdRecord>)
    ensures GroupsOf(records).order == FirstAppearances(records)
    ensures GroupsOf(records).groups.Keys == set k | k in FirstAppearances(records)
  {
    if records != [] {
      GroupKeys(records[..|records| - 1]);
    }
  }

  /** Each kind appears once in the key order. */
  lemma {:induction false} FirstAppearancesDistinct(records: seq<CmdRecord>)
    ensures Distinct(FirstAppearances(records))
  {
    if records != [] {
      FirstAppearancesDistinct(records[..|records| - 1]);
    }
  }

  /** Each group holds exactly the commands of its kind, in log order. */
  lemma {:induction false} GroupContents(records: seq<CmdRecord>)
    ensures forall k :: k in GroupsOf(records).groups ==> GroupsOf(records).groups[k] == CommandsOfKind(records, k)
  {
    if records != [] {
      var init := records[..|records| - 1];
      GroupContents(init);
      GroupKeys(init);
      var prev := GroupsOf(init);
      var kind := CommandKind(records[|records| - 1].command);
      var cur := GroupsOf(records);
      forall k | k in cur.groups
        ensures cur.groups[k] == CommandsOfKind(records, k)
      {
        if k != kind {
          assert k in prev.groups;
        } else if kind !in prev.groups {
          NoCommandsOfAbsentKind(init, kind);
        }
      }
    }
  }

  /** The groups together hold every logged command once. */
  lemma {:induction false} GroupsTotal(records: seq<CmdRecord>)
    ensures TotalSize(GroupsOf(records).order, GroupsOf(records).groups) == |records|
  {
    if records != [] {
      var init := records[..|records| - 1];
      GroupsTotal(init);
      GroupKeys(init);
      FirstAppearancesDistinct(init);
      var prev := GroupsOf(init);
      var cmd := records[|records| - 1].command;
      var kind := CommandKind(cmd);
      var cur := GroupsOf(records);
      if kind in prev.groups {
        assert kind in prev.order;
        assert cur == Grouping(prev.order, prev.groups[kind := prev.groups[kind] + [cmd]]);
        TotalSizeBump(prev.order, prev.groups, kind, cmd);
      } else {
        assert kind !in prev.order;
        assert cur == Grouping(prev.order + [kind], prev.groups[kind := [cmd]]) by {
          assert [] + [cmd] == [cmd];
          assert prev.groups[kind := []][kind := [cmd]] == prev.groups[kind := [cmd]];
        }
        assert cur.order[..|cur.order| - 1] == prev.order;
        TotalSizeFresh(prev.order, prev.groups, kind, [cmd]);
      }
    }
  }

  /** A kind with no group has no commands. */
  lemma {:induction false} NoCommandsOfAbsentKind(records: seq<CmdRecord>, kind: string)
    requires kind !in FirstAppearances(records)
    ensures CommandsOfKind(records, kind) == []
  {
    if records != [] {
      var init := records[..|records| - 1];
      assert kind !in FirstAppearances(init);
      NoCommandsOfAbsentKind(init, kind);
    }
  }

  /** Appending to the group of a key that occurs once adds one to the total. */
  lemma {:induction false} TotalSizeBump(order: seq<string>, groups: map<string, seq<seq<string>>>, kind: string, cmd: seq<string>)
    requires Distinct(order) && kind in order && kind in groups
    ensures TotalSize(order, groups[kind := groups[kind] + [cmd]]) == TotalSize(order, groups) + 1
  {
    var last := order[|order| - 1];
    var init := order[..|order| - 1];
    if last == kind {
      assert kind !in init;
      TotalSizeFresh(init, groups, kind, groups[kind] + [cmd]);
      TotalSizeFresh(init, groups - {kind}, kind, groups[kind]);
      TotalSizeIgnores(init, groups, kind);
    } else {
      assert kind in init;
      TotalSizeBump(init, groups, kind, cmd);
    }
  }

  /** Setting a key that is not in the order leaves the total alone. */
  lemma {:induction false} TotalSizeFresh(order: seq<string>, groups: map<string, seq<seq<string>>>, kind: string, v: seq<seq<string>>)
    requires kind !in order
    ensures TotalSize(order, groups[kind := v]) == TotalSize(order, groups)
  {
    if order != [] {
      assert order[|order| - 1] != kind;
      TotalSizeFresh(order[..|order| - 1], groups, kind, v);
    }
  }

  /** Removing a key that is not in the order leaves the total alone. */
  lemma {:induction false} TotalSizeIgnores(order: seq<string>, groups: map<string, seq<seq<string>>>, kind: string)
    requires kind !in order
    ensures TotalSize(order, groups - {kind}) == TotalSize(order, groups)
  {
    if order != [] {
      assert order[|order| - 1] != kind;
      TotalSizeIgnores(order[..|order| - 1], groups, kind);
    }
  }

  function ReportHeader(id: string): seq<string> {
    [Repeat('=', 80), "SIMULATION REPORT [ID: " + id + "]", Repeat('=', 80), ""]
  }

  function ReportFooter(total: nat): seq<string> {
    [Repeat('-', 80), "Total commands simulated: " + NatToString(total), Repeat('=', 80)]
  }

  /** `1. cmd`, `2. cmd`, ... */
  function Numbered(cmds: seq<seq<string>>): (r: seq<string>)
    ensures |r| == |cmds|
  {
    if cmds == [] then []
    else Numbered(cmds[..|cmds| - 1]) + [NatToString(|cmds|) + ". " + Join(cmds[|cmds| - 1], " ")]
  }

  function GroupTitle(kind: string): seq<string> {
    [Upper(kind) + " COMMANDS:", Repeat('-', 40)]
  }

  /** The block of lines for each group, in key order. */
  function GroupLines(order: seq<string>, groups: map<string, seq<seq<string>>>): seq<string>
    requires forall k :: k in order ==> k in groups
  {
    if order == [] then []
    else
      var kind := order[|order| - 1];
      GroupLines(order[..|order| - 1], groups)
        + (GroupTitle(kind) + Numbered(groups[kind]) + [""])
  }

  /** The text `get_simulation_report` returns. */
  function Report(mode: SimulationMode, id: string, records: seq<CmdRecord>): string {
    if mode != Simulate then "Simulation mode is not active."
    else
      var g := GroupsOf(records);
      GroupKeys(records);
      Join(ReportHeader(id) + GroupLines(g.order, g.groups) + ReportFooter(|records|), "\n")
  }
}
