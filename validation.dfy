/** architect/utils/validation.py: the privilege and tool checks run before
    anything else, the normalisation of the encryption options, and the
    cryptsetup version gate.

    The host probes (`os.geteuid`, `shutil.which`) are the runner's `Host`.
    Log output is not modelled, except for the two places where a log line is
    the only visible outcome: the warning about missing optional tools and the
    warning that replaces a failed version check; those are returned. */
module Validation {
  import opened Text
  import opened Errors
  import opened Types
  import opened Command

  // ---------------------------------------------------------------------------
  // check_prerequisites
  // ---------------------------------------------------------------------------

  /** Tools every real run needs. */
  const BaseTools: seq<string> := ["parted", "mkfs.fat", "mkfs.ext4", "mkfs.btrfs", "btrfs", "cryptsetup", "blkid", "mount", "umount", "wipefs"]

  /** Tools needed to read the real disk's size and type. */
  const DiskInfoTools: seq<string> := ["blockdev", "lsblk"]

  /** Tools whose absence only disables refinements. */
  const RecommendedTools: seq<string> := ["hdparm"]

  const RootSimMessage := "Root privileges required with --sim-use-real to access disk information"
  const RootMessage := "This script must be run as root"
  const MissingHead := "Missing required tools"
  const SimToolsNote := "\nThese tools are needed to access real disk information even in simulation mode.\n"
  const InstallHint := "Please install the necessary packages for your distribution and try again"
  const OptionalPrefix := "Missing optional tools: "
  const NvmeNote := "NVMe detection tools are missing - TRIM detection will be limited for NVMe drives.\n"
  const HdparmNote := "SATA SSD detection tools are missing - TRIM detection will be limited for SATA SSDs.\n"
  const SimRealAdvice := "Consider installing these tools for better disk detection with --sim-use-real."
  const GeneralAdvice := "These tools are used for advanced features like TRIM detection.\nThe script will still work, but some optimizations may be disabled."

  /** Whether the host itself must be checked: in a real run, or when a
      simulation reads the real disk. */
  predicate CheckReal(mode: SimulationMode, useRealDiskInfo: bool) {
    mode != Simulate || useRealDiskInfo
  }

  function RequiredTools(checkReal: bool): seq<string> {
    if checkReal then BaseTools + DiskInfoTools else BaseTools
  }

  function RootFailure(mode: SimulationMode): string {
    if mode == Simulate then RootSimMessage else RootMessage
  }

  /** The tools `which` does not find, in the order given. */
  function MissingTools(tools: seq<string>, which: string -> bool): (r: seq<string>)
    ensures |r| <= |tools|
    ensures forall t :: t in r <==> t in tools && !which(t)
    ensures r == [] <==> forall t :: t in tools ==> which(t)
  {
    if tools == [] then []
    else
      var last := tools[|tools| - 1];
      MissingTools(tools[..|tools| - 1], which) + (if which(last) then [] else [last])
  }

  /** Probing a list in two parts reports the first part's missing tools,
      then the second's: the report keeps the order of `tools`. */
  lemma {:induction false} MissingToolsAppend(a: seq<string>, b: seq<string>, which: string -> bool)
    ensures MissingTools(a + b, which) == MissingTools(a, which) + MissingTools(b, which)
    decreases |b|
  {
    if b == [] {
      assert a + b == a;
    } else {
      var init := b[..|b| - 1];
      var last := b[|b| - 1];
      MissingToolsAppend(a, init, which);
      InitOfAppend(a, b);
      var tail := if which(last) then [] else [last];
      assert MissingTools(a + b, which) == MissingTools(a + init, which) + tail;
      assert MissingTools(b, which) == MissingTools(init, which) + tail;
      Reassociate(MissingTools(a, which), MissingTools(init, which), tail);
    }
  }

  /** One tool is reported exactly when `which` does not find it. */
  lemma MissingToolSingle(t: string, which: string -> bool)
    ensures MissingTools([t], which) == (if which(t) then [] else [t])
  {
    assert [t][..0] == [];
  }

  function MissingMessage(mode: SimulationMode, missing: seq<string>): string {
    if mode == Simulate then MissingHead + (" for --sim-use-real: " + (Join(missing, ", ") + (SimToolsNote + InstallHint)))
    else MissingHead + (": " + (Join(missing, ", ") + ("\n" + InstallHint)))
  }

  /** The warning about missing optional tools. */
  function OptionalWarning(missing: seq<string>, useRealDiskInfo: bool): string {
    var head := OptionalPrefix + (Join(missing, ", ") + "\n");
    if useRealDiskInfo then
      head + ((if "nvme" in missing then NvmeNote else "") + ((if "hdparm" in missing then HdparmNote else "") + SimRealAdvice))
    else head + GeneralAdvice
  }

  /** What `check_prerequisites` decides: a RuntimeError, or success with
      the optional-tools warning it logs, if any. */
  function PrerequisitesVerdict(mode: SimulationMode, useRealDiskInfo: bool, host: Host): Result<Option<string>> {
    var checkReal := CheckReal(mode, useRealDiskInfo);
    if checkReal && host.euid != 0 then Err(Runtime(RootFailure(mode)))
    else if mode == Simulate && !useRealDiskInfo then Ok(None)
    else
      var missing := MissingTools(RequiredTools(checkReal), host.which);
      if missing != [] then Err(Runtime(MissingMessage(mode, missing)))
      else
        var optional := MissingTools(RecommendedTools, host.which);
        if optional != [] then Ok(Some(OptionalWarning(optional, useRealDiskInfo))) else Ok(None)
  }

  /** `check_prerequisites`: the privilege check, then the two probing loops. */
  method CheckPrerequisites(runner: CommandRunner, useRealDiskInfo: bool) returns (r: Result<Option<string>>)
    ensures r == PrerequisitesVerdict(runner.simulationMode, useRealDiskInfo, runner.host)
  {
    var checkReal := runner.simulationMode != Simulate || useRealDiskInfo;
    if checkReal && runner.host.euid != 0 {
      if runner.simulationMode == Simulate {
        return Err(Runtime(RootSimMessage));
      }
      return Err(Runtime(RootMessage));
    }
    var requiredTools := BaseTools;
    if checkReal {
      requiredTools := requiredTools + DiskInfoTools;
    }
    if runner.simulationMode == Simulate && !useRealDiskInfo {
      return Ok(None);
    }
    var missing := ProbeTools(requiredTools, runner.host.which);
    if missing != [] {
      return Err(Runtime(MissingMessage(runner.simulationMode, missing)));
    }
    var optional := ProbeTools(RecommendedTools, runner.host.which);
    if optional != [] {
      return Ok(Some(OptionalWarning(optional, useRealDiskInfo)));
    }
    r := Ok(None);
  }

  /** One `for tool in ...: if not shutil.which(tool): missing.append(tool)` loop. */
  method ProbeTools(tools: seq<string>, which: string -> bool) returns (missing: seq<string>)
    ensures missing == MissingTools(tools, which)
  {
    missing := [];
    for i := 0 to |tools|
      invariant missing == MissingTools(tools[..i], which)
    {
      assert tools[..i + 1][..i] == tools[..i];
      if !which(tools[i]) {
        missing := missing + [tools[i]];
      }
    }
    assert tools[..|tools|] == tools;
  }

  // ---------------------------------------------------------------------------
  // Properties of check_prerequisites
  // ---------------------------------------------------------------------------

  /** Root is demanded exactly when the host is checked: a real check by a
      user other than root fails with the privilege error; otherwise the
      only error is the missing-tools one, and the user id plays no part
      outside a real check. */
  lemma RootRequiredOnlyWhenReal(mode: SimulationMode, useRealDiskInfo: bool, host: Host)
    ensures var r := PrerequisitesVerdict(mode, useRealDiskInfo, host);
      (CheckReal(mode, useRealDiskInfo) && host.euid != 0 ==> r == Err(Runtime(RootFailure(mode))))
      && (!(CheckReal(mode, useRealDiskInfo) && host.euid != 0) && r.Err? ==> r.error.Runtime? && StartsWith(r.error.msg, MissingHead))
      && (!CheckReal(mode, useRealDiskInfo) ==> r == PrerequisitesVerdict(mode, useRealDiskInfo, host.(euid := 0)))
  {
    var r := PrerequisitesVerdict(mode, useRealDiskInfo, host);
    if !(CheckReal(mode, useRealDiskInfo) && host.euid != 0) && r.Err? {
      assert r.error.msg[..|MissingHead|] == MissingHead;
    }
  }

  /** A pure simulation probes nothing and always passes. */
  lemma PureSimulationPasses(useRealDiskInfo: bool, host: Host)
    requires !useRealDiskInfo
    ensures PrerequisitesVerdict(Simulate, useRealDiskInfo, host) == Ok(None)
  {
  }

  /** The ten base tools are always required, blockdev and lsblk exactly
      when the host is checked. */
  lemma RequiredToolsContents(checkReal: bool)
    ensures forall t :: t in BaseTools ==> t in RequiredTools(checkReal)
    ensures "blockdev" in RequiredTools(checkReal) <==> checkReal
    ensures "lsblk" in RequiredTools(checkReal) <==> checkReal
    ensures |RequiredTools(checkReal)| == if checkReal then 12 else 10
  {
    assert "blockdev" !in BaseTools;
    assert "lsblk" !in BaseTools;
  }

  /** Once the privilege check has passed outside pure simulation, a
      RuntimeError is raised exactly when a required tool is missing, and
      its message names every missing tool. */
  lemma MissingToolsRaise(mode: SimulationMode, useRealDiskInfo: bool, host: Host)
    requires CheckReal(mode, useRealDiskInfo) && host.euid == 0
    ensures var r := PrerequisitesVerdict(mode, useRealDiskInfo, host);
      var required := RequiredTools(true);
      (r.Err? <==> exists t :: t in required && !host.which(t))
      && (r.Err? ==> r.error.Runtime? && forall t :: t in required && !host.which(t) ==> Contains(r.error.msg, t))
  {
    var missing := MissingTools(RequiredTools(true), host.which);
    if missing != [] {
      assert missing[0] in RequiredTools(true) && !host.which(missing[0]);
      forall t | t in missing
        ensures Contains(MissingMessage(mode, missing), t)
      {
        MissingMessageNames(mode, missing, t);
      }
    }
  }

  /** The missing-tools message names each tool it is given. */
  lemma MissingMessageNames(mode: SimulationMode, missing: seq<string>, t: string)
    requires t in missing
    ensures Contains(MissingMessage(mode, missing), t)
  {
    var i :| 0 <= i < |missing| && missing[i] == t;
    JoinContainsPart(missing, ", ", i);
    if mode == Simulate {
      ContainsInMiddle(" for --sim-use-real: ", Join(missing, ", "), SimToolsNote + InstallHint, t);
      var tail := " for --sim-use-real: " + (Join(missing, ", ") + (SimToolsNote + InstallHint));
      ContainsInMiddle(MissingHead, tail, "", t);
      assert tail + "" == tail;
    } else {
      var tail := ": " + (Join(missing, ", ") + ("\n" + InstallHint));
      ContainsInMiddle(": ", Join(missing, ", "), "\n" + InstallHint, t);
      ContainsInMiddle(MissingHead, tail, "", t);
      assert tail + "" == tail;
    }
  }

  /** A missing hdparm never stops the run: with every required tool
      present, the check passes, and warns exactly when hdparm is missing.
      The warning can only ever list hdparm, so its NVMe sentence is never
      added. */
  lemma HdparmOnlyWarns(mode: SimulationMode, useRealDiskInfo: bool, host: Host)
    requires CheckReal(mode, useRealDiskInfo) && host.euid == 0
    requires forall t :: t in RequiredTools(true) ==> host.which(t)
    ensures var r := PrerequisitesVerdict(mode, useRealDiskInfo, host);
      r.Ok?
      && (r.value.Some? <==> !host.which("hdparm"))
      && (r.value.Some? ==> r.value.value == OptionalWarning(["hdparm"], useRealDiskInfo))
      && "nvme" !in MissingTools(RecommendedTools, host.which)
  {
    var optional := MissingTools(RecommendedTools, host.which);
    assert RecommendedTools[..0] == [];
  }

  /** Each part of a join occurs in it. */
  lemma {:induction false} JoinContainsPart(parts: seq<string>, sep: string, i: nat)
    requires i < |parts|
    ensures Contains(Join(parts, sep), parts[i])
  {
    var j := Join(parts, sep);
    if |parts| == 1 {
      ContainsAt(j, parts[i], 0);
    } else if i == 0 {
      assert j == parts[0] + (sep + Join(parts[1..], sep));
      assert j[0..|parts[0]|] == parts[0];
      ContainsAt(j, parts[0], 0);
    } else {
      JoinContainsPart(parts[1..], sep, i - 1);
      ContainsInMiddle(parts[0] + sep, Join(parts[1..], sep), "", parts[i]);
      assert (parts[0] + sep) + (Join(parts[1..], sep) + "") == j;
    }
  }

  /** A substring of the middle part is a substring of the whole. */
  lemma ContainsInMiddle(a: string, b: string, c: string, sub: string)
    requires Contains(b, sub)
    ensures Contains(a + (b + c), sub)
  {
    var i := ContainsWitness(b, sub);
    var s := a + (b + c);
    assert s[|a| + i..|a| + i + |sub|] == b[i..i + |sub|];
    ContainsAt(s, sub, |a| + i);
  }

  // ---------------------------------------------------------------------------
  // normalize_encryption_args
  // ---------------------------------------------------------------------------

  /** Whether any of the three separate `--hardware-encryption-*` options was given. */
  predicate SeparateSecretsGiven(args: Args) {
    args.hwPsid != "" || args.hwAdmin != "" || args.hwPass != ""
  }

  /** `normalize_encryption_args`: the separate options, when any is given,
      replace the legacy triple; a missing PSID becomes "none". */
  function NormalizeEncryptionArgs(args: Args): (r: Args)
  {
    if SeparateSecretsGiven(args) then
      args.(hardwareEncryption := Some(HwSecrets(if args.hwPsid != "" then args.hwPsid else "none", args.hwAdmin, args.hwPass)))
    else args
  }

  /** Normalisation changes nothing but the hardware-encryption triple, and
      changes that only when a separate option was given; hardware
      encryption is then requested, with a non-empty PSID. */
  lemma NormalizeEffect(args: Args)
    ensures var r := NormalizeEncryptionArgs(args);
      r == args.(hardwareEncryption := r.hardwareEncryption)
      && (!SeparateSecretsGiven(args) ==> r == args)
      && (r.HardwareRequested() <==> args.HardwareRequested() || SeparateSecretsGiven(args))
      && (SeparateSecretsGiven(args) ==>
            r.hardwareEncryption.value.psid != "" && r.hardwareEncryption.value.admin == args.hwAdmin
            && r.hardwareEncryption.value.luks == args.hwPass
            && (args.hwPsid != "" ==> r.hardwareEncryption.value.psid == args.hwPsid))
  {
  }

  /** Normalising twice is normalising once. */
  lemma NormalizeIdempotent(args: Args)
    ensures NormalizeEncryptionArgs(NormalizeEncryptionArgs(args)) == NormalizeEncryptionArgs(args)
  {
  }

  // ---------------------------------------------------------------------------
  // validate_encryption_requirements: the version gate
  // ---------------------------------------------------------------------------

  datatype Version = Version(major: nat, minor: nat, patch: nat)

  /** `\d+` at `i`: the value of the run of digits there and where it
      ends, if the run is not empty. */
  function ReadNumber(s: string, i: nat): (r: Option<(nat, nat)>)
    requires i <= |s|
    ensures r.Some? ==> i < r.value.1 <= |s|
  {
    var n := DigitRun(s[i..]);
    assert s[i..][..n] == s[i..i + n];
    if n == 0 then None else Some((DigitsValue(s[i..i + n]), i + n))
  }

  /** The match of `(\d+)\.(\d+)\.(\d+)` that starts at `i`, if there is one.
      Each `\d+` is greedy and can only give back digits, which the next
      `\.` would not accept, so each group is the whole run of digits. */
  function VersionAt(s: string, i: nat): Option<Version>
    requires i <= |s|
  {
    match ReadNumber(s, i)
    case None => None
    case Some((major, j)) =>
      if j == |s| || s[j] != '.' then None
      else
        match ReadNumber(s, j + 1)
        case None => None
        case Some((minor, k)) =>
          if k == |s| || s[k] != '.' then None
          else
            match ReadNumber(s, k + 1)
            case None => None
            case Some((patch, _)) => Some(Version(major, minor, patch))
  }

  /** `re.search`: the leftmost match at or after `from`. */
  function SearchVersion(s: string, from: nat): Option<Version>
    requires from <= |s|
    decreases |s| - from
  {
    if VersionAt(s, from).Some? then VersionAt(s, from)
    else if from == |s| then None
    else SearchVersion(s, from + 1)
  }

  /** How a version is written: `X.Y.Z` in decimal. */
  function VersionString(v: Version): string {
    NatToString(v.major) + ("." + (NatToString(v.minor) + ("." + NatToString(v.patch))))
  }

  /** Hardware (OPAL) encryption needs cryptsetup 2.6.0 or newer. */
  predicate TooOld(v: Version) {
    v.major < 2 || (v.major == 2 && v.minor < 6)
  }

  predicate EncryptionRequested(args: Args) {
    args.HardwareRequested() || args.SoftwareRequested() || SeparateSecretsGiven(args)
  }

  predicate OpalRequested(args: Args) {
    args.HardwareRequested() || args.hwPass != ""
  }

  const VersionCommand: seq<string> := ["cryptsetup", "--version"]
  const TooOldPrefix := "Opal hardware encryption requires cryptsetup 2.6.0 or newer.\nFound version: "
  const TooOldSuffix := "\nPlease upgrade cryptsetup and try again."
  const CheckWarning := "Could not check cryptsetup version: "

  /** The EncryptionError the gate raises for the `cryptsetup --version`
      output, if any. */
  function VersionGate(args: Args, stdout: string): Option<string> {
    var versionStr := Strip(stdout);
    match SearchVersion(versionStr, 0)
    case None => None
    case Some(v) => if OpalRequested(args) && TooOld(v) then Some(TooOldPrefix + (versionStr + TooOldSuffix)) else None
  }

  /** `validate_encryption_requirements`: when encryption is requested,
      run `cryptsetup --version` unchecked and apply the gate; whatever goes
      wrong, the gate's own error included, is caught and becomes the
      returned warning. */
  function ValidateStep(env: RunnerEnv, st: RunnerState, args: Args): (Option<string>, RunnerState) {
    if !EncryptionRequested(args) then (None, st)
    else
      var (r, st1) := RunStep(env, st, VersionCommand, None, false);
      if r.Err? then (Some(CheckWarning + Describe(r.error)), st1)
      else
        match VersionGate(args, r.value.stdout)
        case Some(msg) => (Some(CheckWarning + msg), st1)
        case None => (None, st1)
  }

  method ValidateEncryptionRequirements(args: Args, runner: CommandRunner) returns (warning: Option<string>)
    modifies runner
    ensures runner.Env() == old(runner.Env())
    ensures (warning, runner.State()) == ValidateStep(old(runner.Env()), old(runner.State()), args)
  {
    if !(args.HardwareRequested() || args.SoftwareRequested() || args.hwPsid != "" || args.hwAdmin != "" || args.hwPass != "") {
      return None;
    }
    var result := runner.Run(VersionCommand, None, false);
    if result.Err? {
      return Some(CheckWarning + Describe(result.error));
    }
    var versionStr := Strip(result.value.stdout);
    var found := SearchVersion(versionStr, 0);
    if found.Some? {
      var v := found.value;
      if (args.HardwareRequested() || args.hwPass != "") && (v.major < 2 || (v.major == 2 && v.minor < 6)) {
        return Some(CheckWarning + (TooOldPrefix + (versionStr + TooOldSuffix)));
      }
    }
    warning := None;
  }

  // ---------------------------------------------------------------------------
  // Properties of the version gate
  // ---------------------------------------------------------------------------

  /** Reading back a written version: a version written after text without
      digits, and not followed by a digit, is the one the search finds. */
  lemma FindsWrittenVersion(prefix: string, v: Version, rest: string)
    requires forall i :: 0 <= i < |prefix| ==> !IsDigit(prefix[i])
    requires rest == [] || !IsDigit(rest[0])
    ensures SearchVersion(prefix + (VersionString(v) + rest), 0) == Some(v)
  {
    var s := prefix + (VersionString(v) + rest);
    SearchSkipsText(s, 0, |prefix|);
    VersionAtWritten(prefix, v, rest);
  }

  lemma VersionAtWritten(prefix: string, v: Version, rest: string)
    requires rest == [] || !IsDigit(rest[0])
    ensures VersionAt(prefix + (VersionString(v) + rest), |prefix|) == Some(v)
  {
    var A, B, C := NatToString(v.major), NatToString(v.minor), NatToString(v.patch);
    var s := prefix + (VersionString(v) + rest);
    var i := |prefix|;
    assert s[i..] == A + ("." + (B + ("." + (C + rest)))) by {
      assert s[i..] == VersionString(v) + rest;
      Reassociate(A, "." + (B + ("." + C)), rest);
      Reassociate(".", B + ("." + C), rest);
      Reassociate(B, "." + C, rest);
      Reassociate(".", C, rest);
    }
    VersionAtSuffix(s, i, v, rest);
  }

  /** The suffix-based core of `VersionAtWritten`. */
  lemma VersionAtSuffix(s: string, i: nat, v: Version, rest: string)
    requires rest == [] || !IsDigit(rest[0])
    requires i <= |s|
    requires s[i..] == NatToString(v.major) + ("." + (NatToString(v.minor) + ("." + (NatToString(v.patch) + rest))))
    ensures VersionAt(s, i) == Some(v)
  {
    var A, B, C := NatToString(v.major), NatToString(v.minor), NatToString(v.patch);
    var afterMajor := "." + (B + ("." + (C + rest)));
    NumberAt(s, i, v.major, afterMajor);
    var j := i + |A|;
    assert ReadNumber(s, i) == Some((v.major, j)) && s[j..] == afterMajor;
    DotAt(s, j, B + ("." + (C + rest)));
    var afterMinor := "." + (C + rest);
    NumberAt(s, j + 1, v.minor, afterMinor);
    var k := j + 1 + |B|;
    assert ReadNumber(s, j + 1) == Some((v.minor, k)) && s[k..] == afterMinor;
    DotAt(s, k, C + rest);
    NumberAt(s, k + 1, v.patch, rest);
    assert ReadNumber(s, k + 1).Some? && ReadNumber(s, k + 1).value.0 == v.patch;
    VersionAtFromReads(s, i, j, k, v);
  }

  /** Three numbers separated by dots make a match. */
  lemma VersionAtFromReads(s: string, i: nat, j: nat, k: nat, v: Version)
    requires i <= j < k < |s| && s[j] == '.' && s[k] == '.'
    requires ReadNumber(s, i) == Some((v.major, j))
    requires ReadNumber(s, j + 1) == Some((v.minor, k))
    requires ReadNumber(s, k + 1).Some? && ReadNumber(s, k + 1).value.0 == v.patch
    ensures VersionAt(s, i) == Some(v)
  {
  }

  /** A number written at `i` and followed by a non-digit is read back by
      `ReadNumber`. */
  lemma NumberAt(s: string, i: nat, n: nat, after: string)
    requires i <= |s| && s[i..] == NatToString(n) + after
    requires after == [] || !IsDigit(after[0])
    ensures var e := i + |NatToString(n)|;
      e <= |s| && ReadNumber(s, i) == Some((n, e)) && s[e..] == after
  {
    var t := NatToString(n);
    assert s[i..i + |t|] == s[i..][..|t|] == t;
    assert s[i + |t|..] == s[i..][|t|..] == after;
    assert i + |t| == |s| || s[i + |t|] == s[i + |t|..][0];
    DigitRunPrefix(t, after);
    DigitsValueOfNatToString(n);
  }

  /** A dot at `i`, and what follows it. */
  lemma DotAt(s: string, i: nat, after: string)
    requires i <= |s| && s[i..] == "." + after
    ensures i < |s| && s[i] == '.' && s[i + 1..] == after
  {
    assert s[i] == s[i..][0];
    assert s[i + 1..] == s[i..][1..];
  }

  /** The search passes over text without digits. */
  lemma {:induction false} SearchSkipsText(s: string, from: nat, to: nat)
    requires from <= to <= |s|
    requires forall i :: from <= i < to ==> !IsDigit(s[i])
    ensures SearchVersion(s, from) == SearchVersion(s, to)
    decreases |s| - from
  {
    if from < to {
      assert ReadNumber(s, from).None?;
      SearchSkipsText(s, from + 1, to);
    }
  }

  /** The search returns the leftmost match, and finds nothing only when
      there is no match at all. */
  lemma {:induction false} SearchFindsLeftmost(s: string, from: nat)
    requires from <= |s|
    ensures var r := SearchVersion(s, from);
      (r.Some? ==> exists i :: LeftmostMatch(s, from, i, r))
      && (r.None? ==> NoMatchFrom(s, from))
    decreases |s| - from
  {
    if VersionAt(s, from).None? && from < |s| {
      SearchFindsLeftmost(s, from + 1);
      var r := SearchVersion(s, from);
      if r.Some? {
        var i :| LeftmostMatch(s, from + 1, i, r);
        LeftmostExtends(s, from, i, r);
      } else {
        NoMatchExtends(s, from);
      }
    } else if VersionAt(s, from).Some? {
      assert LeftmostMatch(s, from, from, SearchVersion(s, from));
    } else {
      assert NoMatchFrom(s, from);
    }
  }

  /** `i` is where `r` matches, with no match between `from` and `i`. */
  predicate LeftmostMatch(s: string, from: nat, i: nat, r: Option<Version>) {
    from <= i <= |s| && VersionAt(s, i) == r && forall j :: from <= j < i ==> VersionAt(s, j).None?
  }

  /** Nothing matches at or after `from`. */
  predicate NoMatchFrom(s: string, from: nat) {
    forall j :: from <= j <= |s| ==> VersionAt(s, j).None?
  }

  lemma LeftmostExtends(s: string, from: nat, i: nat, r: Option<Version>)
    requires from < |s| && VersionAt(s, from).None? && LeftmostMatch(s, from + 1, i, r)
    ensures LeftmostMatch(s, from, i, r)
  {
  }

  lemma NoMatchExtends(s: string, from: nat)
    requires from < |s| && VersionAt(s, from).None? && NoMatchFrom(s, from + 1)
    ensures NoMatchFrom(s, from)
  {
  }

  /** The gate: an error exactly when OPAL is requested and the first
      version found is older than 2.6.0; the error quotes the version text. */
  lemma VersionGateSpec(args: Args, stdout: string)
    ensures var g := VersionGate(args, stdout);
      var found := SearchVersion(Strip(stdout), 0);
      (g.Some? <==> OpalRequested(args) && found.Some? && TooOld(found.value))
      && (g.Some? ==> StartsWith(g.value, TooOldPrefix) && EndsWith(g.value, Strip(stdout) + TooOldSuffix))
  {
    var g := VersionGate(args, stdout);
    if g.Some? {
      var t := Strip(stdout) + TooOldSuffix;
      assert g.value == TooOldPrefix + t;
      assert g.value[..|TooOldPrefix|] == TooOldPrefix;
      assert g.value[|g.value| - |t|..] == t;
    }
  }

  /** The check never raises: the command is issued exactly when encryption
      is requested, and what the gate decides only changes the warning, not
      the runner. */
  lemma ValidateOnlyWarns(env: RunnerEnv, st: RunnerState, args: Args)
    ensures var (w, st') := ValidateStep(env, st, args);
      (!EncryptionRequested(args) ==> w.None? && st' == st)
      && (EncryptionRequested(args) ==>
            st' == RunStep(env, st, VersionCommand, None, false).1
            && st'.commandsRun == st.commandsRun + [CmdRecord(VersionCommand, env.mode == Simulate)])
  {
    RunLogsOnce(env, st, VersionCommand, None, false);
  }

  /** A too-old cryptsetup is only reported: the warning carries the
      gate's message. */
  lemma TooOldIsSwallowed(env: RunnerEnv, st: RunnerState, args: Args)
    requires EncryptionRequested(args)
    requires var r := RunStep(env, st, VersionCommand, None, false).0;
      r.Ok? && VersionGate(args, r.value.stdout).Some?
    ensures var r := RunStep(env, st, VersionCommand, None, false).0;
      ValidateStep(env, st, args).0 == Some(CheckWarning + VersionGate(args, r.value.stdout).value)
  {
  }

  /** The simulated answer, stripped, is a version written after its name. */
  lemma SimulatedVersionText()
    ensures Strip("cryptsetup 2.6.1\n") == "cryptsetup " + (VersionString(Version(2, 6, 1)) + "")
  {
    assert NatToString(2) == "2" && NatToString(6) == "6" && NatToString(1) == "1";
    assert Strip("cryptsetup 2.6.1\n") == "cryptsetup 2.6.1";
  }

  /** The simulated cryptsetup reports 2.6.1, which the gate accepts. */
  lemma SimulatedVersionAccepted(env: RunnerEnv, st: RunnerState, args: Args)
    requires env.mode == Simulate
    ensures ValidateStep(env, st, args).0.None?
  {
    if EncryptionRequested(args) {
      SimulatedVersionOutput(env, st);
      SimulatedGateOpen(args);
    }
  }

  lemma SimulatedVersionOutput(env: RunnerEnv, st: RunnerState)
    requires env.mode == Simulate
    ensures RunStep(env, st, VersionCommand, None, false).0 == Ok(Completed(VersionCommand, 0, "cryptsetup 2.6.1\n", ""))
  {
    BasenameOfName("cryptsetup");
  }

  lemma SimulatedGateOpen(args: Args)
    ensures VersionGate(args, "cryptsetup 2.6.1\n").None?
  {
    SimulatedVersionText();
    FindsWrittenVersion("cryptsetup ", Version(2, 6, 1), "");
  }
}
