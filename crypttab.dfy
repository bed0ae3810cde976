/** architect/config/crypttab.py: the /etc/crypttab entry for the encrypted
    system partition, in the four-field format of crypttab(5)
    (`<target name> <source device> <key file> <options>`). */
module Crypttab {
  import opened Text
  import opened Errors
  import opened Types
  import opened Command
  import Mount

  /** The four comment lines every generated file starts with (the long
      ones written in pieces). */
  const HeaderLines: seq<string> := [
    "# /etc/crypttab: " + "mappings for " + "encrypted partitions.",
    "# Generated by architect",
    "#",
    "# <target name> " + "<source device> " + "<key file> <options>"]

  const BaseOptions: seq<string> := ["luks", "timeout=180"]

  const FailurePrefix := "Failed to generate crypttab: "

  /** A file the stage writes, and what it writes into it. */
  datatype FileWrite = FileWrite(path: string, content: string)

  /** What `generate_crypttab` did: nothing, or the lines it composed, with
      the file write it made (none in simulation, where the lines are only
      shown). */
  datatype Outcome =
    | Skipped
    | Generated(lines: seq<string>, file: Option<FileWrite>)

  /** The blkid query for the PARTUUID of the encrypted partition. */
  function PartuuidCommand(device: string): seq<string> {
    ["blkid", "-s", "PARTUUID", "-o", "value", device]
  }

  /** `<target>/etc/crypttab` */
  function CrypttabPath(target: string): string {
    PathJoin(PathJoin(target, "etc"), "crypttab")
  }

  /** The option list: `discard` is added for a non-rotational disk with TRIM. */
  function CrypttabOptions(info: DiskInfo): seq<string> {
    if !info.rotational && info.trimSupported then BaseOptions + ["discard"] else BaseOptions
  }

  /** The entry line for the LUKS device. */
  function EntryLine(name: string, partuuid: string, options: string): string {
    name + " PARTUUID=" + partuuid + " none " + options
  }

  /** The whole file as a list of lines. */
  function CrypttabLines(name: string, partuuid: string, info: DiskInfo): seq<string> {
    HeaderLines + [EntryLine(name, partuuid, Join(CrypttabOptions(info), ","))]
  }

  /** The text written: the lines joined by newlines, with a final newline. */
  function FileContent(lines: seq<string>): string {
    Join(lines, "\n") + "\n"
  }

  /** Every failure inside the stage's `try` becomes a CrypttabError. */
  function Wrap(e: Error): Error {
    Crypttab(FailurePrefix + Describe(e))
  }

  /** `generate_crypttab` */
  function GenerateStep(env: RunnerEnv, st: RunnerState, partitions: PartitionTable, info: DiskInfo, args: Args): (Result<Outcome>, RunnerState) {
    if !args.generateCrypttab || "system_crypt" !in partitions then (Ok(Skipped), st)
    else
      var (r, st1) := RunStep(env, st, PartuuidCommand(partitions["system_crypt"]), None, true);
      if r.Err? then (Err(Wrap(r.error)), st1)
      else if "system" !in partitions then (Err(Wrap(KeyMissing("system"))), st1)
      else
        var lines := CrypttabLines(Basename(partitions["system"]), Strip(r.value.stdout), info);
        if env.mode == Simulate then (Ok(Generated(lines, None)), st1)
        else (Ok(Generated(lines, Some(FileWrite(CrypttabPath(args.target), FileContent(lines))))), st1)
  }

  method GenerateCrypttab(partitions: PartitionTable, info: DiskInfo, args: Args, runner: CommandRunner) returns (r: Result<Outcome>)
    modifies runner
    ensures runner.Env() == old(runner.Env())
    ensures (r, runner.State()) == GenerateStep(old(runner.Env()), old(runner.State()), partitions, info, args)
  {
    if !args.generateCrypttab || "system_crypt" !in partitions {
      return Ok(Skipped);
    }
    var crypttabPath := PathJoin(PathJoin(args.target, "etc"), "crypttab");
    var result := runner.Run(PartuuidCommand(partitions["system_crypt"]), None, true);
    if result.Err? {
      return Err(Wrap(result.error));
    }
    var encryptedPartuuid := Strip(result.value.stdout);
    if "system" !in partitions {
      return Err(Wrap(KeyMissing("system")));
    }
    var luksName := Basename(partitions["system"]);
    var content: seq<string> := [];
    content := content + ["# /etc/crypttab: " + "mappings for " + "encrypted partitions."];
    content := content + ["# Generated by architect"];
    content := content + ["#"];
    content := content + ["# <target name> " + "<source device> " + "<key file> <options>"];
    var options := ["luks", "timeout=180"];
    if !info.rotational && info.trimSupported {
      options := options + ["discard"];
    }
    var optionsStr := Join(options, ",");
    content := content + [luksName + " PARTUUID=" + encryptedPartuuid + " none " + optionsStr];
    assert options == CrypttabOptions(info);
    assert content == CrypttabLines(luksName, encryptedPartuuid, info);
    if runner.simulationMode == Simulate {
      return Ok(Generated(content, None));
    }
    r := Ok(Generated(content, Some(FileWrite(crypttabPath, Join(content, "\n") + "\n"))));
  }

  // ---------------------------------------------------------------------------
  // Properties
  // ---------------------------------------------------------------------------

  /** Nothing is probed and nothing is produced unless crypttab generation
      was asked for and there is an encrypted system partition; otherwise
      the stage reports an outcome or a failure, never a skip. */
  lemma SkippedExactlyWhenNotRequested(env: RunnerEnv, st: RunnerState, partitions: PartitionTable, info: DiskInfo, args: Args)
    ensures var (r, st') := GenerateStep(env, st, partitions, info, args);
      (r == Ok(Skipped) <==> !args.generateCrypttab || "system_crypt" !in partitions)
      && (r == Ok(Skipped) ==> st' == st)
  {
  }

  /** A stage that runs issues exactly one command, the PARTUUID query for
      the encrypted partition. */
  lemma GenerateLog(env: RunnerEnv, st: RunnerState, partitions: PartitionTable, info: DiskInfo, args: Args)
    requires args.generateCrypttab && "system_crypt" in partitions
    ensures GenerateStep(env, st, partitions, info, args).1.commandsRun
      == st.commandsRun + [CmdRecord(["blkid", "-s", "PARTUUID", "-o", "value", partitions["system_crypt"]], env.mode == Simulate)]
  {
    RunLogsOnce(env, st, PartuuidCommand(partitions["system_crypt"]), None, true);
  }

  /** Every failure is a CrypttabError that names its cause; it comes from a
      failed PARTUUID query (OSError, or a non-zero exit outside simulation)
      or from a missing `system` entry. */
  lemma GenerateErrors(env: RunnerEnv, st: RunnerState, partitions: PartitionTable, info: DiskInfo, args: Args)
    ensures var r := GenerateStep(env, st, partitions, info, args).0;
      r.Err? ==>
        r.error.Crypttab? && StartsWith(r.error.msg, FailurePrefix)
        && ("system" in partitions ==> env.mode != Simulate)
  {
    var r := GenerateStep(env, st, partitions, info, args).0;
    if r.Err? {
      var cmd := PartuuidCommand(partitions["system_crypt"]);
      assert SimName(cmd) == "blkid" by {
        BasenameOfName("blkid");
      }
      RunErrors(env, st, cmd, None, true);
      var probe := RunStep(env, st, cmd, None, true).0;
      if probe.Err? {
        PrefixStarts(FailurePrefix, Describe(probe.error));
      } else {
        PrefixStarts(FailurePrefix, Describe(KeyMissing("system")));
      }
    }
  }

  lemma PrefixStarts(p: string, s: string)
    ensures StartsWith(p + s, p)
  {
    assert (p + s)[..|p|] == p;
  }

  /** In simulation the stage fails only when the `system` entry is missing. */
  lemma SimulatedGenerateSucceeds(env: RunnerEnv, st: RunnerState, partitions: PartitionTable, info: DiskInfo, args: Args)
    requires env.mode == Simulate && "system" in partitions
    ensures GenerateStep(env, st, partitions, info, args).0.Ok?
  {
    var r := GenerateStep(env, st, partitions, info, args).0;
    if r.Err? {
      GenerateErrors(env, st, partitions, info, args);
    }
  }

  /** A generated file holds the header and one entry, and it is written,
      to `<target>/etc/crypttab`, exactly outside simulation. */
  lemma GeneratedShape(env: RunnerEnv, st: RunnerState, partitions: PartitionTable, info: DiskInfo, args: Args)
    ensures var r := GenerateStep(env, st, partitions, info, args).0;
      r.Ok? && r.value.Generated? ==>
        |r.value.lines| == 5 && r.value.lines[..4] == HeaderLines
        && (r.value.file.Some? <==> env.mode != Simulate)
        && (r.value.file.Some? ==> r.value.file.value == FileWrite(CrypttabPath(args.target), FileContent(r.value.lines)))
  {
    var r := GenerateStep(env, st, partitions, info, args).0;
    if r.Ok? && r.value.Generated? {
      assert r.value.lines[..4] == HeaderLines;
    }
  }

  /** The entry's fields, as a reader of crypttab(5) splits them at spaces:
      the mapper name (the base name of the system device), the PARTUUID
      source, no key file, and the options. */
  lemma EntryFields(name: string, partuuid: string, info: DiskInfo)
    requires ' ' !in name && ' ' !in partuuid
    ensures Split(EntryLine(name, partuuid, Join(CrypttabOptions(info), ",")), ' ')
      == [name, "PARTUUID=" + partuuid, "none", Join(CrypttabOptions(info), ",")]
  {
    var opts := Join(CrypttabOptions(info), ",");
    OptionsHaveNoSpace(info);
    var fields := [name, "PARTUUID=" + partuuid, "none", opts];
    assert ' ' !in "PARTUUID=" + partuuid;
    assert EntryLine(name, partuuid, opts) == Join(fields, " ") by {
      assert fields[1..][1..] == ["none", opts];
      assert Join(fields[1..][1..], " ") == "none" + " " + opts;
    }
    SplitJoin(fields, ' ');
  }

  lemma OptionsHaveNoSpace(info: DiskInfo)
    ensures ' ' !in Join(CrypttabOptions(info), ",")
  {
    OptionWordsPlain(info);
    CharNotInJoin(CrypttabOptions(info), ",", ' ');
  }

  /** No option word holds a space, a newline or a comma. */
  lemma OptionWordsPlain(info: DiskInfo)
    ensures var opts := CrypttabOptions(info);
      forall i :: 0 <= i < |opts| ==> ' ' !in opts[i] && '\n' !in opts[i] && ',' !in opts[i]
  {
    assert ' ' !in "timeout=180" && '\n' !in "timeout=180" && ',' !in "timeout=180";
  }

  /** The options field reads back, at its commas, as `luks`, `timeout=180`
      and, exactly for a non-rotational disk with TRIM, `discard`. */
  lemma OptionsField(info: DiskInfo)
    ensures var fields := Split(Join(CrypttabOptions(info), ","), ',');
      fields[..2] == ["luks", "timeout=180"]
      && ("discard" in fields <==> !info.rotational && info.trimSupported)
      && |fields| == (if !info.rotational && info.trimSupported then 3 else 2)
  {
    var opts := CrypttabOptions(info);
    OptionWordsPlain(info);
    SplitJoin(opts, ',');
  }

  /** The crypttab entry asks for discards exactly when the mount options do. */
  lemma DiscardAgreesWithMounts(info: DiskInfo)
    ensures "discard" in CrypttabOptions(info) <==> Mount.WantsDiscard(info)
  {
  }

  /** The written text gives back the lines when split at newlines (the
      final newline leaves one empty piece), provided neither the name nor
      the PARTUUID holds a newline. */
  lemma ContentReadsBack(name: string, partuuid: string, info: DiskInfo)
    requires '\n' !in name && '\n' !in partuuid
    ensures var lines := CrypttabLines(name, partuuid, info);
      Split(FileContent(lines), '\n') == lines + [""]
  {
    var lines := CrypttabLines(name, partuuid, info);
    LinesHaveNoNewline(name, partuuid, info);
    assert forall i :: 0 <= i < |lines + [""]| ==> '\n' !in (lines + [""])[i] by {
      forall i | 0 <= i < |lines + [""]|
        ensures '\n' !in (lines + [""])[i]
      {
        if i < |lines| {
          assert (lines + [""])[i] == lines[i];
        }
      }
    }
    JoinTrailing(lines, "\n");
    SplitJoin(lines + [""], '\n');
  }

  lemma LinesHaveNoNewline(name: string, partuuid: string, info: DiskInfo)
    requires '\n' !in name && '\n' !in partuuid
    ensures var lines := CrypttabLines(name, partuuid, info);
      forall i :: 0 <= i < |lines| ==> '\n' !in lines[i]
  {
    var opts := Join(CrypttabOptions(info), ",");
    OptionWordsPlain(info);
    CharNotInJoin(CrypttabOptions(info), ",", '\n');
    assert '\n' !in EntryLine(name, partuuid, opts);
    HeaderHasNoNewline();
  }

  lemma HeaderHasNoNewline()
    ensures forall i :: 0 <= i < |HeaderLines| ==> '\n' !in HeaderLines[i]
  {
    assert '\n' !in "# /etc/crypttab: " && '\n' !in "mappings for " && '\n' !in "encrypted partitions.";
    assert '\n' !in "# <target name> " && '\n' !in "<source device> " && '\n' !in "<key file> <options>";
    assert '\n' !in "# Generated by architect" && '\n' !in "#";
  }

  /** In simulation the entry uses the PARTUUID the runner handed out for the
      encrypted partition, stripped of surrounding whitespace; asking again
      later gives the same identifier. */
  lemma SimulatedEntryUsesMemo(env: RunnerEnv, st: RunnerState, partitions: PartitionTable, info: DiskInfo, args: Args)
    requires env.mode == Simulate && args.generateCrypttab
    requires "system_crypt" in partitions && "system" in partitions
    ensures var (r, st') := GenerateStep(env, st, partitions, info, args);
      var device := partitions["system_crypt"];
      device in st'.partuuids
      && r == Ok(Generated(CrypttabLines(Basename(partitions["system"]), Strip(st'.partuuids[device] + "\n"), info), None))
  {
    var device := partitions["system_crypt"];
    var cmd := PartuuidCommand(device);
    assert SimName(cmd) == "blkid" by {
      BasenameOfName("blkid");
    }
    assert BlkidQuery(cmd) == Some(("PARTUUID", device));
    BlkidAnswersFromMemo(env, st, cmd, None, true, "PARTUUID", device);
  }
}
