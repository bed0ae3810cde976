# architect: a verified model of the disk-layout planner and command sequencer

architect prepares a disk for an Arch Linux installation. It inspects the disk, wipes it, and writes a GPT table through sfdisk. It optionally sets up OPAL hardware encryption and/or LUKS software encryption, creates FAT32, ext4 and btrfs filesystems, lays out btrfs subvolumes, mounts the target tree and writes `/etc/crypttab`. Every external command goes through one `CommandRunner`. The runner logs each command and either hands it to the host or, in SIMULATE mode, answers it from a table of canned responses.

This project models that core in Dafny, one module per source file:

| module | source file | form |
|---|---|---|
| `Errors` | `architect/core/exceptions.py` | the exception hierarchy as an `Error` datatype, plus `Result`/`Option` |
| `Types` | `architect/utils/types.py` | `DiskInfo`, `SimParams`, the CLI `Args`, and the `Host` (everything the source reads from the machine) |
| `Text` | — | the Python string operations the source uses (`strip`, `split`, `join`, `startswith`, `in`, `basename`, `int`) |
| `SizeFormat` | `architect/utils/format.py` | `parse_size_spec`: regular expression, unit chain and percentages, in exact arithmetic |
| `Command` | `architect/utils/command.py` | class `CommandRunner` with the fields of the Python object; pure step functions over `RunnerEnv`/`RunnerState` specify each method; the simulation report |
| `Disk` | `architect/core/disk.py` | disk availability, TRIM detection, real and simulated disk information |
| `Partition` | `architect/core/partition.py` | partition device names, the GPT type of the system partition, `prepare_disk` |
| `Encryption` | `architect/core/encryption.py` | the OPAL reset, cryptsetup calls, `setup_encryption` |
| `Filesystem` | `architect/core/filesystem.py` | `create_filesystems` and `create_btrfs_subvolumes` |
| `Mount` | `architect/core/mount.py` | `determine_mount_options` and `mount_filesystems` |
| `Validation` | `architect/utils/validation.py` | `check_prerequisites`, `normalize_encryption_args`, the cryptsetup version gate |
| `Crypttab` | `architect/config/crypttab.py` | `generate_crypttab` |

Each stage is a method on the runner whose loops follow the source. Its `ensures` ties the result and the runner's new state to a pure step function: `(r, runner.State()) == XStep(old(runner.Env()), old(runner.State()), ...)`. The lemmas then state, about the step functions, what each stage promises:
- the commands it issues and in what order;
- which errors it can raise, and with which message;
- how its results relate to its inputs;
- how it behaves under SIMULATE.

The host is a parameter of the runner. It covers process exit codes and output, `os.path.exists`, sysfs reads, `shutil.which`, `os.geteuid`, `os.cpu_count` and `platform.machine`. Fresh identifiers (`uuid.uuid4`) come from a `supply: nat -> string`.

## Model

| member | source | states |
|---|---|---|
| `Errors.ReprQuoting` | architect/core/partition.py:118 | the command list inside a CalledProcessError message is Python's `repr`: plain words in single quotes, a word holding a single quote and no double quote in double quotes |
| `Errors.SignalTexts` | architect/core/partition.py:118 | a process killed by a signal is described by the signal's name as `signal.Signals` prints it (`<Signals.SIGKILL: 9>`), a number that names no signal as `unknown signal N` |
| `Command.IdPrefix` | architect/utils/command.py:43 | the simulation id is a prefix of the first identifier, eight characters long whenever the identifier is |
| `Command.ExecuteStep` | architect/utils/command.py:93-108 | a real command starts exactly one process; with `check`, success means exit status 0 and failure is a CalledProcessError for that command with its non-zero status; otherwise only a host OSError |
| `Command.Memo` | architect/utils/command.py:189-206 | a memo lookup returns the stored identifier and leaves memo and draw count alone when the device is known, and otherwise stores and returns the next identifier of the supply |
| `Command.BlkidStep` | architect/utils/command.py:186-211 | the blkid handler changes only the output, and touches neither the log nor the process count |
| `Command.BlockdevResponse` | architect/utils/command.py:213-234 | the blockdev handler changes only the stdout of the zero-status response |
| `Command.LsblkResponse` | architect/utils/command.py:236-249 | the lsblk handler raises IndexError exactly when `-o` is the last word of the command; otherwise it changes only the stdout |
| `Command.CryptsetupResponse` | architect/utils/command.py:251-256 | the cryptsetup handler changes only the stdout |
| `Command.HdparmResponse` | architect/utils/command.py:258-271 | the hdparm handler changes only the stdout |
| `Command.SfdiskResponse` | architect/utils/command.py:273-281 | the sfdisk handler changes only the stdout |
| `Command.RunLogsOnce` | architect/utils/command.py:77-82 | `run` appends exactly one record, flagged simulated exactly in SIMULATE mode, whatever happens next |
| `Command.RunRealBypassesLog` | architect/utils/command.py:110-142 | `run_real` logs nothing, keeps the memos, and starts exactly one process in every mode |
| `Command.SimulatedRunSucceeds` | architect/utils/command.py:85-90 | in SIMULATE mode `run` starts no process and returns exit status 0 whatever `check` says; the only exception is an `lsblk` with a dangling `-o` |
| `Command.RunErrors` | architect/utils/command.py:62-108 | `run` raises only a host OSError, a CalledProcessError of a checked real command, or the IndexError of a malformed simulated lsblk |
| `Command.UnhandledCommandIsSilent` | architect/utils/command.py:144-184 | a simulated command without a handler gets empty output and status 0 |
| `Command.RunKeepsMemos` | architect/utils/command.py:189-206 | no identifier once handed out is forgotten or changed by `run` |
| `Command.BlkidAnswersFromMemo` | architect/utils/command.py:186-211 | simulated `blkid -s UUID` / `-s PARTUUID` prints the device's memo entry, which is created on first use; the two memos are separate |
| `Command.BlkidRepeatable` | architect/utils/command.py:189-206 | asking twice for a device's identifier gives the same answer |
| `Command.NextIdIsNew` | architect/utils/command.py:43-47 | under a supply that never repeats, the next identifier differs from every earlier one |
| `Command.NewUuidKeepsFreshIds` | architect/utils/command.py:194-199 | filling a UUID memo entry keeps every handed-out identifier distinct and drawn from the supply |
| `Command.NewPartuuidKeepsFreshIds` | architect/utils/command.py:201-206 | filling a PARTUUID memo entry keeps that invariant |
| `Command.MemosOnlyChangeOnBlkid` | architect/utils/command.py:144-184 | only a simulated blkid can change the memos or the draw count |
| `Command.FreshIdsFrame` | architect/utils/command.py:46-47 | the identifier invariant depends only on the memos and the draw count |
| `Command.RunKeepsFreshIds` | architect/utils/command.py:62-108 | every `run` keeps the identifier invariant, so distinct devices never share an identifier |
| `Command.InitialFreshIds` | architect/utils/command.py:30-51 | a new runner satisfies the identifier invariant |
| `Command.BlockdevSize` | architect/utils/command.py:215-232 | `blockdev --getsize64` prints `disk_size` read against 10 TiB, or 500107862016 when it is absent or does not parse |
| `Command.DefaultSizeText` | architect/utils/command.py:232 | the fallback size prints as `500107862016` |
| `Command.LsblkType` | architect/utils/command.py:239-241 | simulated `lsblk -o TYPE` says `disk` |
| `Command.LsblkModel` | architect/utils/command.py:242-247 | simulated `lsblk -o MODEL` prints the simulated disk type, upper-cased |
| `Command.CommandRunner.constructor` | architect/utils/command.py:30-51 | a new runner has an empty log, empty memos, and as simulation id the first eight characters of the first identifier |
| `Command.CommandRunner.SetSimulationParams` | architect/utils/command.py:53-60 | only the simulation parameters change |
| `Command.CommandRunner.Run` | architect/utils/command.py:62-108 | `run` as specified by its step function: one log record, then simulate or execute |
| `Command.CommandRunner.RunReal` | architect/utils/command.py:110-142 | `run_real` as specified by its step function |
| `Command.CommandRunner.Execute` | architect/utils/command.py:93-108 | the host call as specified by `ExecuteStep` |
| `Command.CommandRunner.SimulateCommand` | architect/utils/command.py:144-184 | the dispatch on the command's base name gives the response and state of `SimResponse`/`SimState` |
| `Command.CommandRunner.HandleBlkid` | architect/utils/command.py:186-211 | the memo-filling handler as specified by `BlkidStep` |
| `Command.CommandRunner.GetSimulationReport` | architect/utils/command.py:283-327 | the report is the header, the groups in first-appearance order with numbered commands, and the total |
| `Command.GroupCommands` | architect/utils/command.py:299-308 | the grouping loop builds `GroupsOf(records)` |
| `Command.RenderGroups` | architect/utils/command.py:310-320 | the rendering loop builds each group's title, rule and numbered commands |
| `Command.RenderBlock` | architect/utils/command.py:312-318 | one group's block is its upper-cased title and 40-dash rule followed by its commands, numbered from 1 and joined by spaces |
| `Command.CommandsOfKind` | architect/utils/command.py:299-308 | one kind never lists more commands than the log has records |
| `Command.CommandsOfKindSound` | architect/utils/command.py:299-308 | every listed command has the kind and is the command of some logged record |
| `Command.CommandsOfKindComplete` | architect/utils/command.py:299-308 | every logged command of the kind is listed |
| `Command.CommandsOfKindAppend` | architect/utils/command.py:299-308 | the listing of a log split in two is the first part's listing followed by the second's, so the commands keep log order |
| `Command.GroupKeys` | architect/utils/command.py:299-308 | the groups are keyed by the command kinds in order of first appearance |
| `Command.FirstAppearancesDistinct` | architect/utils/command.py:299-308 | no kind is listed twice |
| `Command.GroupContents` | architect/utils/command.py:299-308 | each group holds exactly the commands of its kind, in log order |
| `Command.GroupsTotal` | architect/utils/command.py:323-325 | the group sizes add up to the number of logged commands |
| `Command.NoCommandsOfAbsentKind` | architect/utils/command.py:299-308 | a kind without a group has no commands |
| `Command.TotalSizeBump` | architect/utils/command.py:306-308 | appending a command to its group adds one to the total |
| `Command.TotalSizeFresh` | architect/utils/command.py:303-305 | setting a group outside the key order does not change the total |
| `Command.TotalSizeIgnores` | architect/utils/command.py:323-325 | groups outside the key order do not count |
| `Command.Numbered` | architect/utils/command.py:316-318 | one numbered line per command |
| `SizeFormat.MatchNumeral` | architect/utils/format.py:47-51 | a numeral, optional whitespace and an optional unit are split by the regular expression into exactly those two groups |
| `SizeFormat.ApplyUnitFactor` | architect/utils/format.py:54-77 | the branch chain maps every admitted unit to its multiplier (1024^k or 1000^k) and reports Ki/Mi/Gi/Ti as unknown |
| `SizeFormat.SizeWithUnit` | architect/utils/format.py:47-75 | a number with a unit parses to the number times the unit's multiplier, truncated |
| `SizeFormat.HalfBinaryUnitRejected` | architect/utils/format.py:47-77 | "Ki", "Mi", "Gi", "Ti" pass the regular expression but raise "Unknown unit" |
| `SizeFormat.SizeWithoutUnit` | architect/utils/format.py:54-55 | a bare number, followed by any whitespace, is a count of bytes |
| `SizeFormat.PercentOfTotal` | architect/utils/format.py:42-44 | `N%` is N hundredths of the disk size, rounded down |
| `SizeFormat.WholePercent` | architect/utils/format.py:44 | for a whole percentage, the truncation is plain floor division by 100 |
| `SizeFormat.ParseFloatDigits` | architect/utils/format.py:52 | `float()` of a string of digits is that whole number |
| `SizeFormat.StripPercentStops` | architect/utils/format.py:43 | `rstrip("%")` removes the final percent sign and stops at the first other character |
| `SizeFormat.InvalidSpecIffUnmatched` | architect/utils/format.py:47-49 | "Invalid size specification" is raised exactly when the text is not a percentage and the regular expression fails |
| `SizeFormat.TrailingNewlineAccepted` | architect/utils/format.py:47 | Python's `$` accepts one trailing newline: "<size>\n" parses as "<size>" |
| `SizeFormat.MatchWholeRejectsAfterUnit` | architect/utils/format.py:47 | text after the unit makes the whole-string match fail |
| `SizeFormat.NoLeadingDigitRejected` | architect/utils/format.py:47-49 | a specification without a leading digit is refused |
| `SizeFormat.RejectedExamples` | architect/utils/format.py:47-77 | "100B", "-5G" and "abc" are refused |
| `SizeFormat.DecimalTestIsEquality` | architect/utils/format.py:68-75 | the `in ("KB")` substring tests coincide with equality for every unit the regular expression admits |
| `SizeFormat.UnitFactor` | architect/utils/format.py:57-75 | every admitted unit spelling has a positive multiplier, except exactly the two-letter spellings ending in I |
| `SizeFormat.UnitEnds` | architect/utils/format.py:47 | a matched unit is non-empty, starts with no digit, space or point, and ends with neither `%` nor a newline |
| `Text.DigitRun` | architect/utils/format.py:47 | `\d+` takes the maximal run of leading digits |
| `SizeFormat.FracPart` | architect/utils/format.py:47 | `(?:\.\d+)?` yields only digits, and consumes nothing when it yields none |
| `SizeFormat.MatchWhole` | architect/utils/format.py:47 | a successful match's number group is a well-formed numeral |
| `SizeFormat.TruncDiv` | architect/utils/format.py:55-75 | `int()` truncates toward zero: floor division for a non-negative dividend, the negated floor of the negation for a negative one |
| `Disk.ParseInt` | architect/core/disk.py:187-196 | `int()` of a non-empty string of digits is its value; empty text never parses |
| `Disk.IsDiskAvailable` | architect/core/disk.py:41-70 | availability as specified by its step function |
| `Disk.AvailabilityShortcuts` | architect/core/disk.py:52-58 | pure simulation takes every disk as available without a command; elsewhere a missing path is unavailable without a command |
| `Disk.AvailableNeedsProbe` | architect/core/disk.py:60-70 | outside pure simulation a disk is available only when the path exists and a successful lsblk probe prints `disk` |
| `Disk.CheckTrimSupport` | architect/core/disk.py:73-118 | the TRIM probe as specified by its step function |
| `Disk.TrimDecisions` | architect/core/disk.py:73-118 | the decision chain: a rotational disk has no TRIM; NVMe and simulation answer yes; hdparm output decides the rest; failures read as no |
| `Disk.GetRealDiskInfo` | architect/core/disk.py:172-208 | the real probe as specified by its step function |
| `Disk.GetSimulatedDiskInfo` | architect/core/disk.py:211-246 | the simulated record: size from `disk_size` or the fallback, rotational only when the parameter says so, the NVMe flag overridden by its parameter, the model "SIMULATED <TYPE>" |
| `Disk.GetDiskInfo` | architect/core/disk.py:121-169 | `get_disk_info` as specified by its step function |
| `Disk.NotFoundIffUnavailable` | architect/core/disk.py:136-137 | DiskNotFoundError is raised exactly when the disk is unavailable outside SIMULATE |
| `Disk.RotationalMeansNoTrim` | architect/core/disk.py:164-167 | TRIM is reported only for non-rotational disks |
| `Disk.NvmeFlag` | architect/core/disk.py:141 | the NVMe flag is "nvme" in the lower-cased base name, unless a pure simulation sets it |
| `Disk.CpuCountDefault` | architect/core/disk.py:144-152 | the CPU count is `os.cpu_count()`, or 4 when unknown |
| `Disk.RealInfoFallbacks` | architect/core/disk.py:187-208 | an unreadable size gives 500107862016; rotational iff sysfs says "1", a missing file reading as "1"; a blank model falls back on the NVMe flag |
| `Disk.PureSimulationInfo` | architect/core/disk.py:155-161 | pure simulation issues no probe command and takes the record from the parameters |
| `Disk.SimulatedSizeFallback` | architect/core/disk.py:224-235 | the fallback size is used exactly when `disk_size` is absent or invalid |
| `Partition.PartitionDeviceName` | architect/core/partition.py:26-42 | a partition's device name extends the disk's |
| `Partition.DeviceNamesDistinct` | architect/core/partition.py:38-42 | different partition numbers give different device names |
| `Partition.SdaDeviceName` | architect/core/partition.py:42 | `/dev/sda`, 3 gives `/dev/sda3` |
| `Partition.NvmeDeviceName` | architect/core/partition.py:38-40 | `/dev/nvme0n1`, 3 gives `/dev/nvme0n1p3` |
| `Partition.ArchPartitionType` | architect/core/partition.py:45-91 | the type is the LUKS type, the generic Linux type, or one of the architecture types |
| `Partition.EncryptedSelectsLuks` | architect/core/partition.py:57-58 | any encryption selects the LUKS type |
| `Partition.TargetArchOverrides` | architect/core/partition.py:70-71 | without encryption `target_arch` is looked up as given, falling back on the generic type |
| `Partition.DetectedArchLookup` | architect/core/partition.py:73-91 | otherwise the normalised machine name is looked up, falling back on the generic type |
| `Partition.Normalizes64BitNames` | architect/core/partition.py:75-80 | x86_64/amd64 become x86_64, aarch64 becomes arm64 |
| `Partition.NormalizesI386Family` | architect/core/partition.py:81-82 | i386 to i686 become x86 |
| `Partition.NormalizesArmFamily` | architect/core/partition.py:83-88 | arm* becomes arm64 when it contains "64", arm otherwise |
| `Partition.ArmNotInAarch64` | architect/core/partition.py:79 | "arm" is not a substring of "aarch64", so it reaches the arm branch |
| `Partition.SubstringArchQuirk` | architect/core/partition.py:79 | the substring test sends an empty machine name and fragments such as "64" to the ARM64 type |
| `Partition.ScriptShape` | architect/core/partition.py:124-164 | without Windows the script is the label, the optional comment and the EFI line; with Windows it adds seven dual-boot lines carrying the size verbatim |
| `Partition.OverprovisionIsComment` | architect/core/partition.py:127-128 | overprovisioning only adds one comment after the label |
| `Partition.WindowsCheckOutcome` | architect/core/partition.py:138-148 | a Windows size passes iff it parses to at least 21 GiB; an unparsable one is a PartitioningError, a small one NotEnoughSpaceError |
| `Partition.RoleTableRoles` | architect/core/partition.py:190-202 | the roles and their partition numbers, with and without Windows; different roles get different devices |
| `Partition.BuildScript` | architect/core/partition.py:124-164 | the appending loop builds `ScriptLines` |
| `Partition.FillRoleTable` | architect/core/partition.py:190-202 | the role loop builds `RoleTable` |
| `Partition.PrepareDisk` | architect/core/partition.py:94-205 | `prepare_disk` as specified by its step function |
| `Partition.Partition` | architect/core/partition.py:175-202 | sfdisk, settle and the role table, as specified by their step function |
| `Partition.PrepareDiskCommandOrder` | architect/core/partition.py:115-187 | on success the log grew by exactly wipefs, sfdisk and udevadm settle, in that order |
| `Partition.PartitionCommandOrder` | architect/core/partition.py:175-187 | after the script, success logs exactly sfdisk then udevadm settle |
| `Partition.WindowsRejectedAfterWipe` | architect/core/partition.py:115-148 | a bad Windows size is reported after the wipe, which is the only command issued |
| `Partition.PrepareDiskErrors` | architect/core/partition.py:115-178 | every error other than a host OSError is a PartitioningError or NotEnoughSpaceError |
| `Partition.PartitionErrors` | architect/core/partition.py:175-187 | after the script, every error other than a host OSError is a PartitioningError |
| `Partition.SettleErrors` | architect/core/partition.py:181-187 | `udevadm settle` fails the stage only with an OSError |
| `Partition.SettleFailureIsNonFatal` | architect/core/partition.py:183-187 | a non-zero settle exit does not stop partitioning |
| `Partition.SimulatedPrepareSucceeds` | architect/core/partition.py:94-205 | in SIMULATE mode partitioning succeeds unless the Windows size is bad |
| `Partition.SimulatedPartitionSucceeds` | architect/core/partition.py:175-202 | in SIMULATE mode the sfdisk/settle part always succeeds with the role table |
| `Encryption.RunCryptsetupCmd` | architect/core/encryption.py:42-57 | a cryptsetup call as specified by its step function |
| `Encryption.CryptsetupOutcome` | architect/core/encryption.py:54-57 | a cryptsetup call is logged once and fails with the stderr of a non-zero exit or a host OSError; a simulated one succeeds |
| `Encryption.ResetOpalDrive` | architect/core/encryption.py:16-39 | the reset as specified by its step function |
| `Encryption.ResetOpalOutcome` | architect/core/encryption.py:31-39 | the reset issues exactly the erase command with the PSID and YES on stdin, and its only error is an EncryptionError |
| `Encryption.ModesExclusive` | architect/core/encryption.py:80-82 | the three modes exclude each other, and one holds exactly when some encryption is requested |
| `Encryption.SetupEncryption` | architect/core/encryption.py:60-155 | `setup_encryption` as specified by its step function |
| `Encryption.MissingSystemKey` | architect/core/encryption.py:76 | a table without `system` raises KeyError before any command |
| `Encryption.NoEncryptionNoCommands` | architect/core/encryption.py:149-151 | without encryption nothing runs and the table comes back unchanged |
| `Encryption.EncryptionRewritesTable` | architect/core/encryption.py:149-151 | with encryption, `system` becomes /dev/mapper/luks-root, `system_crypt` the old partition, and every other role is kept |
| `Encryption.FormatThenOpen` | architect/core/encryption.py:89-146 | luksFormat runs before open, and those two are all that is logged |
| `Encryption.FormatTargets` | architect/core/encryption.py:94-127 | OPAL-only formats the whole disk; the other modes format the system partition with the cipher settings |
| `Encryption.SecretsOnStdin` | architect/core/encryption.py:96-144 | luksFormat reads the LUKS secret twice (plus the admin secret twice for hardware modes); open reads it once |
| `Encryption.SetupErrors` | architect/core/encryption.py:154-155 | a failing cryptsetup surfaces as one EncryptionError carrying both prefixes and cryptsetup's stderr |
| `Encryption.WrappedCryptsetupError` | architect/core/encryption.py:57 | the message of one wrapped cryptsetup failure |
| `Encryption.SimulatedEncryptionSucceeds` | architect/core/encryption.py:60-155 | in SIMULATE mode encryption succeeds whenever `system` is present |
| `Filesystem.CreateFilesystem` | architect/core/filesystem.py:20-55 | one task as specified by its step function |
| `Filesystem.CreateFsOutcome` | architect/core/filesystem.py:38-55 | a task reports its device and type; it succeeds iff its type is known and mkfs exits cleanly; an unknown type issues nothing |
| `Filesystem.FailureTexts` | architect/core/filesystem.py:112 | one "<type> on <device>" text per failed task, in order |
| `Filesystem.CreateFilesystems` | architect/core/filesystem.py:58-115 | `create_filesystems` as specified by its step function |
| `Filesystem.RunTasks` | architect/core/filesystem.py:95-108 | the collection loop as specified by `TasksStep` |
| `Filesystem.TasksLogEveryCommand` | architect/core/filesystem.py:95-108 | every task runs whatever the others did: one mkfs per known task, in task order |
| `Filesystem.TasksReportFailures` | architect/core/filesystem.py:104-108 | failures are listed in task order, once each; what a task raises is an OSError |
| `Filesystem.FailedTaskIsListed` | architect/core/filesystem.py:106-108 | a known task whose mkfs fails is listed |
| `Filesystem.SimulatedTasksSucceed` | architect/core/filesystem.py:95-108 | under SIMULATE every known task succeeds |
| `Filesystem.SimulatedMkfsSucceeds` | architect/core/filesystem.py:38-52 | under SIMULATE a known type is created successfully |
| `Filesystem.MissingRoleRaisesKeyError` | architect/core/filesystem.py:79-83 | a missing role raises KeyError for the first absent of efi, boot, system, before any command |
| `Filesystem.CreateFilesystemsLog` | architect/core/filesystem.py:79-108 | with all roles present, exactly the three mkfs commands are issued, in task order |
| `Filesystem.CreateFilesystemsVerdict` | architect/core/filesystem.py:104-115 | the stage raises a FilesystemError listing every failed task exactly when some task failed and none raised |
| `Filesystem.SimulatedFilesystemsSucceed` | architect/core/filesystem.py:58-115 | under SIMULATE the stage succeeds once the three roles exist |
| `Filesystem.WorkerCount` | architect/core/filesystem.py:86-90 | the worker count is min(3, cpu count), and 1 under SIMULATE |
| `Filesystem.IdLineIsStrippedLabel` | architect/core/filesystem.py:185 | the ID-line test holds exactly for lines that start with `Subvolume ID:` once stripped |
| `Filesystem.FindIdLine` | architect/core/filesystem.py:184-187 | the first labelled line at or after a position, or none when no line is labelled |
| `Filesystem.LabelledLineHasColon` | architect/core/filesystem.py:186 | a labelled line has a colon, so `split(':')[1]` exists |
| `Filesystem.ExtractSubvolumeId` | architect/core/filesystem.py:183-187 | the search loop finds `SubvolumeId(stdout)` |
| `Filesystem.FirstIdLine` | architect/core/filesystem.py:184-187 | the search loop stops at the first labelled line |
| `Filesystem.EmptyOutputHasNoId` | architect/core/filesystem.py:183-193 | empty output carries no ID |
| `Filesystem.CreateBtrfsSubvolumes` | architect/core/filesystem.py:120-213 | `create_btrfs_subvolumes` as specified by its step function |
| `Filesystem.SubvolumeBody` | architect/core/filesystem.py:145-203 | the body of the `try` as specified by its step function |
| `Filesystem.CreateSubvolumes` | architect/core/filesystem.py:164-174 | the creation loop as specified by its step function |
| `Filesystem.SetDefault` | architect/core/filesystem.py:177-195 | the show/set-default step as specified by its step function |
| `Filesystem.PrefixErrorPersists` | architect/core/filesystem.py:167-174 | once a subvolume fails, the rest are not attempted |
| `Filesystem.CreateRecords` | architect/core/filesystem.py:167-170 | one `btrfs subvolume create <tmp>/<name>` per subvolume, in order |
| `Filesystem.CreatedSubvolumes` | architect/core/filesystem.py:164-174 | a completed loop created every subvolume in order and maps exactly the names to their paths |
| `Filesystem.SubvolumeFailureNamesSubvolume` | architect/core/filesystem.py:173-174 | a failed loop names the subvolume it stopped at, or passes an OSError on |
| `Filesystem.SimulatedCreatesSucceed` | architect/core/filesystem.py:167-174 | under SIMULATE every subvolume is created |
| `Filesystem.SubvolumeErrorsCleanUp` | architect/core/filesystem.py:205-213 | every failure becomes a FilesystemError after an unchecked umount; only a missing `system` raises KeyError, before any command |
| `Filesystem.BodyLogGrows` | architect/core/filesystem.py:147 | the body always issues at least the mount |
| `Filesystem.CreateLogGrows` | architect/core/filesystem.py:167-174 | the creation loop never shortens the log |
| `Filesystem.SetDefaultLogGrows` | architect/core/filesystem.py:180 | the show command is always issued |
| `Filesystem.SetIdLogGrows` | architect/core/filesystem.py:189-193 | the set-default step never shortens the log |
| `Filesystem.SubvolumeSuccess` | architect/core/filesystem.py:197-203 | on success the result maps exactly the eleven names to their paths under the mount point |
| `Filesystem.BodySuccess` | architect/core/filesystem.py:145-203 | a successful body mounts, creates the subvolumes in order, shows @, sets the default and unmounts |
| `Filesystem.SetDefaultSuccess` | architect/core/filesystem.py:177-195 | a successful show/set-default logs exactly those two commands |
| `Filesystem.SetIdSuccess` | architect/core/filesystem.py:189-193 | set-default succeeds only with a non-empty ID |
| `Filesystem.SimulatedSubvolumesFail` | architect/core/filesystem.py:140-213 | under SIMULATE the show output has no ID, so the stage always fails, after mounting, creating all eleven subvolumes, showing @ and unmounting |
| `Filesystem.SimulatedBodyFails` | architect/core/filesystem.py:145-193 | under SIMULATE the body fails with the missing-ID error |
| `Filesystem.SimulatedShowFindsNoId` | architect/core/filesystem.py:180-193 | the simulated show is answered with empty output and no ID |
| `Mount.WithDiskOptions` | architect/core/mount.py:57-89 | the disk-dependent options keep the table's mount points |
| `Mount.MountOptionsFor` | architect/core/mount.py:18-91 | the table has exactly the twelve mount points |
| `Mount.DetermineMountOptions` | architect/core/mount.py:18-91 | the imperative updates build `MountOptionsFor` |
| `Mount.AddDiskOptions` | architect/core/mount.py:57-89 | the discard loop and the root extension build `WithDiskOptions` |
| `Mount.AppendDiscard` | architect/core/mount.py:58-61 | the loop appends `,discard` to /boot and /boot/efi only, and only on a TRIM-capable SSD |
| `Mount.BaseHasKeys` | architect/core/mount.py:31-54 | both the default and the hardened table have /, /boot, /boot/efi and /var |
| `Mount.HardeningTouchesBootAndVarOnly` | architect/core/mount.py:47-54 | hardening rewrites /boot and /var and no other entry |
| `Mount.HardenedEntriesExtendDefaults` | architect/core/mount.py:47-54 | the hardened entries keep every default option and add `noauto` (/boot) or `noexec` (/var) |
| `Mount.DiscardPlacement` | architect/core/mount.py:58-61 | off `/`, an entry gets `,discard` exactly when it is /boot or /boot/efi on a TRIM-capable SSD |
| `Mount.BtrfsOptionsOnRootOnly` | architect/core/mount.py:87-89 | the btrfs options reach no entry but `/` |
| `Mount.RootEntry` | architect/core/mount.py:87-89 | `/` is the default entry, extended by a comma and the btrfs options exactly when these are non-empty |
| `Mount.BtrfsPolicy` | architect/core/mount.py:63-85 | explicit options verbatim; otherwise autodefrag/zstd:2 on HDD, nothing on NVMe with at most 4 CPUs, ssd/zstd:1 on other SSDs; `discard=async` exactly with TRIM on an SSD |
| `Mount.NoBareDefaults` | architect/core/mount.py:31-89 | no planned entry is the bare word `defaults` |
| `Mount.SubvolOptionsShape` | architect/core/mount.py:172 | the `-o` argument names the subvolume first, and the options follow after a comma unless they are `defaults` |
| `Mount.MountFilesystems` | architect/core/mount.py:94-203 | `mount_filesystems` as specified by its step function |
| `Mount.MountChecked` | architect/core/mount.py:117-122 | one checked mount as specified by its step function |
| `Mount.MountSubvolumes` | architect/core/mount.py:168-176 | the subvolume loop as specified by its step function |
| `Mount.SubvolErrorPersists` | architect/core/mount.py:168-176 | once a subvolume mount fails, the rest are not attempted |
| `Mount.SubvolRecords` | architect/core/mount.py:168-203 | one mount record per table entry, in order, with the entry's options |
| `Mount.SubvolsLog` | architect/core/mount.py:168-176 | a finished subvolume loop issued one mount per entry, in order |
| `Mount.MountAllLog` | architect/core/mount.py:116-203 | a successful run mounted root, boot, EFI, then the first level, then the second, and nothing else |
| `Mount.MountsOnly` | architect/core/mount.py:116-203 | only `mount` commands are appended, and a failure leaves earlier mounts in place |
| `Mount.OnlyMountsTrans` | architect/core/mount.py:116-203 | mount-only log growth composes |
| `Mount.MountStepOnlyMounts` | architect/core/mount.py:119 | a mount step appends only its mount |
| `Mount.RootOnlyMounts` | architect/core/mount.py:117-122 | the root step issues only mounts |
| `Mount.BootOnlyMounts` | architect/core/mount.py:134-155 | the boot/EFI step issues only mounts |
| `Mount.SubvolsOnlyMount` | architect/core/mount.py:168-176 | the subvolume loop issues only mounts |
| `Mount.MountErrors` | architect/core/mount.py:116-203 | errors are a KeyError for a missing key, or, in a real run only, an OSError or a MountError |
| `Mount.MountStepErrors` | architect/core/mount.py:117-122 | a mount step raises only a host OSError or, outside SIMULATE, a MountError |
| `Mount.RootErrors` | architect/core/mount.py:117-122 | the root step's possible errors |
| `Mount.BootErrors` | architect/core/mount.py:134-155 | the boot/EFI step's possible errors |
| `Mount.SubvolsErrors` | architect/core/mount.py:168-176 | the subvolume loop's possible errors |
| `Mount.SimulatedMountsSucceed` | architect/core/mount.py:94-203 | under SIMULATE, with every key present, the whole sequence succeeds |
| `Mount.PlannedMountsSucceed` | architect/core/mount.py:18-203 | the planned table has every key the sequence reads, so a simulated run mounts all twelve mount points |
| `Mount.MountOrder` | architect/core/mount.py:116-203 | three partition mounts, then one mount per subvolume entry |
| `Mount.Mountpoints` | architect/core/mount.py:158-166 | the mount points of a subvolume table, in order |
| `Mount.MountOrderIsTableOrder` | architect/core/mount.py:116-203 | the order is root, /boot, /boot/efi, the first level, then /var/log and /var/tmp |
| `Mount.UnderShape` | architect/core/mount.py:143 | a path below another is longer and shares its start |
| `Mount.ParentsBeforeChildren` | architect/core/mount.py:142-200 | no directory is mounted before its parent mount |
| `Mount.TableParentsFirst` | architect/core/mount.py:116-203 | the mount-point table is in parents-first order |
| `Validation.MissingTools` | architect/utils/validation.py:71-74 | the missing tools are exactly those `which` does not find; none are missing iff every tool is found |
| `Validation.MissingToolsAppend` | architect/utils/validation.py:71-74 | probing a list in two parts reports the first part's missing tools, then the second's, so the report (and the RuntimeError message joined from it) keeps the order of the tool list |
| `Validation.MissingToolSingle` | architect/utils/validation.py:71-74 | a single tool is reported exactly when `which` does not find it |
| `Validation.CheckPrerequisites` | architect/utils/validation.py:18-110 | the privilege check and the two probing loops decide `PrerequisitesVerdict` |
| `Validation.ProbeTools` | architect/utils/validation.py:71-74 | the probing loop computes `MissingTools` |
| `Validation.RootRequiredOnlyWhenReal` | architect/utils/validation.py:30-38 | root is demanded exactly in a real check, with the message for the mode |
| `Validation.PureSimulationPasses` | architect/utils/validation.py:62-68 | a pure simulation probes nothing and passes |
| `Validation.RequiredToolsContents` | architect/utils/validation.py:41-59 | the ten base tools are always required, blockdev and lsblk exactly in a real check |
| `Validation.MissingToolsRaise` | architect/utils/validation.py:71-88 | after the privilege check, a RuntimeError is raised exactly when a required tool is missing |
| `Validation.MissingMessageNames` | architect/utils/validation.py:79-88 | the RuntimeError names every missing tool |
| `Validation.HdparmOnlyWarns` | architect/utils/validation.py:90-110 | a missing hdparm only warns; the NVMe sentence is never added |
| `Validation.NormalizeEffect` | architect/utils/validation.py:121-127 | only the hardware triple changes, and only when a separate option was given; the PSID is then non-empty |
| `Validation.NormalizeIdempotent` | architect/utils/validation.py:113-127 | normalising twice is normalising once |
| `Validation.ReadNumber` | architect/utils/validation.py:152 | `\d+` consumes at least one character |
| `Validation.ValidateEncryptionRequirements` | architect/utils/validation.py:130-164 | the version check as specified by its step function |
| `Validation.FindsWrittenVersion` | architect/utils/validation.py:152-155 | a version written as X.Y.Z after digit-free text, and not followed by a digit, is the one the search returns |
| `Validation.VersionAtWritten` | architect/utils/validation.py:152-155 | a written version is matched where it starts |
| `Validation.SearchFindsLeftmost` | architect/utils/validation.py:152 | the search returns the leftmost match, and none only when there is no match |
| `Validation.SearchSkipsText` | architect/utils/validation.py:152 | the search passes over digit-free text |
| `Validation.VersionGateSpec` | architect/utils/validation.py:154-161 | an error exactly when OPAL is requested and the first version found is older than 2.6.0; it quotes the version text |
| `Validation.ValidateOnlyWarns` | architect/utils/validation.py:144-164 | the check never raises; it issues `cryptsetup --version` exactly when encryption is requested |
| `Validation.TooOldIsSwallowed` | architect/utils/validation.py:156-164 | a too-old cryptsetup becomes a warning carrying the gate's message |
| `Validation.SimulatedVersionAccepted` | architect/utils/validation.py:150-156 | the simulated cryptsetup reports 2.6.1, which passes the gate |
| `Crypttab.GenerateCrypttab` | architect/config/crypttab.py:36-112 | `generate_crypttab` as specified by its step function |
| `Crypttab.SkippedExactlyWhenNotRequested` | architect/config/crypttab.py:49-50 | the stage does nothing exactly when generation was not asked for or there is no encrypted partition |
| `Crypttab.GenerateLog` | architect/config/crypttab.py:65-71 | a stage that runs issues exactly the PARTUUID query for the encrypted partition |
| `Crypttab.GenerateErrors` | architect/config/crypttab.py:63-112 | every failure is a CrypttabError prefixed "Failed to generate crypttab: ", from the PARTUUID query or a missing `system` |
| `Crypttab.SimulatedGenerateSucceeds` | architect/config/crypttab.py:63-108 | in simulation the stage fails only when `system` is missing |
| `Crypttab.GeneratedShape` | architect/config/crypttab.py:76-105 | the header plus one entry, written to `<target>/etc/crypttab` exactly outside simulation |
| `Crypttab.EntryFields` | architect/config/crypttab.py:96 | split at spaces, the entry gives the mapper name, `PARTUUID=<id>`, `none` and the options |
| `Crypttab.OptionsField` | architect/config/crypttab.py:83-93 | the options read back as `luks`, `timeout=180` and, exactly for a TRIM-capable SSD, `discard` |
| `Crypttab.DiscardAgreesWithMounts` | architect/config/crypttab.py:86 | the crypttab entry asks for discards exactly when the mount options do |
| `Crypttab.ContentReadsBack` | architect/config/crypttab.py:105 | splitting the written text at newlines gives back the lines, plus one empty piece |
| `Crypttab.SimulatedEntryUsesMemo` | architect/config/crypttab.py:66-96 | in simulation the entry uses the PARTUUID the runner handed out for the encrypted partition, and asking again gives the same one |

## Left out

- Concurrency: the thread pool of `create_filesystems` is modelled as running the three tasks in list order. The source collects failures in completion order, so the order of the failure list is not modelled.
- Floating point: `bytes_to_human_readable`, `size_gib` and the rounding of float products are left out. `parse_size_spec` is modelled in exact decimal arithmetic with `int()` as truncation. `float()` forms with exponents, `inf`, `nan`, underscores or inner spaces are treated as invalid. A numeral above the float range (about 1.8e308) becomes `inf` in `float()`, so `int()` of the product raises OverflowError; the model returns the exact integer instead.
- Filesystem side effects on the host:
  - directory creation (`_create_etc_directory`, the `mkdir` calls of `mount_filesystems`, `tempfile.mkdtemp` and `os.rmdir`);
  - the crypttab file write, which is returned as a `FileWrite` value instead of being performed;
  - the OSErrors those calls could raise.
- `time.sleep` after a failed `udevadm settle` only waits and is left out.
- Logging and terminal colours (architect/utils/logging.py) are not part of this model. The exceptions are the two places where a log line is the only outcome: the missing-optional-tools warning and the cryptsetup-version warning.
- `Path` normalisation: paths are joined as strings with `/`. A trailing slash or `..` is not normalised.
- `\d` and `str.strip` are read over ASCII digits and ASCII whitespace; Unicode digits and Unicode spaces are not modelled.
- `Text.Upper`, `Text.Lower`, `SizeFormat.IsUnitText`: `str.upper`, `str.lower` and the case folding of `re.IGNORECASE` are read over ASCII letters. Unicode case mapping is not modelled: `"ß".upper()` is `"SS"` in Python, and `re.IGNORECASE` lets `ı`, `İ` and the Kelvin sign match `[KMGT]i?`, so `parse_size_spec("1kıB", d)` returns 1024 in the source but is an invalid specification here.
- `Errors.Repr`: escapes backslashes, the chosen quote, `\n`, `\r` and `\t`. Python's `\xNN`/`\uNNNN` escapes of other non-printable characters are not modelled. The signal names are those of Linux.
- architect/cli.py, architect/__main__.py and fstab generation are not part of this model. Neither is the order in which the CLI calls the stages.
- uuid randomness: `uuid.uuid4()` is a parameter of the runner, `supply: nat -> string`. The identifier invariant is proved under a supply that never repeats.
- The host (exit codes and output of real processes, `os.path.exists`, sysfs files, `shutil.which`, `os.geteuid`, `os.cpu_count`, `platform.machine`) is a parameter. Its answers are not modelled beyond being functions of their inputs and of the process count.
- `Validation.NormalizeEncryptionArgs`: returns the updated arguments instead of assigning to the attribute of the `args` object in place.
- `Validation.HdparmOnlyWarns`: the branch that adds an NVMe sentence when "nvme" is among the missing optional tools is unreachable, because only hdparm is probed. The lemma states that it never fires instead of modelling it.
- Optional string options are `string`, with `""` standing for `None`. The source only tests them for truthiness.
