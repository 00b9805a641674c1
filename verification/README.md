# ms-sys: the write-safety engine and the command line, in Dafny

ms-sys writes Microsoft-compatible boot records (five kinds of master boot
record and four kinds of FAT boot record) to a disk, partition or floppy
device. This project models the part of it that decides what may be written:

- the device facts of `identify.c` (disk device, floppy, partition) and the
  partition start sector, computed from the results of the size, geometry
  and floppy queries;
- `sanity_check`, the write-permission policy for each record kind;
- `smart_select`, the automatic choice of a record kind;
- `diagnose`, the report on what a device currently holds;
- `parse_switches` of `main.c`, in full;
- the rest of `main`: help and version, opening the device, automatic
  selection, the sanity gate, the partition-information writes, the
  dispatch on the record kind and the exit status.

Module layout:

| file | module | contents |
|---|---|---|
| wrappers.dfy | `Wrappers` | `Option` |
| kinds.dfy | `Kinds` | the record kinds (`NO_WRITING`, `AUTO_BR` and the nine records) and the catalogue order |
| device.dfy | `Device` | probe results, the three device facts, the start sector |
| signatures.dfy | `Signatures` | the file-system and sector recognisers, as inputs |
| sanity.dfy | `Sanity` | `sanity_check`, and the policy it implements written as a table |
| select.dfy | `Select` | `smart_select`, recursive and as a loop |
| diagnose.dfy | `Diagnosis` | `diagnose`, and the cascade written as a first-match rule table |
| switches.dfy | `Switches` | `parse_switches`, recursive and as its two loops |
| switch_effects.dfy | `SwitchEffects` | a declarative reading of each argument as an effect |
| command_line.dfy | `CommandLine` | what a parsed command line means |
| gate.dfy | `Gate` | `main` after parsing, as a list of events and an exit status |

The outside world enters as data. The three queries of `identify.c` are
integers (0 is success) plus the geometry start field, which is an
arbitrary number because the C code reads it even when the geometry query
failed. The byte-pattern recognisers are booleans. The writers are
success flags. The numeric values of the kind enum live in `identify.h`,
which is not part of this model; the order in which `smart_select` tries
the kinds is therefore a parameter `order`, and `Kinds.IsCatalogue` says
it lists each of the nine record kinds. `main` is modelled as a list of
events (help shown, device opened, record written, diagnosis, ...) and
an exit status.

The two source files come from different releases: `identify.c` from
1.1.3 and `main.c` from 2.0.0. Both use the same nine record kinds and
the same switch letters.

### Three facts, not one device class

Reading a device as one exclusive class (floppy, then partition, then
whole disk) is not what the code does. The code computes three
independent booleans. The partition fact holds when either the size
query or the geometry query succeeds and the geometry start is nonzero.
A device can be both a floppy and a partition; on such a device the
FAT16 and FAT32 records can pass the check. The model follows the code.
`Device.Classify` is the single-class reading, derived from the facts;
`Device.ClassifyProbe` states what that reading gives for each outcome of
the three queries.
`Sanity.CheckByClass` shows that the single-class reading agrees with the
code whenever a device is not both floppy and partition.
`Sanity.FloppyPartitionOverlap` exhibits a case where they differ.

### Functions that follow the C line by line

Several functions transcribe a C function or switch branch by branch.
Apart from `Gate.Proceed`, whose contract only bounds the status to 0 or
1, they carry no contract of their own; what they mean is stated by the
lemmas about them in the table below:

- `Device.FactsOf` is the three fact calls at the top of `sanity_check`
  (identify.c:93-95).
- `Sanity.FirstVeto` is the switch of `sanity_check` (identify.c:96-249): the
  first failing test for each kind, or none.
- `Diagnosis.Describe` and `Diagnosis.DescribeOther` are the nested cascade of
  `diagnose` after the boot-sector test (identify.c:268-348).
- `Switches.ApplyLetter` is the letter switch of `parse_switches`
  (main.c:337-384); `Switches.ApplyCluster` is the letter loop
  (main.c:335-385).
- `Switches.ApplyArg` is the body of the argument loop: the long-option
  chain, then the cluster, else help (main.c:305-388).
- `Gate.Proceed` is the tail of `main` after the device is open: the
  partition-information writes, then the final switch on the selected kind
  (main.c:66-223).
- `Switches.DeviceOptions` is the test of the device argument for help or
  version (main.c:294-301); `Switches.ScanArgs` is the loop over the other
  arguments, last one first (main.c:303-389).

### Reading the command line

`parse_switches` scans the arguments between the program name and the
device from right to left. It scans the letters inside one `-xyz` cluster
from left to right. As a result, across arguments the leftmost kind switch
wins, and inside one cluster the rightmost kind letter wins.
`SwitchEffects` states this directly. Each argument has an `Effect`: an
optional kind plus the flags it sets. `ArgsEffect` combines the effects,
the leftmost kind winning, and `SwitchEffects.ScanArgsEffect` proves that
the scanning code computes exactly that. Arguments are C strings, so the
type `CString` excludes the NUL character. The C tests on the first two
characters and `strcmp` are then exact.

## Model

| member | source | states |
|---|---|---|
| Device.IsDiskDevice | tags/ms-sys-1_1_3/src/identify.c:28-44 | a device is a disk device exactly when the size query or the geometry query succeeds |
| Device.IsFloppy | tags/ms-sys-1_1_3/src/identify.c:46-51 | a device is a floppy exactly when the floppy-parameter query succeeds |
| Device.IsPartition | tags/ms-sys-1_1_3/src/identify.c:53-69 | a partition is a disk device; it is one exactly when a size or geometry query succeeds and the geometry start is nonzero |
| Device.PartitionStartSector | tags/ms-sys-1_1_3/src/identify.c:71-89 | the start sector is 0 when both queries fail and the geometry start otherwise |
| Device.StartSectorOnlyForPartitions | tags/ms-sys-1_1_3/src/identify.c:53-89 | when both functions see the same geometry start, the start sector is nonzero exactly on partitions, and then it is that start |
| Device.StartSectorSeparateReads | tags/ms-sys-1_1_3/src/identify.c:53-89 | with each function reading its own geometry record, they agree on whether the device is a partition unless the geometry query fails and the size query succeeds; there a nonzero stale start can give a start sector to a non-partition |
| Device.FactsOfProbes | tags/ms-sys-1_1_3/src/identify.c:28-69 | the facts of every probe satisfy "partition implies disk device", and every fact triple satisfying it comes from some probe |
| Sanity.SanityCheck | tags/ms-sys-1_1_3/src/identify.c:91-251 | the check passes exactly when the policy table admits the kind on the facts and file systems; only record kinds pass; a message is given exactly when messages are on and the check fails |
| Sanity.PrintFlagIrrelevant | tags/ms-sys-1_1_3/src/identify.c:91-251 | the message flag never changes the verdict |
| Sanity.MbrPolicy | tags/ms-sys-1_1_3/src/identify.c:98-135 | every master boot record passes exactly on a disk device that is neither floppy nor partition |
| Sanity.MbrUniform | tags/ms-sys-1_1_3/src/identify.c:98-135 | any two master boot record kinds get the same result and message on the same device |
| Sanity.FatPolicy | tags/ms-sys-1_1_3/src/identify.c:136-239 | FAT12 passes exactly on a floppy with a FAT12 file system; FAT16 exactly on a partition with FAT16; FAT32 exactly on a partition with FAT32; FAT32 NT always agrees with FAT32 |
| Sanity.UnknownKindsRejected | tags/ms-sys-1_1_3/src/identify.c:240-247 | a kind that is not a record fails, with the internal-error message |
| Sanity.VetoReasons | tags/ms-sys-1_1_3/src/identify.c:104-238 | the message names the first failing test: non-device, then floppy, then partition for master boot records; the file-system message only when the device test passed |
| Sanity.MbrOnProbe | tags/ms-sys-1_1_3/src/identify.c:28-135 | on one probe, a master boot record passes exactly when a size or geometry query succeeded, the floppy query failed and the geometry start is 0 |
| Sanity.CheckByClass | tags/ms-sys-1_1_3/src/identify.c:91-251 | when a device is not both floppy and partition, each record passes exactly when the device is of the class the record is for and carries the record's file system |
| Sanity.FloppyPartitionOverlap | tags/ms-sys-1_1_3/src/identify.c:162-187 | a device that is floppy and partition with a FAT16 file system passes the FAT16 check although its exclusive class is floppy |
| Select.SmartSelect | tags/ms-sys-1_1_3/src/identify.c:351-359 | the result is `NO_WRITING` exactly when no kind passes; otherwise it is a record that passes and no earlier kind of the order passes |
| Select.SelectLoop | tags/ms-sys-1_1_3/src/identify.c:351-359 | the loop returns the kind `SmartSelect` describes |
| Select.SelectOnWholeDisk | tags/ms-sys-1_1_3/src/identify.c:351-359 | on a whole disk the first master boot record of the catalogue is chosen |
| Select.SelectOnFloppy | tags/ms-sys-1_1_3/src/identify.c:351-359 | on a floppy that is not a partition, FAT12 is chosen when there is a FAT12 file system and nothing otherwise |
| Select.SelectOnFat32Partition | tags/ms-sys-1_1_3/src/identify.c:351-359 | on a FAT32 partition that is not a floppy and has no FAT16, one of the FAT32 records is chosen |
| Select.SelectOnNonDevice | tags/ms-sys-1_1_3/src/identify.c:351-359 | on something that is no device at all nothing is chosen |
| Diagnosis.FileSystemLines | tags/ms-sys-1_1_3/src/identify.c:255-260 | a file system is reported exactly when its recogniser says so, in the order FAT12, FAT16, FAT32 |
| Diagnosis.Diagnose | tags/ms-sys-1_1_3/src/identify.c:253-267 | the file-system lines are those of the signatures; the verdict is "no x86 boot sector" exactly when the boot-sector test fails, and otherwise the verdict of the first rule of the priority table whose guard holds |
| Diagnosis.DescribeIsFirstMatch | tags/ms-sys-1_1_3/src/identify.c:268-348 | the nested cascade gives the verdict of the first rule of the priority table whose guard holds, else "unknown" |
| Diagnosis.OtherIsFirstMatch | tags/ms-sys-1_1_3/src/identify.c:305-348 | from LILO on, the cascade is the first-match reading of the last six rules |
| Diagnosis.FirstMatch | tags/ms-sys-1_1_3/src/identify.c:268-348 | the first-match reference: no guard holds gives the fallback; otherwise the verdict of the earliest rule whose guard holds |
| Diagnosis.ReportsIndependent | tags/ms-sys-1_1_3/src/identify.c:253-348 | the file-system lines do not depend on the sector and the verdict does not depend on the file systems |
| Diagnosis.VerdictNeedsShape | tags/ms-sys-1_1_3/src/identify.c:268-348 | exact FAT16/FAT32 verdicts need the FAT16/FAT32 shape; LILO and master boot record verdicts need that no FAT shape was seen; the FAT12 verdict needs the exact FAT12 match |
| Gate.VerdictSwitchSelectsTemplate | tags/ms-sys-1_1_3/src/identify.c:268-340 | the switch a verdict names, given alone before the device, selects the record kind that verdict recognised |
| Switches.ParseSwitches | tags/ms-sys-2_0_0/src/main.c:279-293 | with fewer than two arguments help is requested and every other option keeps its default |
| Switches.ParseLoop | tags/ms-sys-2_0_0/src/main.c:279-391 | the loops of `parse_switches` compute the options `ParseSwitches` describes |
| Switches.ScanOne | tags/ms-sys-2_0_0/src/main.c:305-388 | the per-argument body, with its letter loop, computes the options `ApplyArg` describes |
| Switches.ClusterArg | tags/ms-sys-2_0_0/src/main.c:333-335 | an argument starting with one dash is read letter by letter from its second character |
| SwitchEffects.ApplyLetterEffect | tags/ms-sys-2_0_0/src/main.c:337-384 | each letter acts as its effect: a kind, a flag, or help for an unknown letter |
| SwitchEffects.ClusterEffect | tags/ms-sys-2_0_0/src/main.c:335-385 | a cluster sets each flag exactly when its letter occurs, help exactly when an unknown letter occurs, and the kind of its rightmost kind letter |
| SwitchEffects.ApplyClusterEffect | tags/ms-sys-2_0_0/src/main.c:335-385 | the letter loop applies exactly the cluster's effect |
| SwitchEffects.ClusterEffectAppend | tags/ms-sys-2_0_0/src/main.c:335-385 | the effect of two clusters joined is the first followed by the second, the later kind overriding |
| SwitchEffects.ApplyArgEffect | tags/ms-sys-2_0_0/src/main.c:305-388 | every argument acts as its effect: a long option its table entry, a cluster its letters, anything else help |
| SwitchEffects.ApplyArgMonotone | tags/ms-sys-2_0_0/src/main.c:305-388 | no argument clears force, version, partition information or help, or sets the label flag back |
| SwitchEffects.Leftmost | tags/ms-sys-2_0_0/src/main.c:303-389 | combined effects set a flag exactly when some argument does, and take the kind of the leftmost argument that names one |
| SwitchEffects.ScanArgsEffect | tags/ms-sys-2_0_0/src/main.c:303-389 | scanning the arguments from the last to the first applies exactly their combined effect |
| SwitchEffects.ArgsEffectAppend | tags/ms-sys-2_0_0/src/main.c:303-389 | the effect of two argument lists joined is the right list's effect followed by the left list's |
| CommandLine.ParseIsEffect | tags/ms-sys-2_0_0/src/main.c:292-389 | parsing applies the device's options and then the combined effect of the arguments between program name and device |
| CommandLine.ParseMeaning | tags/ms-sys-2_0_0/src/main.c:294-389 | each flag of the result is set exactly when an argument sets it; version and help may also come from the device argument |
| CommandLine.ParseKind | tags/ms-sys-2_0_0/src/main.c:303-389 | with no kind switch the kind is `NO_WRITING`; otherwise it is the kind of the leftmost argument that names one |
| CommandLine.DeviceArgumentInert | tags/ms-sys-2_0_0/src/main.c:294-301 | changing the device argument changes neither the kind nor force, label or partition flags |
| CommandLine.ShortAndLongAgree | tags/ms-sys-2_0_0/src/main.c:305-379 | each short letter that has a long option has the same effect as it |
| CommandLine.HelpSwitches | tags/ms-sys-2_0_0/src/main.c:333-388 | `-h` and `--help` before the device only request help |
| CommandLine.UnknownArgumentOnlySetsHelp | tags/ms-sys-2_0_0/src/main.c:387-388 | inserting an argument that is neither a long option nor a cluster only sets help |
| CommandLine.UnknownLetterOnlySetsHelp | tags/ms-sys-2_0_0/src/main.c:381-383 | inserting an unknown letter into a cluster only sets help |
| CommandLine.LoneDashIgnored | tags/ms-sys-2_0_0/src/main.c:333-335 | inserting a lone `-` changes nothing |
| Gate.SelectedKind | tags/ms-sys-2_0_0/src/main.c:51-57 | an explicit kind is kept; `AUTO_BR` becomes the `smart_select` result for the device, which is `NO_WRITING` or a record that passes the silent check |
| Gate.WritePartitionInfo | tags/ms-sys-2_0_0/src/main.c:66-90 | status 1 exactly when writing the start sector fails; the drive id is attempted exactly when it succeeded |
| Gate.Dispatch | tags/ms-sys-2_0_0/src/main.c:91-223 | the final switch produces at most one event: the record written with the kind, its outcome and the label flag for FAT records only, the diagnosis for `NO_WRITING`, or the internal error for `AUTO_BR`; it produces none exactly for `NO_WRITING` with partition information; the status changes only to 1 on a failed record write |
| Gate.DispatchFailure | tags/ms-sys-2_0_0/src/main.c:100-217 | the final switch fails exactly when a record write fails |
| Gate.ProceedStatus | tags/ms-sys-2_0_0/src/main.c:66-223 | past the gate, the status is 1 exactly when a partition-information or record write failed |
| Gate.ProceedEvents | tags/ms-sys-2_0_0/src/main.c:66-223 | past the gate, only partition writes (on request), the write of the kind itself, the diagnosis and the internal error occur |
| Gate.ProceedUnknown | tags/ms-sys-2_0_0/src/main.c:218-222 | the internal error is reported exactly for a kind that is not a record or `NO_WRITING` (that is, `AUTO_BR`), and leaves the status as the partition-information writes set it |
| Gate.ProceedDiagnosis | tags/ms-sys-2_0_0/src/main.c:91-99 | past the gate, the device is diagnosed exactly for `NO_WRITING` without partition information |
| Gate.AfterOpen | tags/ms-sys-2_0_0/src/main.c:51-65 | after opening, a record is written only if it is the selected kind and passed the check or the check was forced; a veto names the selected kind and happens only when it fails the check unforced; the selection-failure message appears only when `AUTO_BR` found nothing |
| Gate.AfterOpenStatus | tags/ms-sys-2_0_0/src/main.c:58-223 | after opening, the status is 1 exactly on a veto or a failed write |
| Gate.AfterOpenStatusOnInputs | tags/ms-sys-2_0_0/src/main.c:58-223 | after opening, the status is 1 exactly when the selected kind fails the check unforced, the start sector was requested and cannot be written, or the selected record cannot be written |
| Gate.AfterOpenAllowed | tags/ms-sys-2_0_0/src/main.c:58-65 | when the gate lets the selected kind through, main goes on with the partition-information writes and the final switch, and returns their status |
| Gate.ProceedWrites | tags/ms-sys-2_0_0/src/main.c:66-217 | past the gate, a partition-information request writes the start sector, then the drive id after success; a record kind is written with the label flag for FAT records |
| Gate.VetoWritesNothing | tags/ms-sys-2_0_0/src/main.c:58-65 | a veto returns before any write |
| Gate.AfterOpenDiagnosis | tags/ms-sys-2_0_0/src/main.c:51-99 | after opening, the device is diagnosed exactly when the selected kind is `NO_WRITING` and no partition information is requested |
| Gate.Run | tags/ms-sys-2_0_0/src/main.c:33-50 | help ends main with status 0 and nothing else; version comes first; a failed open gives status 1; a successful one records the update mode |
| Gate.RunStatus | tags/ms-sys-2_0_0/src/main.c:33-225 | main returns 1 exactly when the open failed, the check vetoed, or a start-sector or record write failed |
| Gate.RunStatusOnInputs | tags/ms-sys-2_0_0/src/main.c:39-225 | past help and version, main returns 1 exactly when the device does not open, the selected kind fails the check unforced, a requested start sector cannot be written, or the selected record cannot be written |
| Gate.RunWritesWhenAllowed | tags/ms-sys-2_0_0/src/main.c:45-217 | a record is written exactly when main gets past help, version and opening with a selected record that passes the check or is forced, and then it is that record with the label flag for FAT records |
| Gate.RunRecords | tags/ms-sys-2_0_0/src/main.c:51-65 | every record written is the selected kind and passed the check unless forced; the internal error cannot happen |
| Gate.RunPartitionInfo | tags/ms-sys-2_0_0/src/main.c:66-90 | partition information is written only when requested |
| Gate.RunWritesPartitionInfo | tags/ms-sys-2_0_0/src/main.c:45-90 | a request that gets past help, version, opening and the gate writes the start sector, and the drive id after a successful start sector |
| Gate.RunStartSectorNeedsGate | tags/ms-sys-2_0_0/src/main.c:45-90 | the start sector is written only on a request that gets past help, version, opening and the gate |
| Gate.RunOpenedForWrites | tags/ms-sys-2_0_0/src/main.c:45 | anything written was written to a device opened for update |
| Gate.RunDiagnosis | tags/ms-sys-2_0_0/src/main.c:33-99 | the device is diagnosed exactly when main gets past help, version and opening with the kind `NO_WRITING` and no partition information |
| Gate.RunVeto | tags/ms-sys-2_0_0/src/main.c:58-65 | a selected record that fails the check, unforced, ends main with status 1 after the veto, with nothing written or diagnosed |
| Gate.Main | tags/ms-sys-2_0_0/src/main.c:33-37 | with no device argument main shows help and returns 0 |

## Left out

- The size, geometry and floppy queries themselves: their return values and the geometry start are inputs (`Device.Probe`).
- The file-system and sector recognisers (`is_fat_*_fs`, `is_br`, `is_lilo_br`, `is_*_mbr`, `is_fat_*_br`, `entire_*_matches`): their code is not part of this model, so their answers are inputs (`Signatures`).
- The record writers and the partition-information writers: only whether each succeeded is an input (`Gate.Env`).
- Opening and closing the device: whether the open succeeded is an input; closing is not modelled.
- Message text, translations (`nls_init`, gettext), `print_help` and `print_version`: the model records which message or report is produced, not its wording.
- The numeric values of the kind enum: the order `smart_select` tries the kinds in is the parameter `order`.
- Repeated queries in one run: the device facts and signatures are taken to be the same each time `main` consults them.
- Device.StartSectorOnlyForPartitions: assumes `is_partition` and `partition_start_sector` read the same geometry start; in the C each reads its own record, which is uninitialised when the geometry query fails, so with a failed geometry query and a successful size query the two can disagree (`Device.StartSectorSeparateReads`).
- Device.PartitionStartSector: does not model the width of `unsigned long`; the geometry start is an unbounded natural number.
- Gate.Run: the program name and device path are not modelled; only the number of arguments is used, for the version test.
