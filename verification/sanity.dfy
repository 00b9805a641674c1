/**
 * `sanity_check`: whether writing a boot record of a requested kind to a
 * device looks safe, given the device facts and the file-system signature
 * of its first sector.
 */
module Sanity {
  import opened Wrappers
  import opened Kinds
  import opened Device
  import opened Signatures

  /** Why a write is vetoed; each corresponds to one message of `sanity_check`. */
  datatype Veto =
    | NotDiskDevice      // an MBR for something that is not a disk device
    | FloppyDevice       // an MBR for a floppy
    | PartitionDevice    // an MBR for a partition
    | NotFloppy          // a FAT12 record for something that is not a floppy
    | NotPartition       // a FAT16/FAT32 record for something that is not a partition
    | NoFileSystem(fs: FileSystem)  // the device lacks the required file system
    | UnknownRecord      // the kind names no record

  /** The verdict, and the message printed when messages are requested. */
  datatype Sanity = Sanity(ok: bool, message: Option<Veto>)

  /** The first test that fails for `kind`, in the order the C code makes them. */
  function FirstVeto(kind: Kind, f: Facts, fs: FsSignatures): Option<Veto> {
    match kind
    case Mbr2000 | Mbr95b | MbrDos | MbrSyslinux | MbrZero =>
      if !f.diskDevice then Some(NotDiskDevice)
      else if f.floppy then Some(FloppyDevice)
      else if f.partition then Some(PartitionDevice)
      else None
    case Fat12Br =>
      if !f.floppy then Some(NotFloppy)
      else if !fs.fat12 then Some(NoFileSystem(Fat12))
      else None
    case Fat16Br =>
      if !f.partition then Some(NotPartition)
      else if !fs.fat16 then Some(NoFileSystem(Fat16))
      else None
    case Fat32Br =>
      if !f.partition then Some(NotPartition)
      else if !fs.fat32 then Some(NoFileSystem(Fat32))
      else None
    case Fat32NtBr =>
      if !f.partition then Some(NotPartition)
      else if !fs.fat32 then Some(NoFileSystem(Fat32))
      else None
    case _ => Some(UnknownRecord)
  }

  // The admission policy written as a table: each record kind requires a
  // class of device and possibly a file system.

  datatype DeviceRule = WholeDiskOnly | FloppyOnly | PartitionOnly
  datatype Requirement = Requirement(device: DeviceRule, fileSystem: Option<FileSystem>)

  const Policy: map<Kind, Requirement> := map[
    Mbr2000 := Requirement(WholeDiskOnly, None),
    Mbr95b := Requirement(WholeDiskOnly, None),
    MbrDos := Requirement(WholeDiskOnly, None),
    MbrSyslinux := Requirement(WholeDiskOnly, None),
    MbrZero := Requirement(WholeDiskOnly, None),
    Fat12Br := Requirement(FloppyOnly, Some(Fat12)),
    Fat16Br := Requirement(PartitionOnly, Some(Fat16)),
    Fat32Br := Requirement(PartitionOnly, Some(Fat32)),
    Fat32NtBr := Requirement(PartitionOnly, Some(Fat32))]

  predicate Admits(rule: DeviceRule, f: Facts) {
    match rule
    case WholeDiskOnly => f.diskDevice && !f.floppy && !f.partition
    case FloppyOnly => f.floppy
    case PartitionOnly => f.partition
  }

  predicate PolicyAllows(kind: Kind, f: Facts, fs: FsSignatures) {
    && kind in Policy
    && Admits(Policy[kind].device, f)
    && (Policy[kind].fileSystem.Some? ==> Has(fs, Policy[kind].fileSystem.value))
  }

  /**
   * `sanity_check`: the write is allowed exactly when the policy table
   * allows it; a message is printed exactly when messages were asked for and
   * the write is vetoed.
   */
  function SanityCheck(kind: Kind, f: Facts, fs: FsSignatures, withMessages: bool): (r: Sanity)
    ensures r.ok <==> PolicyAllows(kind, f, fs)
    ensures r.ok ==> IsRecord(kind)
    ensures r.message.Some? <==> withMessages && !r.ok
  {
    var veto := FirstVeto(kind, f, fs);
    Sanity(veto.None?, if withMessages then veto else None)
  }

  /** The message flag never changes the verdict. */
  lemma PrintFlagIrrelevant(kind: Kind, f: Facts, fs: FsSignatures)
    ensures SanityCheck(kind, f, fs, true).ok == SanityCheck(kind, f, fs, false).ok
  {
  }

  /** Every master boot record passes exactly on a disk that is neither floppy nor partition. */
  lemma MbrPolicy(kind: Kind, f: Facts, fs: FsSignatures, verbose: bool)
    requires IsMbr(kind)
    ensures SanityCheck(kind, f, fs, verbose).ok <==> f.diskDevice && !f.floppy && !f.partition
  {
  }

  /** The five master boot records are indistinguishable to the check, reason included. */
  lemma MbrUniform(k1: Kind, k2: Kind, f: Facts, fs: FsSignatures, verbose: bool)
    requires IsMbr(k1) && IsMbr(k2)
    ensures SanityCheck(k1, f, fs, verbose) == SanityCheck(k2, f, fs, verbose)
  {
  }

  /** The file-system boot records, one by one. */
  lemma FatPolicy(f: Facts, fs: FsSignatures, verbose: bool)
    ensures SanityCheck(Fat12Br, f, fs, verbose).ok <==> f.floppy && fs.fat12
    ensures SanityCheck(Fat16Br, f, fs, verbose).ok <==> f.partition && fs.fat16
    ensures SanityCheck(Fat32Br, f, fs, verbose).ok <==> f.partition && fs.fat32
    ensures SanityCheck(Fat32NtBr, f, fs, verbose) == SanityCheck(Fat32Br, f, fs, verbose)
  {
  }

  /** `NO_WRITING` and `AUTO_BR` are refused as unknown records. */
  lemma UnknownKindsRejected(kind: Kind, f: Facts, fs: FsSignatures)
    requires !IsRecord(kind)
    ensures SanityCheck(kind, f, fs, true) == Sanity(false, Some(UnknownRecord))
    ensures !SanityCheck(kind, f, fs, false).ok
  {
  }

  /**
   * The reason given follows the order of the tests: a non-device first,
   * then a floppy, then a partition; the device class before the file system.
   */
  lemma VetoReasons(kind: Kind, f: Facts, fs: FsSignatures)
    ensures IsMbr(kind) ==>
      (SanityCheck(kind, f, fs, true).message == Some(NotDiskDevice) <==> !f.diskDevice)
    ensures IsMbr(kind) ==>
      (SanityCheck(kind, f, fs, true).message == Some(FloppyDevice) <==> f.diskDevice && f.floppy)
    ensures IsMbr(kind) ==>
      (SanityCheck(kind, f, fs, true).message == Some(PartitionDevice) <==> f.diskDevice && !f.floppy && f.partition)
    ensures IsFatBr(kind) ==>
      (SanityCheck(kind, f, fs, true).message.Some? && SanityCheck(kind, f, fs, true).message.value.NoFileSystem?
       <==> Admits(Policy[kind].device, f) && !Has(fs, Policy[kind].fileSystem.value))
  {
  }

  /**
   * On the facts of one probe, a master boot record passes exactly when a
   * size query succeeded, the floppy query failed and the geometry start is 0.
   */
  lemma MbrOnProbe(kind: Kind, p: Probe, fs: FsSignatures)
    requires IsMbr(kind)
    ensures SanityCheck(kind, FactsOf(p), fs, false).ok <==>
      (p.blockSizeRet == 0 || p.geometryRet == 0) && p.floppyRet != 0 && p.geometryStart == 0
  {
  }

  /** The device class each record kind is written for. */
  function RequiredClass(rule: DeviceRule): DeviceClass {
    match rule
    case WholeDiskOnly => WholeDisk
    case FloppyOnly => Floppy
    case PartitionOnly => Partition
  }

  /**
   * When a device is not both a floppy and a partition, the check is the
   * same as asking for the single device class of the policy table.
   */
  lemma CheckByClass(kind: Kind, f: Facts, fs: FsSignatures)
    requires IsRecord(kind)
    requires !(f.floppy && f.partition)
    ensures SanityCheck(kind, f, fs, false).ok <==>
      && Classify(f) == RequiredClass(Policy[kind].device)
      && (Policy[kind].fileSystem.Some? ==> Has(fs, Policy[kind].fileSystem.value))
  {
  }

  /**
   * The three facts are not exclusive: a device that is both a floppy and a
   * partition, and carries a FAT16 signature, is cleared for a FAT16 record
   * although a single-class view would call it a floppy.
   */
  lemma FloppyPartitionOverlap()
    ensures var f := Facts(true, true, true);
      SanityCheck(Fat16Br, f, FsSignatures(false, true, false), false).ok && Classify(f) == Floppy
  {
  }
}
