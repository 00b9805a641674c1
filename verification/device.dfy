/**
 * Device facts derived from the outcome of the three device queries of
 * identify.c: the block-size query (BLKGETSIZE), the disk-geometry query
 * (HDIO_GETGEO) and the floppy-parameter query (FDGETPRM).
 *
 * Each query is represented by the integer it returns, zero meaning
 * success. The `start` field of the geometry record is read by the C code
 * whether or not the geometry query succeeded, so it is an arbitrary input.
 */
module Device {

  datatype Probe = Probe(
    blockSizeRet: int,   // return of the block-size query
    geometryRet: int,    // return of the disk-geometry query
    floppyRet: int,      // return of the floppy-parameter query
    geometryStart: nat)  // the geometry record's start field, as read

  /** The three facts sanity checking works from; they are independent booleans. */
  datatype Facts = Facts(diskDevice: bool, floppy: bool, partition: bool)

  /** `is_disk_device`: not both size queries failed. */
  function IsDiskDevice(p: Probe): (r: bool)
    ensures r <==> p.blockSizeRet == 0 || p.geometryRet == 0
  {
    !(p.blockSizeRet != 0 && p.geometryRet != 0)
  }

  /** `is_floppy`: the floppy-parameter query succeeded. */
  function IsFloppy(p: Probe): (r: bool)
    ensures r <==> p.floppyRet == 0
  {
    !(p.floppyRet != 0)
  }

  /** `is_partition`: a disk device whose geometry start is nonzero. */
  function IsPartition(p: Probe): (r: bool)
    ensures r ==> IsDiskDevice(p)
    ensures r <==> (p.blockSizeRet == 0 || p.geometryRet == 0) && p.geometryStart > 0
  {
    !(p.blockSizeRet != 0 && p.geometryRet != 0) && p.geometryStart != 0
  }

  /** `partition_start_sector`: the geometry start, or 0 when both size queries fail. */
  function PartitionStartSector(p: Probe): (r: nat)
    ensures p.blockSizeRet != 0 && p.geometryRet != 0 ==> r == 0
    ensures p.blockSizeRet == 0 || p.geometryRet == 0 ==> r == p.geometryStart
  {
    if !(p.blockSizeRet != 0 && p.geometryRet != 0) then p.geometryStart else 0
  }

  /** The facts `sanity_check` computes for one probe. */
  function FactsOf(p: Probe): Facts {
    Facts(IsDiskDevice(p), IsFloppy(p), IsPartition(p))
  }

  /** The only dependency among the three facts of a probe. */
  predicate Coherent(f: Facts) {
    f.partition ==> f.diskDevice
  }

  /**
   * The facts of a probe are coherent, and every coherent combination is
   * the facts of some probe: the partition fact implies the disk-device
   * fact, and nothing else ties the three together.
   */
  lemma FactsOfProbes(f: Facts)
    ensures forall p :: Coherent(FactsOf(p))
    ensures Coherent(f) ==> exists p :: FactsOf(p) == f
  {
    if Coherent(f) {
      var p := Probe(if f.diskDevice then 0 else -1, -1,
                     if f.floppy then 0 else -1,
                     if f.partition then 1 else 0);
      assert FactsOf(p) == f;
    }
  }

  /**
   * A partition start sector is reported exactly for partitions, when both
   * functions see the same geometry start.
   */
  lemma StartSectorOnlyForPartitions(p: Probe)
    ensures PartitionStartSector(p) != 0 <==> IsPartition(p)
    ensures IsPartition(p) ==> PartitionStartSector(p) == p.geometryStart
  {
  }

  /**
   * Each C function fills its own geometry record, so `a` is what
   * `is_partition` reads and `b` what `partition_start_sector` reads. A
   * successful geometry query gives both the same start; a failed one leaves
   * each start uninitialised. The two still agree unless the geometry query
   * fails while the size query succeeds, and there they can disagree.
   */
  lemma StartSectorSeparateReads(a: Probe, b: Probe)
    requires a.blockSizeRet == b.blockSizeRet && a.geometryRet == b.geometryRet
    requires a.geometryRet == 0 ==> a.geometryStart == b.geometryStart
    ensures a.geometryRet == 0 || a.blockSizeRet != 0 ==>
      (PartitionStartSector(b) != 0 <==> IsPartition(a))
    ensures a.geometryRet != 0 && a.blockSizeRet == 0 && a.geometryStart == 0 && b.geometryStart != 0 ==>
      PartitionStartSector(b) != 0 && !IsPartition(a)
  {
  }

  /**
   * A single device class derived from the facts: a floppy wins, then a
   * partition, then a whole disk.
   */
  datatype DeviceClass = WholeDisk | Floppy | Partition | Unclassifiable

  function Classify(f: Facts): (c: DeviceClass)
    ensures f.floppy ==> c == Floppy
    ensures c == Partition <==> f.partition && !f.floppy
    ensures c == WholeDisk <==> f.diskDevice && !f.floppy && !f.partition
    ensures c == Unclassifiable <==> !f.diskDevice && !f.floppy && !f.partition
  {
    if f.floppy then Floppy
    else if f.partition then Partition
    else if f.diskDevice then WholeDisk
    else Unclassifiable
  }

  /**
   * On a probe, a successful geometry query with a nonzero start makes a
   * partition and with a zero start a whole disk, unless the floppy query
   * succeeded.
   */
  lemma ClassifyProbe(p: Probe)
    ensures p.floppyRet == 0 ==> Classify(FactsOf(p)) == Floppy
    ensures p.floppyRet != 0 && p.geometryRet == 0 && p.geometryStart > 0 ==> Classify(FactsOf(p)) == Partition
    ensures p.floppyRet != 0 && p.geometryRet == 0 && p.geometryStart == 0 ==> Classify(FactsOf(p)) == WholeDisk
    ensures p.floppyRet != 0 && p.blockSizeRet != 0 && p.geometryRet != 0 ==> Classify(FactsOf(p)) == Unclassifiable
  {
  }
}
