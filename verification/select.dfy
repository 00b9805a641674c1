/**
 * `smart_select`: the first record kind, in catalogue order, that the
 * silent sanity check lets through.
 */
module Select {
  import opened Kinds
  import opened Device
  import opened Signatures
  import opened Sanity

  predicate Passes(k: Kind, f: Facts, fs: FsSignatures) {
    SanityCheck(k, f, fs, false).ok
  }

  /**
   * Returns the first kind of `order` that passes, or `NoWriting` when
   * none does.
   */
  function SmartSelect(order: seq<Kind>, f: Facts, fs: FsSignatures): (r: Kind)
    ensures r != NoWriting ==> IsRecord(r) && Passes(r, f, fs)
    ensures r == NoWriting <==> forall i :: 0 <= i < |order| ==> !Passes(order[i], f, fs)
    ensures r != NoWriting ==>
      exists i :: 0 <= i < |order| && order[i] == r && forall j :: 0 <= j < i ==> !Passes(order[j], f, fs)
  {
    if |order| == 0 then NoWriting
    else if Passes(order[0], f, fs) then order[0]
    else
      var r := SmartSelect(order[1..], f, fs);
      assert forall i :: 1 <= i < |order| ==> order[i] == order[1..][i - 1];
      r
  }

  /** The loop of `smart_select`, returning the same kind as `SmartSelect`. */
  method SelectLoop(order: seq<Kind>, f: Facts, fs: FsSignatures) returns (r: Kind)
    ensures r == SmartSelect(order, f, fs)
  {
    var i := 0;
    while i < |order|
      invariant 0 <= i <= |order|
      invariant SmartSelect(order, f, fs) == SmartSelect(order[i..], f, fs)
    {
      var k := order[i];
      if SanityCheck(k, f, fs, false).ok {
        assert order[i..][0] == k;
        return k;
      }
      assert order[i..][1..] == order[i + 1..];
      i := i + 1;
    }
    return NoWriting;
  }

  /**
   * On a whole disk the first master boot record of the catalogue is chosen,
   * whatever the file-system signatures say.
   */
  lemma SelectOnWholeDisk(order: seq<Kind>, f: Facts, fs: FsSignatures)
    requires IsCatalogue(order)
    requires f.diskDevice && !f.floppy && !f.partition
    ensures IsMbr(SmartSelect(order, f, fs))
    ensures exists i :: 0 <= i < |order| && order[i] == SmartSelect(order, f, fs)
                        && forall j :: 0 <= j < i ==> !IsMbr(order[j])
  {
    assert Mbr2000 in order;
    assert forall k :: Passes(k, f, fs) <==> IsMbr(k);
  }

  /** A floppy (not also a partition) with a FAT12 signature gets the FAT12 record. */
  lemma SelectOnFloppy(order: seq<Kind>, f: Facts, fs: FsSignatures)
    requires IsCatalogue(order)
    requires f.floppy && !f.partition
    ensures SmartSelect(order, f, fs) == (if fs.fat12 then Fat12Br else NoWriting)
  {
    if fs.fat12 {
      assert Fat12Br in order;
    }
  }

  /**
   * A partition (not also a floppy) with a FAT32 signature and no FAT16
   * signature gets one of the two FAT32 records.
   */
  lemma SelectOnFat32Partition(order: seq<Kind>, f: Facts, fs: FsSignatures)
    requires IsCatalogue(order)
    requires f.partition && !f.floppy && fs.fat32 && !fs.fat16
    ensures SmartSelect(order, f, fs) in {Fat32Br, Fat32NtBr}
  {
    assert Fat32Br in order;
  }

  /** An unclassifiable device never gets a record. */
  lemma SelectOnNonDevice(order: seq<Kind>, f: Facts, fs: FsSignatures)
    requires !f.diskDevice && !f.floppy && !f.partition
    ensures SmartSelect(order, f, fs) == NoWriting
  {
  }
}
