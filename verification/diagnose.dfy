/**
 * `diagnose`: reports which file systems the first sector claims and
 * describes the boot record it holds, by a fixed priority cascade.
 */
module Diagnosis {
  import opened Wrappers
  import opened Kinds
  import opened Signatures

  /** The one description `diagnose` gives of the boot record. */
  datatype Verdict =
    | NoX86BootSector   // no boot signature: nothing more is said
    | ExactFat12        // exactly the FAT12 record written by -1
    | ExactFat16        // exactly the FAT16 record written by -6
    | ExactFat32        // exactly the FAT32 DOS record written by -3
    | ExactFat32Nt      // exactly the FAT32 NT record written by -2
    | FatFamily         // a FAT16 or FAT32 record differing from all templates
    | Lilo              // a LILO boot record
    | DosMbr            // like the record written by -d
    | Win95bMbr         // like the record written by -9
    | Win2000Mbr        // like the record written by -m
    | SyslinuxMbr       // like the record written by -s
    | ZeroMbr           // like the record written by -z
    | UnknownBootRecord

  datatype Report = Report(fileSystems: seq<FileSystem>, verdict: Verdict)

  function Rank(s: FileSystem): nat {
    match s
    case Fat12 => 0
    case Fat16 => 1
    case Fat32 => 2
  }

  /** The file systems reported, one line each, in the order FAT12, FAT16, FAT32. */
  function FileSystemLines(fs: FsSignatures): (r: seq<FileSystem>)
    ensures forall s :: s in r <==> Has(fs, s)
    ensures forall i, j :: 0 <= i < j < |r| ==> Rank(r[i]) < Rank(r[j])
  {
    (if fs.fat12 then [Fat12] else [])
    + (if fs.fat16 then [Fat16] else [])
    + (if fs.fat32 then [Fat32] else [])
  }

  /** The branches of `diagnose` after the FAT family, as a cascade. */
  function DescribeOther(s: SectorOracles): Verdict {
    if s.lilo then Lilo
    else if s.dosMbr then DosMbr
    else if s.mbr95b then Win95bMbr
    else if s.mbr2000 then Win2000Mbr
    else if s.syslinuxMbr then SyslinuxMbr
    else if s.zeroMbr then ZeroMbr
    else UnknownBootRecord
  }

  /** The description of a sector carrying an x86 boot signature. */
  function Describe(s: SectorOracles): Verdict {
    if s.fat12Exact then ExactFat12
    else if s.fat16Br || s.fat32Br then
      if s.fat16Exact then ExactFat16
      else if s.fat32Exact then ExactFat32
      else if s.fat32NtExact then ExactFat32Nt
      else FatFamily
    else DescribeOther(s)
  }

  function Diagnose(fs: FsSignatures, s: SectorOracles): (r: Report)
    ensures r.fileSystems == FileSystemLines(fs)
    ensures r.verdict == NoX86BootSector <==> !s.x86
    ensures s.x86 ==> r.verdict == FirstMatch(Rules(s), 0, UnknownBootRecord)
  {
    DescribeIsFirstMatch(s);
    Report(FileSystemLines(fs), if s.x86 then Describe(s) else NoX86BootSector)
  }

  // The cascade written as an ordered rule table, as a reference.

  datatype Rule = Rule(guard: bool, verdict: Verdict)

  function Rules(s: SectorOracles): seq<Rule> {
    var family := s.fat16Br || s.fat32Br;
    [ Rule(s.fat12Exact, ExactFat12),
      Rule(family && s.fat16Exact, ExactFat16),
      Rule(family && s.fat32Exact, ExactFat32),
      Rule(family && s.fat32NtExact, ExactFat32Nt),
      Rule(family, FatFamily),
      Rule(s.lilo, Lilo),
      Rule(s.dosMbr, DosMbr),
      Rule(s.mbr95b, Win95bMbr),
      Rule(s.mbr2000, Win2000Mbr),
      Rule(s.syslinuxMbr, SyslinuxMbr),
      Rule(s.zeroMbr, ZeroMbr) ]
  }

  /** The verdict of the first rule, from index `k` on, whose guard holds, else `otherwise`. */
  function FirstMatch(rules: seq<Rule>, k: nat, otherwise: Verdict): (v: Verdict)
    requires k <= |rules|
    ensures (forall i :: k <= i < |rules| ==> !rules[i].guard) ==> v == otherwise
    ensures forall i :: k <= i < |rules| && rules[i].guard && (forall j :: k <= j < i ==> !rules[j].guard)
              ==> v == rules[i].verdict
    decreases |rules| - k
  {
    if k == |rules| then otherwise
    else if rules[k].guard then rules[k].verdict
    else FirstMatch(rules, k + 1, otherwise)
  }

  /** The rules from LILO on are the first-match reading of those branches. */
  lemma OtherIsFirstMatch(s: SectorOracles)
    ensures DescribeOther(s) == FirstMatch(Rules(s), 5, UnknownBootRecord)
  {
    var rs, u := Rules(s), UnknownBootRecord;
    assert FirstMatch(rs, 11, u) == u;
    assert FirstMatch(rs, 10, u) == if rs[10].guard then rs[10].verdict else FirstMatch(rs, 11, u);
    assert FirstMatch(rs, 9, u) == if rs[9].guard then rs[9].verdict else FirstMatch(rs, 10, u);
    assert FirstMatch(rs, 8, u) == if rs[8].guard then rs[8].verdict else FirstMatch(rs, 9, u);
    assert FirstMatch(rs, 7, u) == if rs[7].guard then rs[7].verdict else FirstMatch(rs, 8, u);
    assert FirstMatch(rs, 6, u) == if rs[6].guard then rs[6].verdict else FirstMatch(rs, 7, u);
  }

  /** The catch-all FAT family rule, then the rest. */
  lemma FatFamilyRule(s: SectorOracles)
    ensures FirstMatch(Rules(s), 4, UnknownBootRecord) ==
      if s.fat16Br || s.fat32Br then FatFamily else DescribeOther(s)
  {
    var rs, u := Rules(s), UnknownBootRecord;
    OtherIsFirstMatch(s);
    assert FirstMatch(rs, 4, u) == if rs[4].guard then rs[4].verdict else FirstMatch(rs, 5, u);
  }

  /** The rules from the FAT family on are the first-match reading of the branches after FAT12. */
  lemma FamilyIsFirstMatch(s: SectorOracles)
    ensures FirstMatch(Rules(s), 1, UnknownBootRecord) ==
      if s.fat16Br || s.fat32Br then
        if s.fat16Exact then ExactFat16
        else if s.fat32Exact then ExactFat32
        else if s.fat32NtExact then ExactFat32Nt
        else FatFamily
      else DescribeOther(s)
  {
    var rs, u := Rules(s), UnknownBootRecord;
    FatFamilyRule(s);
    assert FirstMatch(rs, 3, u) == if rs[3].guard then rs[3].verdict else FirstMatch(rs, 4, u);
    assert FirstMatch(rs, 2, u) == if rs[2].guard then rs[2].verdict else FirstMatch(rs, 3, u);
    assert FirstMatch(rs, 1, u) == if rs[1].guard then rs[1].verdict else FirstMatch(rs, 2, u);
  }

  /** The nested cascade of `diagnose` is the first-match reading of the rule table. */
  lemma DescribeIsFirstMatch(s: SectorOracles)
    ensures Describe(s) == FirstMatch(Rules(s), 0, UnknownBootRecord)
  {
    var rs, u := Rules(s), UnknownBootRecord;
    FamilyIsFirstMatch(s);
    assert FirstMatch(rs, 0, u) == if rs[0].guard then rs[0].verdict else FirstMatch(rs, 1, u);
  }

  /** The file-system lines do not depend on the sector, nor the verdict on the file systems. */
  lemma ReportsIndependent(fs1: FsSignatures, fs2: FsSignatures, s1: SectorOracles, s2: SectorOracles)
    ensures Diagnose(fs1, s1).verdict == Diagnose(fs2, s1).verdict
    ensures Diagnose(fs1, s1).fileSystems == Diagnose(fs1, s2).fileSystems
  {
  }

  /**
   * An exact FAT16/FAT32 verdict needs the FAT16/FAT32 shape, and a master
   * boot record or LILO verdict needs that no FAT shape was seen.
   */
  lemma VerdictNeedsShape(fs: FsSignatures, s: SectorOracles)
    ensures Diagnose(fs, s).verdict in {ExactFat16, ExactFat32, ExactFat32Nt, FatFamily} ==>
      s.x86 && !s.fat12Exact && (s.fat16Br || s.fat32Br)
    ensures Diagnose(fs, s).verdict in {Lilo, DosMbr, Win95bMbr, Win2000Mbr, SyslinuxMbr, ZeroMbr, UnknownBootRecord} ==>
      s.x86 && !s.fat12Exact && !s.fat16Br && !s.fat32Br
    ensures Diagnose(fs, s).verdict == ExactFat12 <==> s.x86 && s.fat12Exact
  {
  }

  /** The record kind a verdict names, with the switch that writes it. */
  function TemplateKind(v: Verdict): Option<Kind> {
    match v
    case ExactFat12 => Some(Fat12Br)
    case ExactFat16 => Some(Fat16Br)
    case ExactFat32 => Some(Fat32Br)
    case ExactFat32Nt => Some(Fat32NtBr)
    case DosMbr => Some(MbrDos)
    case Win95bMbr => Some(Mbr95b)
    case Win2000Mbr => Some(Mbr2000)
    case SyslinuxMbr => Some(MbrSyslinux)
    case ZeroMbr => Some(MbrZero)
    case _ => None
  }

  function SwitchLetter(v: Verdict): Option<char> {
    match v
    case ExactFat12 => Some('1')
    case ExactFat16 => Some('6')
    case ExactFat32 => Some('3')
    case ExactFat32Nt => Some('2')
    case DosMbr => Some('d')
    case Win95bMbr => Some('9')
    case Win2000Mbr => Some('m')
    case SyslinuxMbr => Some('s')
    case ZeroMbr => Some('z')
    case _ => None
  }
}
