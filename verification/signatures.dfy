/**
 * Answers of the byte-pattern oracles consulted on the first sector of a
 * device. The predicates themselves (file-system signature tests, template
 * comparisons) are not part of this model; only their answers are.
 */
module Signatures {

  datatype FileSystem = Fat12 | Fat16 | Fat32

  /** Answers of `is_fat_12_fs`, `is_fat_16_fs` and `is_fat_32_fs`. */
  datatype FsSignatures = FsSignatures(fat12: bool, fat16: bool, fat32: bool)

  predicate Has(fs: FsSignatures, s: FileSystem) {
    match s
    case Fat12 => fs.fat12
    case Fat16 => fs.fat16
    case Fat32 => fs.fat32
  }

  /** Answers of the boot-sector recognisers used by `diagnose`. */
  datatype SectorOracles = SectorOracles(
    x86: bool,            // is_br: an x86 boot sector signature is present
    fat12Exact: bool,     // entire_fat_12_br_matches
    fat16Br: bool,        // is_fat_16_br: shaped like a FAT16 boot record
    fat32Br: bool,        // is_fat_32_br: shaped like a FAT32 boot record
    fat16Exact: bool,     // entire_fat_16_br_matches
    fat32Exact: bool,     // entire_fat_32_br_matches
    fat32NtExact: bool,   // entire_fat_32_nt_br_matches
    lilo: bool,           // is_lilo_br
    dosMbr: bool,         // is_dos_mbr
    mbr95b: bool,         // is_95b_mbr
    mbr2000: bool,        // is_2000_mbr
    syslinuxMbr: bool,    // is_syslinux_mbr
    zeroMbr: bool)        // is_zero_mbr
}
