/**
 * The closed catalogue of boot-record kinds the program knows about.
 *
 * The C program names these with integer constants; `NO_WRITING` is zero
 * (main only tests `iBr` for truth), but the values of the others, and so
 * the order in which automatic selection tries them, are not fixed here: the
 * order is passed around as a sequence (see `IsCatalogue`).
 */
module Kinds {

  datatype Kind =
    | NoWriting     // inspect only
    | AutoBr        // pick a record automatically (-w)
    | Mbr2000       // Windows 2000/XP/2003 master boot record (-m)
    | Mbr95b        // Windows 95B/98/98SE/ME master boot record (-9)
    | MbrDos        // DOS/Windows NT master boot record (-d)
    | MbrSyslinux   // public domain syslinux master boot record (-s)
    | MbrZero       // zeroed master boot record (-z)
    | Fat12Br       // FAT12 floppy boot record (-1)
    | Fat16Br       // FAT16 partition boot record (-6)
    | Fat32Br       // FAT32 DOS partition boot record (-3)
    | Fat32NtBr     // FAT32 NT partition boot record (-2)

  /** The five master-boot-record kinds. */
  predicate IsMbr(k: Kind) {
    k.Mbr2000? || k.Mbr95b? || k.MbrDos? || k.MbrSyslinux? || k.MbrZero?
  }

  /** The four file-system boot-record kinds. */
  predicate IsFatBr(k: Kind) {
    k.Fat12Br? || k.Fat16Br? || k.Fat32Br? || k.Fat32NtBr?
  }

  /** A kind that names an actual record to write. */
  predicate IsRecord(k: Kind) {
    IsMbr(k) || IsFatBr(k)
  }

  /**
   * `order` lists every record kind exactly once, in the order of the
   * integer values that follow `AUTO_BR`.
   */
  predicate IsCatalogue(order: seq<Kind>) {
    && |order| == 9
    && (forall k :: k in order <==> IsRecord(k))
  }

  /** One admissible catalogue order, showing that `IsCatalogue` can be met. */
  lemma CatalogueExists()
    ensures IsCatalogue([Mbr2000, Mbr95b, MbrDos, MbrSyslinux, MbrZero, Fat12Br, Fat16Br, Fat32Br, Fat32NtBr])
  {
  }
}
