/**
 * `parse_switches` of main.c: reads the command line into the requested
 * record kind and four flags, and says whether help must be shown.
 *
 * The last argument is the device and is only looked at for `-h`/`--help`
 * and `-v`/`--version`. The arguments between the program name and the
 * device are scanned from right to left, and the letters of a short-switch
 * cluster such as `-m9` from left to right.
 */
module Switches {
  import opened Kinds

  /** A C string: it cannot hold the NUL character that terminates it. */
  type CString = s: string | '\0' !in s

  datatype Options = Options(
    kind: Kind,
    force: bool,
    version: bool,
    keepLabel: bool,
    partitionInfo: bool,
    help: bool)

  /** The values `parse_switches` stores before looking at any argument. */
  const Defaults: Options := Options(NoWriting, false, false, true, false, false)

  /** One letter of a short-switch cluster. */
  function ApplyLetter(o: Options, c: char): Options {
    match c
    case '1' => o.(kind := Fat12Br)
    case '2' => o.(kind := Fat32NtBr)
    case '3' => o.(kind := Fat32Br)
    case '6' => o.(kind := Fat16Br)
    case 'f' => o.(force := true)
    case 'l' => o.(keepLabel := false)
    case 'p' => o.(partitionInfo := true)
    case 'm' => o.(kind := Mbr2000)
    case '9' => o.(kind := Mbr95b)
    case 'd' => o.(kind := MbrDos)
    case 's' => o.(kind := MbrSyslinux)
    case 'z' => o.(kind := MbrZero)
    case 'w' => o.(kind := AutoBr)
    case 'v' => o.(version := true)
    case _ => o.(help := true)
  }

  /** The letters of a cluster, first to last. */
  function ApplyCluster(o: Options, w: string): Options
    decreases |w|
  {
    if |w| == 0 then o else ApplyCluster(ApplyLetter(o, w[0]), w[1..])
  }

  /** An argument starting with a single `-` (a lone `-` included). */
  predicate IsCluster(a: string) {
    |a| >= 1 && a[0] == '-' && (|a| == 1 || a[1] != '-')
  }

  /** One argument before the device. */
  function ApplyArg(o: Options, a: CString): Options
  {
    if a == "--fat12" then o.(kind := Fat12Br)
    else if a == "--fat32nt" then o.(kind := Fat32NtBr)
    else if a == "--fat32" then o.(kind := Fat32Br)
    else if a == "--fat16" then o.(kind := Fat16Br)
    else if a == "--force" then o.(force := true)
    else if a == "--wipelabel" then o.(keepLabel := false)
    else if a == "--partition" then o.(partitionInfo := true)
    else if a == "--mbr" then o.(kind := Mbr2000)
    else if a == "--mbr95b" then o.(kind := Mbr95b)
    else if a == "--mbrdos" then o.(kind := MbrDos)
    else if a == "--mbrsyslinux" then o.(kind := MbrSyslinux)
    else if a == "--mbrzero" then o.(kind := MbrZero)
    else if a == "--write" then o.(kind := AutoBr)
    else if a == "--version" then o.(version := true)
    else if IsCluster(a) then ApplyCluster(o, a[1..])
    else o.(help := true)
  }

  /** The arguments between program name and device, last one first. */
  function ScanArgs(o: Options, args: seq<CString>): Options
    decreases |args|
  {
    if |args| == 0 then o
    else ScanArgs(ApplyArg(o, args[|args| - 1]), args[..|args| - 1])
  }

  /** What the device argument alone contributes. */
  function DeviceOptions(device: CString): Options {
    if device == "-h" || device == "--help" then Defaults.(help := true)
    else if device == "-v" || device == "--version" then Defaults.(version := true)
    else Defaults
  }

  /** `parse_switches`; `argv[0]` is the program name. */
  function ParseSwitches(argv: seq<CString>): (r: Options)
    ensures |argv| < 2 ==> r == Defaults.(help := true)
  {
    if |argv| < 2 then Defaults.(help := true)
    else ScanArgs(DeviceOptions(argv[|argv| - 1]), argv[1..|argv| - 1])
  }

  /** The loops of `parse_switches`, computing what `ParseSwitches` describes. */
  method ParseLoop(argv: seq<CString>) returns (r: Options)
    ensures r == ParseSwitches(argv)
  {
    if |argv| < 2 {
      return Defaults.(help := true);
    }
    var argc := |argv| - 1;
    r := DeviceOptions(argv[argc]);
    while argc > 1
      invariant 1 <= argc <= |argv| - 1
      invariant ScanArgs(r, argv[1..argc]) == ParseSwitches(argv)
    {
      argc := argc - 1;
      assert argv[1..argc + 1][..argc - 1] == argv[1..argc];
      r := ScanOne(r, argv[argc]);
    }
  }

  /** An argument starting with a single `-` is never a long option. */
  lemma ClusterArg(o: Options, a: CString)
    requires IsCluster(a)
    ensures ApplyArg(o, a) == ApplyCluster(o, a[1..])
  {
    assert |a| == 1 || a[1] != '-';
  }

  /** One argument, with the letter loop for a cluster. */
  method ScanOne(o: Options, a: CString) returns (r: Options)
    ensures r == ApplyArg(o, a)
  {
    if IsCluster(a) {
      ClusterArg(o, a);
      var w := a[1..];
      r := o;
      var i := 0;
      while i < |w|
        invariant 0 <= i <= |w|
        invariant ApplyCluster(r, w[i..]) == ApplyCluster(o, w)
      {
        assert w[i..][1..] == w[i + 1..];
        r := ApplyLetter(r, w[i]);
        i := i + 1;
      }
    } else {
      r := ApplyArg(o, a);
    }
  }
}
