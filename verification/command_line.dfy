/**
 * Properties of `parse_switches` as a whole, stated over the command line
 * `argv` (program name first, device last).
 */
module CommandLine {
  import opened Wrappers
  import opened Kinds
  import opened Switches
  import opened SwitchEffects

  /** The arguments `parse_switches` scans: all but the program name and the device. */
  function Middle(argv: seq<CString>): seq<CString>
    requires |argv| >= 2
  {
    argv[1..|argv| - 1]
  }

  lemma ParseIsEffect(argv: seq<CString>)
    requires |argv| >= 2
    ensures ParseSwitches(argv) == Combine(DeviceOptions(argv[|argv| - 1]), ArgsEffect(Middle(argv)))
  {
    ScanArgsEffect(DeviceOptions(argv[|argv| - 1]), Middle(argv));
  }

  /**
   * What the parsed options mean, over the scanned arguments `mid`: the
   * leftmost argument naming a record kind decides the kind; each flag is
   * set when some argument sets it, the device only counting for help and
   * version.
   */
  lemma ParseMeaning(argv: seq<CString>)
    requires |argv| >= 2
    ensures var r, mid, device := ParseSwitches(argv), Middle(argv), argv[|argv| - 1];
      && (r.force <==> exists i :: 0 <= i < |mid| && ArgEffect(mid[i]).force)
      && (r.keepLabel <==> forall i :: 0 <= i < |mid| ==> !ArgEffect(mid[i]).wipeLabel)
      && (r.partitionInfo <==> exists i :: 0 <= i < |mid| && ArgEffect(mid[i]).partitionInfo)
      && (r.version <==> device == "-v" || device == "--version" || exists i :: 0 <= i < |mid| && ArgEffect(mid[i]).version)
      && (r.help <==> device == "-h" || device == "--help" || exists i :: 0 <= i < |mid| && ArgEffect(mid[i]).help)
  {
    var device := argv[|argv| - 1];
    ParseIsEffect(argv);
    DeviceOptionsShape(device);
    ArgsFlags(Middle(argv));
  }

  /** The flags of the combined effect of `args`, in terms of each argument's. */
  lemma ArgsFlags(args: seq<CString>)
    ensures ArgsEffect(args).force <==> exists i :: 0 <= i < |args| && ArgEffect(args[i]).force
    ensures ArgsEffect(args).wipeLabel <==> exists i :: 0 <= i < |args| && ArgEffect(args[i]).wipeLabel
    ensures ArgsEffect(args).partitionInfo <==> exists i :: 0 <= i < |args| && ArgEffect(args[i]).partitionInfo
    ensures ArgsEffect(args).version <==> exists i :: 0 <= i < |args| && ArgEffect(args[i]).version
    ensures ArgsEffect(args).help <==> exists i :: 0 <= i < |args| && ArgEffect(args[i]).help
  {
    var es := Effects(args);
    assert forall i :: 0 <= i < |args| ==> es[i] == ArgEffect(args[i]);
  }

  /**
   * The record kind: none named gives `NO_WRITING`, otherwise the leftmost
   * argument naming one decides.
   */
  lemma ParseKind(argv: seq<CString>)
    requires |argv| >= 2
    ensures var r, mid := ParseSwitches(argv), Middle(argv);
      && ((forall i :: 0 <= i < |mid| ==> ArgEffect(mid[i]).kind.None?) ==> r.kind == NoWriting)
      && (forall i :: 0 <= i < |mid| && ArgEffect(mid[i]).kind.Some? && (forall j :: 0 <= j < i ==> ArgEffect(mid[j]).kind.None?)
            ==> r.kind == ArgEffect(mid[i]).kind.value)
  {
    ParseIsEffect(argv);
    DeviceOptionsShape(argv[|argv| - 1]);
    ArgsKind(Middle(argv));
  }

  /** The kind of the combined effect of `args`, in terms of each argument's. */
  lemma ArgsKind(args: seq<CString>)
    ensures (forall i :: 0 <= i < |args| ==> ArgEffect(args[i]).kind.None?) ==> ArgsEffect(args).kind.None?
    ensures forall i :: 0 <= i < |args| && ArgEffect(args[i]).kind.Some? && (forall j :: 0 <= j < i ==> ArgEffect(args[j]).kind.None?)
              ==> ArgsEffect(args).kind == ArgEffect(args[i]).kind
  {
    var es := Effects(args);
    assert forall i :: 0 <= i < |args| ==> es[i] == ArgEffect(args[i]);
  }

  /** What the device argument contributes: at most help or version. */
  lemma DeviceOptionsShape(device: CString)
    ensures var d := DeviceOptions(device);
      && d.kind == NoWriting && !d.force && d.keepLabel && !d.partitionInfo
      && (d.help <==> device == "-h" || device == "--help")
      && (d.version <==> device == "-v" || device == "--version")
  {
  }

  /**
   * The device argument never changes the kind or the force, label and
   * partition flags: only help and version can depend on it.
   */
  lemma DeviceArgumentInert(init: seq<CString>, d1: CString, d2: CString)
    requires |init| >= 1
    ensures var r1, r2 := ParseSwitches(init + [d1]), ParseSwitches(init + [d2]);
      r1.kind == r2.kind && r1.force == r2.force && r1.keepLabel == r2.keepLabel
      && r1.partitionInfo == r2.partitionInfo
  {
    ParseIsEffect(init + [d1]);
    ParseIsEffect(init + [d2]);
    MiddleSplit(init, [], [d1]);
    MiddleSplit(init, [], [d2]);
    DeviceOptionsShape(d1);
    DeviceOptionsShape(d2);
  }

  /** A short switch alone in its argument does what its letter does. */
  lemma ShortSwitch(o: Options, c: char)
    requires c != '-' && c != '\0'
    ensures ApplyArg(o, ['-', c]) == ApplyLetter(o, c)
  {
    var a: CString := ['-', c];
    ClusterArg(o, a);
    assert a[1..] == [c];
  }

  /** The long option spelled out for each short letter that has one. */
  function LongForm(c: char): Option<CString> {
    match c
    case '1' => Some("--fat12")
    case '2' => Some("--fat32nt")
    case '3' => Some("--fat32")
    case '6' => Some("--fat16")
    case 'f' => Some("--force")
    case 'l' => Some("--wipelabel")
    case 'p' => Some("--partition")
    case 'm' => Some("--mbr")
    case '9' => Some("--mbr95b")
    case 'd' => Some("--mbrdos")
    case 's' => Some("--mbrsyslinux")
    case 'z' => Some("--mbrzero")
    case 'w' => Some("--write")
    case 'v' => Some("--version")
    case _ => None
  }

  /** Each short letter, alone in a cluster, does what its long option does. */
  lemma ShortAndLongAgree(o: Options, c: char)
    requires LongForm(c).Some?
    ensures LongForm(c).value in LongOptions
    ensures ApplyArg(o, ['-', c]) == ApplyArg(o, LongForm(c).value)
  {
    ShortSwitch(o, c);
    ApplyLetterEffect(o, c);
    LongFormEffect(c);
    ApplyArgEffect(o, LongForm(c).value);
  }

  lemma LongFormEffect(c: char)
    requires LongForm(c).Some?
    ensures LongForm(c).value in LongOptions && LongOptions[LongForm(c).value] == LetterEffect(c)
  {
    if LetterKind(c).Some? {
      KindLongForms(c);
    } else {
      assert c in "flpv";
    }
  }

  lemma KindLongForms(c: char)
    requires LongForm(c).Some? && LetterKind(c).Some?
    ensures LongForm(c).value in LongOptions && LongOptions[LongForm(c).value] == LetterEffect(c)
  {
    if c in "1236" {
      FatLongForms(c);
    } else {
      assert c in "m9dszw";
      MbrLongForms(c);
    }
  }

  lemma FatLongForms(c: char)
    requires c in "1236"
    ensures LongForm(c).Some? && LongForm(c).value in LongOptions && LongOptions[LongForm(c).value] == LetterEffect(c)
  {
  }

  lemma MbrLongForms(c: char)
    requires c in "m9dszw"
    ensures LongForm(c).Some? && LongForm(c).value in LongOptions && LongOptions[LongForm(c).value] == LetterEffect(c)
  {
  }

  /** `-h` has no long twin among the scanned options, yet `--help` also requests help there. */
  lemma HelpSwitches(o: Options)
    ensures ApplyArg(o, "-h") == o.(help := true)
    ensures ApplyArg(o, "--help") == o.(help := true)
  {
    ShortSwitch(o, 'h');
  }

  lemma MiddleSplit(pre: seq<CString>, m: seq<CString>, post: seq<CString>)
    requires |pre| >= 1 && |post| >= 1
    ensures Middle(pre + m + post) == pre[1..] + m + post[..|post| - 1]
  {
  }

  lemma ArgsEffectSingle(x: CString)
    ensures ArgsEffect([x]) == ArgEffect(x)
  {
    assert Effects([x]) == [ArgEffect(x)];
    assert [ArgEffect(x)][..0] == [];
  }

  /** Parsing a command line cut into three pieces. */
  lemma ParseSplit(pre: seq<CString>, m: seq<CString>, post: seq<CString>)
    requires |pre| >= 1 && |post| >= 1
    ensures ParseSwitches(pre + m + post) ==
      Combine(DeviceOptions(post[|post| - 1]),
              Then(ArgsEffect(post[..|post| - 1]), Then(ArgsEffect(m), ArgsEffect(pre[1..]))))
  {
    var argv, a, b, d := pre + m + post, pre[1..], post[..|post| - 1], post[|post| - 1];
    ParseIsEffect(argv);
    assert argv[|argv| - 1] == d;
    MiddleSplit(pre, m, post);
    ArgsEffectAppend(a + m, b);
    ArgsEffectAppend(a, m);
  }

  /** Parsing with one more argument `x` in the middle. */
  lemma ParseInserted(pre: seq<CString>, x: CString, post: seq<CString>)
    requires |pre| >= 1 && |post| >= 1
    ensures ParseSwitches(pre + [x] + post) ==
      Combine(DeviceOptions(post[|post| - 1]),
              Then(ArgsEffect(post[..|post| - 1]), Then(ArgEffect(x), ArgsEffect(pre[1..]))))
  {
    ParseSplit(pre, [x], post);
    ArgsEffectSingle(x);
  }

  /** Parsing with nothing between the two pieces. */
  lemma ParseJoined(pre: seq<CString>, post: seq<CString>)
    requires |pre| >= 1 && |post| >= 1
    ensures ParseSwitches(pre + post) ==
      Combine(DeviceOptions(post[|post| - 1]),
              Then(ArgsEffect(post[..|post| - 1]), ArgsEffect(pre[1..])))
  {
    var a, b := pre[1..], post[..|post| - 1];
    JoinedPieces(pre, post);
    ParseIsEffect(pre + post);
    ArgsEffectAppend(a, b);
  }

  /** The last argument and the scanned middle of two joined pieces. */
  lemma JoinedPieces(pre: seq<CString>, post: seq<CString>)
    requires |pre| >= 1 && |post| >= 1
    ensures |pre + post| >= 2
    ensures (pre + post)[|pre + post| - 1] == post[|post| - 1]
    ensures Middle(pre + post) == pre[1..] + post[..|post| - 1]
  {
    MiddleSplit(pre, [], post);
    assert pre + [] + post == pre + post;
  }

  /**
   * An argument that is neither a long option nor starts with a single `-`
   * only requests help: parsing goes on as if it were absent.
   */
  lemma UnknownArgumentOnlySetsHelp(pre: seq<CString>, x: CString, post: seq<CString>)
    requires |pre| >= 1 && |post| >= 1
    requires x !in LongOptions && !IsCluster(x)
    ensures ParseSwitches(pre + [x] + post) == ParseSwitches(pre + post).(help := true)
  {
    ParseInserted(pre, x, post);
    ParseJoined(pre, post);
  }

  /** A lone `-` changes nothing. */
  lemma LoneDashIgnored(pre: seq<CString>, post: seq<CString>)
    requires |pre| >= 1 && |post| >= 1
    ensures ParseSwitches(pre + ["-"] + post) == ParseSwitches(pre + post)
  {
    ParseInserted(pre, "-", post);
    ParseJoined(pre, post);
    DashEffect();
  }

  lemma DashEffect()
    ensures ArgEffect("-") == NoEffect
  {
    assert "-" !in LongOptions;
    assert "-"[1..] == [];
  }

  /** An unknown letter in a cluster requests help; the other letters still count. */
  lemma UnknownLetterOnlySetsHelp(o: Options, u: string, c: char, v: string)
    requires !KnownLetter(c)
    ensures ApplyCluster(o, u + [c] + v) == ApplyCluster(o, u + v).(help := true)
  {
    ApplyClusterEffect(o, u + [c] + v);
    ApplyClusterEffect(o, u + v);
    UnknownLetterEffect(u, c, v);
  }

  lemma UnknownLetterEffect(u: string, c: char, v: string)
    requires !KnownLetter(c)
    ensures ClusterEffect(u + [c] + v) == ClusterEffect(u + v).(help := true)
  {
    ClusterEffectAppend(u + [c], v);
    ClusterEffectAppend(u, [c]);
    ClusterEffectAppend(u, v);
    assert ClusterEffect([c]) == LetterEffect(c) by {
      assert [c][1..] == [];
    }
  }
}
