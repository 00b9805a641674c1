/**
 * A second, declarative reading of the command line: every argument has an
 * effect that does not depend on what was parsed before it, and the options
 * are the defaults combined with those effects. A record kind named by an
 * earlier argument overrides one named by a later argument; inside a
 * cluster a later letter overrides an earlier one; the flags are
 * disjunctions.
 */
module SwitchEffects {
  import opened Wrappers
  import opened Kinds
  import opened Switches

  datatype Effect = Effect(
    kind: Option<Kind>,
    force: bool,
    wipeLabel: bool,
    partitionInfo: bool,
    version: bool,
    help: bool)

  const NoEffect: Effect := Effect(None, false, false, false, false, false)

  /** `first` followed by `second`: a kind named by `second` overrides. */
  function Then(first: Effect, second: Effect): Effect {
    Effect(
      if second.kind.Some? then second.kind else first.kind,
      first.force || second.force,
      first.wipeLabel || second.wipeLabel,
      first.partitionInfo || second.partitionInfo,
      first.version || second.version,
      first.help || second.help)
  }

  /** The options after an effect. */
  function Combine(o: Options, e: Effect): Options {
    Options(
      e.kind.GetOr(o.kind),
      o.force || e.force,
      o.version || e.version,
      o.keepLabel && !e.wipeLabel,
      o.partitionInfo || e.partitionInfo,
      o.help || e.help)
  }

  lemma ThenAssociative(e1: Effect, e2: Effect, e3: Effect)
    ensures Then(Then(e1, e2), e3) == Then(e1, Then(e2, e3))
  {
  }

  lemma CombineThen(o: Options, e1: Effect, e2: Effect)
    ensures Combine(Combine(o, e1), e2) == Combine(o, Then(e1, e2))
  {
  }

  /** The record kind a short letter names. */
  function LetterKind(c: char): Option<Kind> {
    match c
    case '1' => Some(Fat12Br)
    case '2' => Some(Fat32NtBr)
    case '3' => Some(Fat32Br)
    case '6' => Some(Fat16Br)
    case 'm' => Some(Mbr2000)
    case '9' => Some(Mbr95b)
    case 'd' => Some(MbrDos)
    case 's' => Some(MbrSyslinux)
    case 'z' => Some(MbrZero)
    case 'w' => Some(AutoBr)
    case _ => None
  }

  predicate KnownLetter(c: char) {
    LetterKind(c).Some? || c == 'f' || c == 'l' || c == 'p' || c == 'v'
  }

  function LetterEffect(c: char): Effect {
    Effect(LetterKind(c), c == 'f', c == 'l', c == 'p', c == 'v', !KnownLetter(c))
  }

  lemma ApplyLetterEffect(o: Options, c: char)
    ensures ApplyLetter(o, c) == Combine(o, LetterEffect(c))
  {
    if LetterKind(c).Some? {
      KindLetterEffect(o, c);
    } else if KnownLetter(c) {
      assert c == 'f' || c == 'l' || c == 'p' || c == 'v';
    } else {
      assert c !in "1236flpm9dszwv";
    }
  }

  lemma KindLetterEffect(o: Options, c: char)
    requires LetterKind(c).Some?
    ensures ApplyLetter(o, c) == Combine(o, LetterEffect(c))
  {
    assert c in "1236m9dszw";
  }

  /**
   * The effect of a cluster: the last letter naming a kind decides the
   * kind; a flag is set when its letter occurs; help when some letter is
   * unknown.
   */
  function ClusterEffect(w: string): (e: Effect)
    ensures e.force <==> 'f' in w
    ensures e.wipeLabel <==> 'l' in w
    ensures e.partitionInfo <==> 'p' in w
    ensures e.version <==> 'v' in w
    ensures e.help <==> exists i :: 0 <= i < |w| && !KnownLetter(w[i])
    ensures e.kind.None? <==> forall i :: 0 <= i < |w| ==> LetterKind(w[i]).None?
    ensures e.kind.Some? ==>
      exists i :: 0 <= i < |w| && LetterKind(w[i]) == e.kind
                  && forall j :: i < j < |w| ==> LetterKind(w[j]).None?
    ensures forall i :: 0 <= i < |w| && LetterKind(w[i]).Some? && (forall j :: i < j < |w| ==> LetterKind(w[j]).None?)
              ==> e.kind == LetterKind(w[i])
    decreases |w|
  {
    if |w| == 0 then NoEffect
    else
      var rest := ClusterEffect(w[1..]);
      assert forall i :: 1 <= i < |w| ==> w[i] == w[1..][i - 1];
      assert forall c :: c in w <==> c == w[0] || c in w[1..];
      Then(LetterEffect(w[0]), rest)
  }

  lemma {:induction false} ApplyClusterEffect(o: Options, w: string)
    ensures ApplyCluster(o, w) == Combine(o, ClusterEffect(w))
    decreases |w|
  {
    if |w| > 0 {
      ApplyClusterEffect(ApplyLetter(o, w[0]), w[1..]);
      ApplyLetterEffect(o, w[0]);
      CombineThen(o, LetterEffect(w[0]), ClusterEffect(w[1..]));
    }
  }

  /** A cluster's effect is the effect of its pieces in order. */
  lemma {:induction false} ClusterEffectAppend(u: string, v: string)
    ensures ClusterEffect(u + v) == Then(ClusterEffect(u), ClusterEffect(v))
    decreases |u|
  {
    if |u| > 0 {
      assert (u + v)[1..] == u[1..] + v;
      assert (u + v)[0] == u[0];
      ClusterEffectAppend(u[1..], v);
      ThenAssociative(LetterEffect(u[0]), ClusterEffect(u[1..]), ClusterEffect(v));
    } else {
      assert u + v == v;
    }
  }

  /** The long options and the effect of each. */
  const LongOptions: map<string, Effect> := map[
    "--fat12" := NoEffect.(kind := Some(Fat12Br)),
    "--fat32nt" := NoEffect.(kind := Some(Fat32NtBr)),
    "--fat32" := NoEffect.(kind := Some(Fat32Br)),
    "--fat16" := NoEffect.(kind := Some(Fat16Br)),
    "--force" := NoEffect.(force := true),
    "--wipelabel" := NoEffect.(wipeLabel := true),
    "--partition" := NoEffect.(partitionInfo := true),
    "--mbr" := NoEffect.(kind := Some(Mbr2000)),
    "--mbr95b" := NoEffect.(kind := Some(Mbr95b)),
    "--mbrdos" := NoEffect.(kind := Some(MbrDos)),
    "--mbrsyslinux" := NoEffect.(kind := Some(MbrSyslinux)),
    "--mbrzero" := NoEffect.(kind := Some(MbrZero)),
    "--write" := NoEffect.(kind := Some(AutoBr)),
    "--version" := NoEffect.(version := true)]

  /** The effect of one argument before the device. */
  function ArgEffect(a: CString): Effect {
    if a in LongOptions then LongOptions[a]
    else if IsCluster(a) then ClusterEffect(a[1..])
    else NoEffect.(help := true)
  }

  lemma ApplyArgEffect(o: Options, a: CString)
    ensures ApplyArg(o, a) == Combine(o, ArgEffect(a))
  {
    if a in LongOptions {
      LongArgEffect(o, a);
    } else {
      OtherArgEffect(o, a);
    }
  }

  lemma LongArgEffect(o: Options, a: CString)
    requires a in LongOptions
    ensures ApplyArg(o, a) == Combine(o, LongOptions[a])
  {
    if a == "--fat12" || a == "--fat32nt" || a == "--fat32" || a == "--fat16" {
      KindLongOptions(o, a);
    } else if a == "--force" || a == "--wipelabel" || a == "--partition" {
      FlagLongOptions(o, a);
    } else if a == "--mbr" || a == "--mbr95b" || a == "--mbrdos" {
      MbrLongOptions(o, a);
    } else {
      assert a == "--mbrsyslinux" || a == "--mbrzero" || a == "--write" || a == "--version";
      LastLongOptions(o, a);
    }
  }

  lemma KindLongOptions(o: Options, a: CString)
    requires a == "--fat12" || a == "--fat32nt" || a == "--fat32" || a == "--fat16"
    ensures a in LongOptions && ApplyArg(o, a) == Combine(o, LongOptions[a])
  {
  }

  lemma FlagLongOptions(o: Options, a: CString)
    requires a == "--force" || a == "--wipelabel" || a == "--partition"
    ensures a in LongOptions && ApplyArg(o, a) == Combine(o, LongOptions[a])
  {
  }

  lemma MbrLongOptions(o: Options, a: CString)
    requires a == "--mbr" || a == "--mbr95b" || a == "--mbrdos"
    ensures a in LongOptions && ApplyArg(o, a) == Combine(o, LongOptions[a])
  {
  }

  lemma LastLongOptions(o: Options, a: CString)
    requires a == "--mbrsyslinux" || a == "--mbrzero" || a == "--write" || a == "--version"
    ensures a in LongOptions && ApplyArg(o, a) == Combine(o, LongOptions[a])
  {
  }

  lemma OtherArgEffect(o: Options, a: CString)
    requires a !in LongOptions
    ensures ApplyArg(o, a) == Combine(o, if IsCluster(a) then ClusterEffect(a[1..]) else NoEffect.(help := true))
  {
    assert a != "--fat12" && a != "--fat32nt" && a != "--fat32" && a != "--fat16" && a != "--force" && a != "--wipelabel" && a != "--partition" && a != "--mbr" && a != "--mbr95b" && a != "--mbrdos" && a != "--mbrsyslinux" && a != "--mbrzero" && a != "--write" && a != "--version";
    if IsCluster(a) {
      ApplyClusterEffect(o, a[1..]);
    }
  }

  /** An argument only moves the flags away from their defaults, never back. */
  lemma ApplyArgMonotone(o: Options, a: CString)
    ensures var r := ApplyArg(o, a);
      && (o.force ==> r.force) && (o.version ==> r.version) && (!o.keepLabel ==> !r.keepLabel)
      && (o.partitionInfo ==> r.partitionInfo) && (o.help ==> r.help)
  {
    ApplyArgEffect(o, a);
  }

  /** The effect of each argument. */
  function Effects(args: seq<CString>): (es: seq<Effect>)
    ensures |es| == |args|
    ensures forall i :: 0 <= i < |args| ==> es[i] == ArgEffect(args[i])
  {
    seq(|args|, i requires 0 <= i < |args| => ArgEffect(args[i]))
  }

  /**
   * Effects applied last to first: the leftmost effect naming a kind
   * decides it; a flag is set when some effect sets it.
   */
  function Leftmost(es: seq<Effect>): (e: Effect)
    ensures e.force <==> exists i :: 0 <= i < |es| && es[i].force
    ensures e.wipeLabel <==> exists i :: 0 <= i < |es| && es[i].wipeLabel
    ensures e.partitionInfo <==> exists i :: 0 <= i < |es| && es[i].partitionInfo
    ensures e.version <==> exists i :: 0 <= i < |es| && es[i].version
    ensures e.help <==> exists i :: 0 <= i < |es| && es[i].help
    ensures e.kind.None? <==> forall i :: 0 <= i < |es| ==> es[i].kind.None?
    ensures e.kind.Some? ==>
      exists i :: 0 <= i < |es| && es[i].kind == e.kind
                  && forall j :: 0 <= j < i ==> es[j].kind.None?
    ensures forall i :: 0 <= i < |es| && es[i].kind.Some? && (forall j :: 0 <= j < i ==> es[j].kind.None?)
              ==> e.kind == es[i].kind
    decreases |es|
  {
    if |es| == 0 then NoEffect
    else
      var init := es[..|es| - 1];
      var rest := Leftmost(init);
      assert forall i :: 0 <= i < |init| ==> init[i] == es[i];
      Then(es[|es| - 1], rest)
  }

  /** The combined effect of the arguments between program name and device. */
  function ArgsEffect(args: seq<CString>): Effect {
    Leftmost(Effects(args))
  }

  lemma {:induction false} ScanArgsEffect(o: Options, args: seq<CString>)
    ensures ScanArgs(o, args) == Combine(o, ArgsEffect(args))
    decreases |args|
  {
    if |args| > 0 {
      var last, init := args[|args| - 1], args[..|args| - 1];
      ScanArgsEffect(ApplyArg(o, last), init);
      ApplyArgEffect(o, last);
      assert Effects(args)[..|args| - 1] == Effects(init);
      CombineThen(o, ArgEffect(last), ArgsEffect(init));
    }
  }

  /** Later effects overridden by earlier ones. */
  lemma {:induction false} LeftmostAppend(a: seq<Effect>, b: seq<Effect>)
    ensures Leftmost(a + b) == Then(Leftmost(b), Leftmost(a))
    decreases |b|
  {
    if |b| > 0 {
      assert (a + b)[..|a + b| - 1] == a + b[..|b| - 1];
      LeftmostAppend(a, b[..|b| - 1]);
      ThenAssociative(b[|b| - 1], Leftmost(b[..|b| - 1]), Leftmost(a));
    } else {
      assert a + b == a;
    }
  }

  lemma ArgsEffectAppend(a: seq<CString>, b: seq<CString>)
    ensures ArgsEffect(a + b) == Then(ArgsEffect(b), ArgsEffect(a))
  {
    var ab, ea, eb := Effects(a + b), Effects(a), Effects(b);
    forall i | 0 <= i < |a + b|
      ensures ab[i] == (ea + eb)[i]
    {
      if i < |a| {
        assert (a + b)[i] == a[i];
      } else {
        assert (a + b)[i] == b[i - |a|];
      }
    }
    assert ab == ea + eb;
    LeftmostAppend(ea, eb);
  }
}
