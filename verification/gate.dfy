/**
 * The part of main.c that decides what is written: automatic selection,
 * the sanity gate, the partition-information writes, the dispatch on the
 * record kind and the exit status. Everything main consults apart from the
 * command line is an input (`Env`); what it does is a list of events.
 */
module Gate {
  import opened Wrappers
  import opened Kinds
  import opened Device
  import opened Signatures
  import opened Sanity
  import opened Select
  import opened Diagnosis
  import opened Switches
  import CommandLine

  /**
   * The answers main gets from the outside world. The device facts and
   * signatures are taken to be the same on every query of one run.
   */
  datatype Env = Env(
    openOk: bool,          // opening the device succeeded
    facts: Facts,
    fs: FsSignatures,
    sector: SectorOracles,
    startSectorOk: bool,   // writing the partition start sector succeeded
    driveIdOk: bool,       // writing the physical drive id succeeded
    recordOk: bool)        // writing the chosen boot record succeeded

  datatype Event =
    | ShowHelp
    | ShowVersion
    | OpenFailed(writable: bool)
    | Opened(writable: bool)
    | AutoSelectFailed
    | Vetoed(kind: Kind, message: Option<Veto>)
    | StartSectorWritten(ok: bool)
    | DriveIdWritten(ok: bool)
    | RecordWritten(kind: Kind, keepLabel: Option<bool>, ok: bool)
    | Diagnosed(report: Report)
    | UnknownRecordError

  datatype Outcome = Outcome(events: seq<Event>, status: int)

  /** The events after which main returns 1. */
  predicate IsFailure(e: Event) {
    match e
    case OpenFailed(_) => true
    case Vetoed(_, _) => true
    case StartSectorWritten(ok) => !ok
    case RecordWritten(_, _, ok) => !ok
    case _ => false
  }

  predicate IsWrite(e: Event) {
    e.StartSectorWritten? || e.DriveIdWritten? || e.RecordWritten?
  }

  /** The kind main goes on with: `AUTO_BR` is replaced by the automatic choice. */
  function SelectedKind(o: Options, order: seq<Kind>, env: Env): (k: Kind)
    ensures o.kind != AutoBr ==> k == o.kind
    ensures o.kind == AutoBr ==> k == SmartSelect(order, env.facts, env.fs)
    ensures o.kind == AutoBr ==> k == NoWriting || (IsRecord(k) && Passes(k, env.facts, env.fs))
  {
    if o.kind == AutoBr then SmartSelect(order, env.facts, env.fs) else o.kind
  }

  /** Writing the partition information: start sector, then the drive id. */
  function WritePartitionInfo(env: Env): (r: Outcome)
    ensures r.status == 1 <==> !env.startSectorOk
    ensures r.status == 0 || r.status == 1
    ensures DriveIdWritten(env.driveIdOk) in r.events <==> env.startSectorOk
  {
    if env.startSectorOk then Outcome([StartSectorWritten(true), DriveIdWritten(env.driveIdOk)], 0)
    else Outcome([StartSectorWritten(false)], 1)
  }

  /**
   * The final switch of main. A record kind is written, with the label flag
   * for the file-system records; a failed write makes the status 1.
   * `NO_WRITING` diagnoses the device unless partition information was
   * written. Any other kind only reports an internal error.
   */
  function Dispatch(kind: Kind, o: Options, env: Env, status: int): (r: Outcome)
    ensures r.status == 1 <==> status == 1 || (IsRecord(kind) && !env.recordOk)
    ensures r.status != status ==> IsRecord(kind) && !env.recordOk
    ensures |r.events| <= 1
    ensures r.events == [] <==> kind == NoWriting && o.partitionInfo
    ensures forall e :: e in r.events ==>
      || (e.RecordWritten? && e.kind == kind && IsRecord(kind) && e.ok == env.recordOk
          && e.keepLabel == (if IsFatBr(kind) then Some(o.keepLabel) else None))
      || (e == Diagnosed(Diagnose(env.fs, env.sector)) && kind == NoWriting)
      || (e == UnknownRecordError && kind == AutoBr)
  {
    match kind
    case NoWriting =>
      Outcome(if !o.partitionInfo then [Diagnosed(Diagnose(env.fs, env.sector))] else [], status)
    case Mbr2000 | Mbr95b | MbrDos | MbrSyslinux | MbrZero =>
      Outcome([RecordWritten(kind, None, env.recordOk)], if env.recordOk then status else 1)
    case Fat12Br | Fat16Br | Fat32NtBr | Fat32Br =>
      Outcome([RecordWritten(kind, Some(o.keepLabel), env.recordOk)], if env.recordOk then status else 1)
    case _ =>
      Outcome([UnknownRecordError], status)
  }

  /** The dispatch fails exactly when a record write fails. */
  lemma DispatchFailure(kind: Kind, o: Options, env: Env, status: int)
    ensures AnyFailure(Dispatch(kind, o, env, status).events) <==> IsRecord(kind) && !env.recordOk
  {
    var r := Dispatch(kind, o, env, status);
    if r.events != [] {
      SingleFailure(r.events[0]);
      assert r.events == [r.events[0]];
    }
  }

  predicate AnyFailure(events: seq<Event>) {
    exists e :: e in events && IsFailure(e)
  }

  predicate AnyDiagnosis(events: seq<Event>) {
    exists e :: e in events && e.Diagnosed?
  }

  lemma SingleFailure(e: Event)
    ensures AnyFailure([e]) <==> IsFailure(e)
  {
    assert e in [e];
  }

  /** Facts about events of a concatenation. */
  lemma Concat(a: seq<Event>, b: seq<Event>)
    ensures AnyFailure(a + b) <==> AnyFailure(a) || AnyFailure(b)
    ensures AnyDiagnosis(a + b) <==> AnyDiagnosis(a) || AnyDiagnosis(b)
  {
    if AnyFailure(a + b) {
      var e :| e in a + b && IsFailure(e);
      assert e in a || e in b;
    }
    if AnyFailure(a) {
      var e :| e in a && IsFailure(e);
      assert e in a + b;
    }
    if AnyFailure(b) {
      var e :| e in b && IsFailure(e);
      assert e in a + b;
    }
    if AnyDiagnosis(a + b) {
      var e :| e in a + b && e.Diagnosed?;
      assert e in a || e in b;
    }
    if AnyDiagnosis(a) {
      var e :| e in a && e.Diagnosed?;
      assert e in a + b;
    }
    if AnyDiagnosis(b) {
      var e :| e in b && e.Diagnosed?;
      assert e in a + b;
    }
  }

  /** Main past the sanity gate: partition information, then the dispatch. */
  function Proceed(kind: Kind, o: Options, env: Env): (r: Outcome)
    ensures r.status == 0 || r.status == 1
  {
    var info := if o.partitionInfo then WritePartitionInfo(env) else Outcome([], 0);
    var dispatch := Dispatch(kind, o, env, info.status);
    Outcome(info.events + dispatch.events, dispatch.status)
  }

  /** Past the gate, main returns 1 exactly when a write failed. */
  lemma ProceedStatus(kind: Kind, o: Options, env: Env)
    ensures Proceed(kind, o, env).status == 1 <==> AnyFailure(Proceed(kind, o, env).events)
  {
    var info := if o.partitionInfo then WritePartitionInfo(env) else Outcome([], 0);
    var dispatch := Dispatch(kind, o, env, info.status);
    Concat(info.events, dispatch.events);
    DispatchFailure(kind, o, env, info.status);
    if o.partitionInfo && !env.startSectorOk {
      assert IsFailure(info.events[0]);
    } else {
      assert !AnyFailure(info.events);
    }
  }

  /**
   * Past the gate, the only events are partition-information writes (on
   * request), the write of the kind itself (when it is a record), the
   * diagnosis, and the internal error.
   */
  lemma ProceedEvents(kind: Kind, o: Options, env: Env)
    ensures forall e :: e in Proceed(kind, o, env).events ==>
      || ((e.StartSectorWritten? || e.DriveIdWritten?) && o.partitionInfo)
      || (e.RecordWritten? && e.kind == kind && IsRecord(kind))
      || e.Diagnosed?
      || e == UnknownRecordError
  {
    var info := if o.partitionInfo then WritePartitionInfo(env) else Outcome([], 0);
    var dispatch := Dispatch(kind, o, env, info.status);
    assert forall e :: e in info.events ==> (e.StartSectorWritten? || e.DriveIdWritten?) && o.partitionInfo;
    if IsRecord(kind) {
      assert forall e :: e in dispatch.events ==> e.RecordWritten? && e.kind == kind;
    } else if kind == NoWriting {
      assert forall e :: e in dispatch.events ==> e.Diagnosed?;
    } else {
      assert dispatch.events == [UnknownRecordError];
    }
  }

  /** Past the gate, the internal error is reported exactly for `AUTO_BR`. */
  lemma ProceedUnknown(kind: Kind, o: Options, env: Env)
    ensures UnknownRecordError in Proceed(kind, o, env).events <==> kind == AutoBr
    ensures kind == AutoBr ==> Proceed(kind, o, env).status == (if o.partitionInfo && !env.startSectorOk then 1 else 0)
  {
    var info := if o.partitionInfo then WritePartitionInfo(env) else Outcome([], 0);
    var dispatch := Dispatch(kind, o, env, info.status);
    Concat(info.events, dispatch.events);
    assert UnknownRecordError !in info.events;
    if kind == AutoBr {
      assert dispatch.events[0] == UnknownRecordError;
    } else {
      assert UnknownRecordError !in dispatch.events;
    }
  }

  /** Past the gate, the device is diagnosed exactly when nothing is to be written. */
  lemma ProceedDiagnosis(kind: Kind, o: Options, env: Env)
    ensures AnyDiagnosis(Proceed(kind, o, env).events) <==> kind == NoWriting && !o.partitionInfo
  {
    var info := if o.partitionInfo then WritePartitionInfo(env) else Outcome([], 0);
    var dispatch := Dispatch(kind, o, env, info.status);
    Concat(info.events, dispatch.events);
    assert !AnyDiagnosis(info.events);
    if kind == NoWriting && !o.partitionInfo {
      assert dispatch.events[0].Diagnosed?;
    } else {
      assert !AnyDiagnosis(dispatch.events);
    }
  }

  /**
   * The events main can produce once the device is open. A record is
   * written only when it is the selected kind and passed the sanity check
   * or the check was forced.
   */
  predicate GateEvent(e: Event, o: Options, order: seq<Kind>, env: Env) {
    || (e == AutoSelectFailed && o.kind == AutoBr && SelectedKind(o, order, env) == NoWriting)
    || (e.Vetoed? && e.kind == SelectedKind(o, order, env) && e.kind != NoWriting
        && !o.force && !Passes(e.kind, env.facts, env.fs))
    || ((e.StartSectorWritten? || e.DriveIdWritten?) && o.partitionInfo)
    || (e.RecordWritten? && IsRecord(e.kind) && e.kind == SelectedKind(o, order, env)
        && (o.force || Passes(e.kind, env.facts, env.fs)))
    || e.Diagnosed?
  }

  /**
   * Main once the device is open: selection, the sanity gate, then the
   * rest.
   */
  function AfterOpen(o: Options, order: seq<Kind>, env: Env): (r: Outcome)
    ensures r.status == 0 || r.status == 1
    ensures forall e :: e in r.events ==> GateEvent(e, o, order, env)
  {
    var kind := SelectedKind(o, order, env);
    var selection := if o.kind == AutoBr && kind == NoWriting then [AutoSelectFailed] else [];
    var check := SanityCheck(kind, env.facts, env.fs, true);
    PrintFlagIrrelevant(kind, env.facts, env.fs);
    if kind != NoWriting && !o.force && !check.ok then
      Outcome(selection + [Vetoed(kind, check.message)], 1)
    else
      var rest := Proceed(kind, o, env);
      ProceedEvents(kind, o, env);
      ProceedUnknown(kind, o, env);
      Outcome(selection + rest.events, rest.status)
  }

  /** Once the device is open, main returns 1 exactly when something failed. */
  lemma AfterOpenStatus(o: Options, order: seq<Kind>, env: Env)
    ensures AfterOpen(o, order, env).status == 1 <==> AnyFailure(AfterOpen(o, order, env).events)
  {
    var kind := SelectedKind(o, order, env);
    var selection := if o.kind == AutoBr && kind == NoWriting then [AutoSelectFailed] else [];
    assert !AnyFailure(selection);
    var check := SanityCheck(kind, env.facts, env.fs, true);
    if kind != NoWriting && !o.force && !check.ok {
      var vetoed := [Vetoed(kind, check.message)];
      Concat(selection, vetoed);
      assert IsFailure(vetoed[0]);
    } else {
      ProceedStatus(kind, o, env);
      Concat(selection, Proceed(kind, o, env).events);
    }
  }

  /** Once the device is open, it is diagnosed exactly when nothing is to be written. */
  lemma AfterOpenDiagnosis(o: Options, order: seq<Kind>, env: Env)
    ensures AnyDiagnosis(AfterOpen(o, order, env).events) <==> SelectedKind(o, order, env) == NoWriting && !o.partitionInfo
  {
    var kind := SelectedKind(o, order, env);
    var selection := if o.kind == AutoBr && kind == NoWriting then [AutoSelectFailed] else [];
    assert !AnyDiagnosis(selection);
    var check := SanityCheck(kind, env.facts, env.fs, true);
    if kind != NoWriting && !o.force && !check.ok {
      var vetoed := [Vetoed(kind, check.message)];
      Concat(selection, vetoed);
      assert !AnyDiagnosis(vetoed);
    } else {
      ProceedDiagnosis(kind, o, env);
      Concat(selection, Proceed(kind, o, env).events);
    }
  }

  /**
   * Main after parsing, for a command line of `argc` words: help, version,
   * opening the device (for update when anything may be written), then
   * the gate.
   */
  function Run(o: Options, argc: nat, order: seq<Kind>, env: Env): (r: Outcome)
    ensures r.status == 0 || r.status == 1
    ensures o.help ==> r == Outcome([ShowHelp], 0)
    ensures !o.help && o.version ==> |r.events| > 0 && r.events[0] == ShowVersion
    ensures !o.help && !(o.version && argc < 3) && !env.openOk ==> r.status == 1
    ensures !o.help && !(o.version && argc < 3) && env.openOk ==>
      Opened(o.kind != NoWriting || o.partitionInfo) in r.events
  {
    if o.help then Outcome([ShowHelp], 0)
    else
      var version := if o.version then [ShowVersion] else [];
      if o.version && argc < 3 then Outcome(version, 0)
      else
        var writable := o.kind != NoWriting || o.partitionInfo;
        if !env.openOk then Outcome(version + [OpenFailed(writable)], 1)
        else
          var rest := AfterOpen(o, order, env);
          Outcome(version + [Opened(writable)] + rest.events, rest.status)
  }

  /** Main returns 1 exactly when something failed. */
  lemma RunStatus(o: Options, argc: nat, order: seq<Kind>, env: Env)
    ensures Run(o, argc, order, env).status == 1 <==> AnyFailure(Run(o, argc, order, env).events)
  {
    if !o.help && !(o.version && argc < 3) {
      var version := if o.version then [ShowVersion] else [];
      var writable := o.kind != NoWriting || o.partitionInfo;
      assert !AnyFailure(version);
      if !env.openOk {
        Concat(version, [OpenFailed(writable)]);
        assert IsFailure([OpenFailed(writable)][0]);
      } else {
        var rest := AfterOpen(o, order, env);
        AfterOpenStatus(o, order, env);
        Concat(version, [Opened(writable)]);
        Concat(version + [Opened(writable)], rest.events);
        assert !AnyFailure([Opened(writable)]);
      }
    }
  }

  /** Every event of main after opening comes from the version line, the opening or the gate. */
  lemma RunEventSources(o: Options, argc: nat, order: seq<Kind>, env: Env)
    ensures forall e :: e in Run(o, argc, order, env).events ==>
      || e == ShowHelp || e == ShowVersion || e.OpenFailed?
      || e == Opened(o.kind != NoWriting || o.partitionInfo)
      || GateEvent(e, o, order, env)
  {
  }

  /**
   * Every record written is the selected kind, and passed the sanity check
   * unless forced; the internal error is unreachable.
   */
  lemma RunRecords(o: Options, argc: nat, order: seq<Kind>, env: Env)
    ensures UnknownRecordError !in Run(o, argc, order, env).events
    ensures forall e :: e in Run(o, argc, order, env).events && e.RecordWritten? ==>
      && IsRecord(e.kind)
      && e.kind == SelectedKind(o, order, env)
      && (o.force || Passes(e.kind, env.facts, env.fs))
  {
    RunEventSources(o, argc, order, env);
    var r := Run(o, argc, order, env);
    assert !GateEvent(UnknownRecordError, o, order, env);
    forall e | e in r.events && e.RecordWritten?
      ensures IsRecord(e.kind) && e.kind == SelectedKind(o, order, env)
      ensures o.force || Passes(e.kind, env.facts, env.fs)
    {
      assert GateEvent(e, o, order, env);
    }
  }

  /** Partition information is written only on request. */
  lemma RunPartitionInfo(o: Options, argc: nat, order: seq<Kind>, env: Env)
    ensures forall e :: e in Run(o, argc, order, env).events && (e.StartSectorWritten? || e.DriveIdWritten?) ==>
      o.partitionInfo
  {
    RunEventSources(o, argc, order, env);
  }

  /** Anything written was written to a device opened for update. */
  lemma RunOpenedForWrites(o: Options, argc: nat, order: seq<Kind>, env: Env)
    ensures forall e :: e in Run(o, argc, order, env).events && IsWrite(e) ==>
      Opened(true) in Run(o, argc, order, env).events
  {
    RunEventSources(o, argc, order, env);
    var r := Run(o, argc, order, env);
    if e :| e in r.events && IsWrite(e) {
      assert GateEvent(e, o, order, env);
      assert !o.help && !(o.version && argc < 3) && env.openOk;
      assert o.kind != NoWriting || o.partitionInfo;
    }
  }

  /**
   * The device is diagnosed exactly when main gets past help, version and
   * opening with nothing to write.
   */
  lemma RunDiagnosis(o: Options, argc: nat, order: seq<Kind>, env: Env)
    ensures AnyDiagnosis(Run(o, argc, order, env).events) <==>
      && !o.help && !(o.version && argc < 3) && env.openOk
      && SelectedKind(o, order, env) == NoWriting && !o.partitionInfo
  {
    if !o.help {
      var version := if o.version then [ShowVersion] else [];
      assert !AnyDiagnosis(version);
      if !(o.version && argc < 3) {
        var writable := o.kind != NoWriting || o.partitionInfo;
        if !env.openOk {
          Concat(version, [OpenFailed(writable)]);
          assert !AnyDiagnosis([OpenFailed(writable)]);
        } else {
          var rest := AfterOpen(o, order, env);
          AfterOpenDiagnosis(o, order, env);
          Concat(version, [Opened(writable)]);
          Concat(version + [Opened(writable)], rest.events);
          assert !AnyDiagnosis([Opened(writable)]);
        }
      }
    } else {
      assert !AnyDiagnosis([ShowHelp]);
    }
  }

  /**
   * Unless forced, a selected record that fails the sanity check stops
   * main with status 1 after the veto: nothing is written.
   */
  lemma RunVeto(o: Options, argc: nat, order: seq<Kind>, env: Env)
    requires !o.help && !(o.version && argc < 3) && env.openOk
    requires SelectedKind(o, order, env) != NoWriting && !o.force
    requires !Passes(SelectedKind(o, order, env), env.facts, env.fs)
    ensures Run(o, argc, order, env).status == 1
    ensures exists m :: Vetoed(SelectedKind(o, order, env), m) in Run(o, argc, order, env).events
    ensures forall e :: e in Run(o, argc, order, env).events ==> !IsWrite(e) && !e.Diagnosed?
  {
    var kind := SelectedKind(o, order, env);
    PrintFlagIrrelevant(kind, env.facts, env.fs);
    var check := SanityCheck(kind, env.facts, env.fs, true);
    var selection := if o.kind == AutoBr && kind == NoWriting then [AutoSelectFailed] else [];
    assert AfterOpen(o, order, env).events == selection + [Vetoed(kind, check.message)];
    var version := if o.version then [ShowVersion] else [];
    var writable := o.kind != NoWriting || o.partitionInfo;
    assert Run(o, argc, order, env).events == version + [Opened(writable)] + selection + [Vetoed(kind, check.message)];
    assert Vetoed(kind, check.message) in Run(o, argc, order, env).events;
  }

  /** A command line with one switch before the device. */
  lemma ParseSingle(program: CString, a: CString, device: CString)
    ensures ParseSwitches([program, a, device]) == ApplyArg(DeviceOptions(device), a)
  {
    var argv: seq<CString> := [program, a, device];
    assert argv[1..|argv| - 1] == [a];
    var d := DeviceOptions(device);
    assert ScanArgs(d, [a]) == ScanArgs(ApplyArg(d, a), []);
  }

  /**
   * The switch a diagnosis names is the one that writes the record it
   * recognised: given alone before the device, it selects that kind.
   */
  lemma VerdictSwitchSelectsTemplate(v: Verdict, program: CString, device: CString)
    requires SwitchLetter(v).Some?
    ensures TemplateKind(v).Some?
    ensures ParseSwitches([program, ['-', SwitchLetter(v).value], device]).kind == TemplateKind(v).value
  {
    var c := SwitchLetter(v).value;
    var argv: seq<CString> := [program, ['-', c], device];
    var a: CString := ['-', c];
    ParseSingle(program, a, device);
    CommandLine.ShortSwitch(DeviceOptions(device), c);
  }

  /** Main gets past help, version and opening the device. */
  predicate PastOpen(o: Options, argc: nat, env: Env) {
    !o.help && !(o.version && argc < 3) && env.openOk
  }

  /** The sanity gate lets `kind` through: nothing to write, forced, or passing. */
  predicate Allowed(kind: Kind, o: Options, env: Env) {
    kind == NoWriting || o.force || Passes(kind, env.facts, env.fs)
  }

  /** The record write the final switch performs for a record kind. */
  function RecordEvent(kind: Kind, o: Options, env: Env): Event {
    RecordWritten(kind, if IsFatBr(kind) then Some(o.keepLabel) else None, env.recordOk)
  }

  /**
   * Past the gate, a partition-information request writes the start
   * sector, and the drive id after a successful start sector; a record kind
   * is written.
   */
  lemma ProceedWrites(kind: Kind, o: Options, env: Env)
    ensures o.partitionInfo ==> StartSectorWritten(env.startSectorOk) in Proceed(kind, o, env).events
    ensures o.partitionInfo && env.startSectorOk ==> DriveIdWritten(env.driveIdOk) in Proceed(kind, o, env).events
    ensures IsRecord(kind) ==> RecordEvent(kind, o, env) in Proceed(kind, o, env).events
  {
    var info := if o.partitionInfo then WritePartitionInfo(env) else Outcome([], 0);
    var dispatch := Dispatch(kind, o, env, info.status);
    var events := info.events + dispatch.events;
    if o.partitionInfo {
      assert info.events[0] == StartSectorWritten(env.startSectorOk);
      assert events[0] == info.events[0];
    }
    if IsRecord(kind) {
      assert dispatch.events == [RecordEvent(kind, o, env)];
      assert events[|info.events|] == dispatch.events[0];
    }
  }

  /** When the gate lets the kind through, main goes on to the rest. */
  lemma AfterOpenAllowed(o: Options, order: seq<Kind>, env: Env)
    requires Allowed(SelectedKind(o, order, env), o, env)
    ensures var kind := SelectedKind(o, order, env);
      && AfterOpen(o, order, env).status == Proceed(kind, o, env).status
      && forall e :: e in Proceed(kind, o, env).events ==> e in AfterOpen(o, order, env).events
  {
    var kind := SelectedKind(o, order, env);
    PrintFlagIrrelevant(kind, env.facts, env.fs);
  }

  /** Once open, main returns 1 exactly on a veto or a failed write, in terms of the inputs. */
  lemma AfterOpenStatusOnInputs(o: Options, order: seq<Kind>, env: Env)
    ensures var k := SelectedKind(o, order, env);
      AfterOpen(o, order, env).status == 1 <==>
        || !Allowed(k, o, env)
        || (o.partitionInfo && !env.startSectorOk)
        || (IsRecord(k) && !env.recordOk)
  {
    var k := SelectedKind(o, order, env);
    PrintFlagIrrelevant(k, env.facts, env.fs);
    if Allowed(k, o, env) {
      var info := if o.partitionInfo then WritePartitionInfo(env) else Outcome([], 0);
      assert Proceed(k, o, env).status == Dispatch(k, o, env, info.status).status;
    }
  }

  /**
   * Main returns 1 exactly when the device does not open, the selected
   * kind is vetoed, the start sector cannot be written, or the record
   * cannot be written.
   */
  lemma RunStatusOnInputs(o: Options, argc: nat, order: seq<Kind>, env: Env)
    requires !o.help && !(o.version && argc < 3)
    ensures var k := SelectedKind(o, order, env);
      Run(o, argc, order, env).status == 1 <==>
        || !env.openOk
        || (k != NoWriting && !o.force && !Passes(k, env.facts, env.fs))
        || (o.partitionInfo && !env.startSectorOk)
        || (IsRecord(k) && !env.recordOk)
  {
    if env.openOk {
      AfterOpenStatusOnInputs(o, order, env);
    }
  }

  /**
   * A selected record is written exactly when main gets past help, version
   * and opening and the sanity check passes or is forced; it is written
   * with the label flag for the file-system records.
   */
  lemma RunWritesWhenAllowed(o: Options, argc: nat, order: seq<Kind>, env: Env)
    ensures var k := SelectedKind(o, order, env);
      PastOpen(o, argc, env) && IsRecord(k) && Allowed(k, o, env) ==>
        RecordEvent(k, o, env) in Run(o, argc, order, env).events
    ensures var k := SelectedKind(o, order, env);
      (exists e :: e in Run(o, argc, order, env).events && e.RecordWritten?) ==>
        PastOpen(o, argc, env) && IsRecord(k) && Allowed(k, o, env)
  {
    var k := SelectedKind(o, order, env);
    var r := Run(o, argc, order, env);
    if PastOpen(o, argc, env) && IsRecord(k) && Allowed(k, o, env) {
      ProceedWrites(k, o, env);
      AfterOpenAllowed(o, order, env);
      assert RecordEvent(k, o, env) in AfterOpen(o, order, env).events;
    }
    RunRecords(o, argc, order, env);
    RunEventSources(o, argc, order, env);
    if e :| e in r.events && e.RecordWritten? {
      assert GateEvent(e, o, order, env);
    }
  }

  /**
   * A partition-information request that gets through the gate writes the
   * start sector, and then the drive id when the start sector succeeded.
   */
  lemma RunWritesPartitionInfo(o: Options, argc: nat, order: seq<Kind>, env: Env)
    ensures PastOpen(o, argc, env) && o.partitionInfo && Allowed(SelectedKind(o, order, env), o, env) ==>
      StartSectorWritten(env.startSectorOk) in Run(o, argc, order, env).events
    ensures PastOpen(o, argc, env) && o.partitionInfo && Allowed(SelectedKind(o, order, env), o, env) && env.startSectorOk ==>
      DriveIdWritten(env.driveIdOk) in Run(o, argc, order, env).events
  {
    var k := SelectedKind(o, order, env);
    if PastOpen(o, argc, env) && o.partitionInfo && Allowed(k, o, env) {
      ProceedWrites(k, o, env);
      AfterOpenAllowed(o, order, env);
    }
  }

  /** The start sector is written only on a request that gets through the gate. */
  lemma RunStartSectorNeedsGate(o: Options, argc: nat, order: seq<Kind>, env: Env)
    ensures (exists e :: e in Run(o, argc, order, env).events && e.StartSectorWritten?) ==>
      PastOpen(o, argc, env) && o.partitionInfo && Allowed(SelectedKind(o, order, env), o, env)
  {
    var r := Run(o, argc, order, env);
    if e :| e in r.events && e.StartSectorWritten? {
      if PastOpen(o, argc, env) {
        var version := if o.version then [ShowVersion] else [];
        var writable := o.kind != NoWriting || o.partitionInfo;
        assert r.events == version + [Opened(writable)] + AfterOpen(o, order, env).events;
        assert e in AfterOpen(o, order, env).events;
        assert GateEvent(e, o, order, env);
        VetoWritesNothing(o, order, env);
      } else {
        assert false;
      }
    }
  }

  /** A veto stops main before anything is written. */
  lemma VetoWritesNothing(o: Options, order: seq<Kind>, env: Env)
    ensures !Allowed(SelectedKind(o, order, env), o, env) ==>
      forall e :: e in AfterOpen(o, order, env).events ==> !IsWrite(e)
  {
    PrintFlagIrrelevant(SelectedKind(o, order, env), env.facts, env.fs);
  }

  /** The whole of main: parse the command line, then run. */
  function Main(argv: seq<CString>, order: seq<Kind>, env: Env): (r: Outcome)
    ensures |argv| < 2 ==> r == Outcome([ShowHelp], 0)
  {
    Run(ParseSwitches(argv), |argv|, order, env)
  }
}
