/** What the concurrency arguments need to know about one call of Apply or AtomicWriteFile:
    it takes its locks in ascending order, works within the families of its destinations,
    and then releases the locks in reverse. */
module Calls {
  import opened Text
  import opened Paths
  import opened Data
  import opened Os
  import opened Ownership
  import opened FileOps
  import opened ApplyProtocol
  import opened ApplyFootprint
  import opened WriteProtocol
  import opened WriteOutcomes

  datatype Call = ApplyCall(c: Ctx) | WriteCall(c: Ctx)
  datatype CallSt = InApply(a: St) | InWrite(w: WriteSt)

  datatype Phase = Acquires(i: nat) | Works | Releases(left: nat) | Ends

  predicate CallValid(call: Call) {
    call.c.Valid() && (call.WriteCall? ==> OneFile(call.c))
  }

  function CallStart(call: Call): CallSt {
    if call.ApplyCall? then InApply(Start()) else InWrite(WriteStart())
  }

  function CallStep(call: Call, st: CallSt, e: Event): Option<CallSt>
    requires CallValid(call)
  {
    match (call, st)
    case (ApplyCall(c), InApply(s)) => (var r := Step(c, s, e); if r.Some? then Some(InApply(r.value)) else None)
    case (WriteCall(c), InWrite(s)) => (var r := WriteStep(c, s, e); if r.Some? then Some(InWrite(r.value)) else None)
    case _ => None
  }

  function CallRun(call: Call, es: seq<Event>): Option<CallSt>
    requires CallValid(call)
  {
    if es == [] then Some(CallStart(call))
    else
      var n := |es| - 1;
      var st := CallRun(call, es[..n]);
      if st.Some? then CallStep(call, st.value, es[n]) else None
  }

  ghost predicate CallShape(call: Call, st: CallSt)
    requires CallValid(call)
  {
    match (call, st)
    case (ApplyCall(c), InApply(s)) => Shape(c, s)
    case (WriteCall(c), InWrite(s)) => WriteShape(c, s)
    case _ => false
  }

  function PhaseOf(st: CallSt): Phase {
    match st
    case InApply(s) =>
      (match s.pc
       case Locking(i) => Acquires(i)
       case Unlocking(k, _) => Releases(k)
       case Done(_) => Ends
       case _ => Works)
    case InWrite(s) =>
      (match s.pc
       case Acquiring => Acquires(0)
       case Releasing(_) => Releases(1)
       case Finished(_) => Ends
       case _ => Works)
  }

  /** The order in which a call takes its locks. */
  function Locks(call: Call): seq<Path> {
    call.c.Order()
  }

  lemma LocksAscend(call: Call)
    requires CallValid(call)
    ensures Ascending(Locks(call)) && |Locks(call)| == |call.c.targets| > 0
    ensures forall x :: x in Locks(call) <==> x in call.c.targets
  {
    TargetsIff(call.c.env, call.c.plan.files);
    SortAscending(call.c.targets);
    SortMembers(call.c.targets);
  }

  ghost predicate Possible(e: Event) {
    exists fs: Fs :: Enabled(e, fs)
  }

  /** The calls of one destination family, none of them on a lock. */
  ghost predicate WorksWithin(call: Call, e: Event, t: Path) {
    !e.Lock? && !e.Unlock? && t in call.c.targets && forall x | Touches(e, x) :: Mine(t, x)
  }

  /** Two-phase locking, one step at a time. */
  ghost predicate Protocol(call: Call, st: CallSt, e: Event, st': CallSt) {
    var n := |Locks(call)|;
    match PhaseOf(st)
    case Acquires(i) =>
      i < n && e == Lock(FileLock(Locks(call)[i])) && PhaseOf(st') == (if i + 1 == n then Works else Acquires(i + 1))
    case Works =>
      (exists t :: WorksWithin(call, e, t)) && (PhaseOf(st') == Works || PhaseOf(st') == Releases(n))
    case Releases(k) =>
      0 < k <= n && e == Unlock(FileLock(Locks(call)[k - 1]))
        && PhaseOf(st') == (if k == 1 then Ends else Releases(k - 1))
    case Ends => false
  }

  lemma ApplyWorks(c: Ctx, s: St, e: Event, s': St)
    requires c.Valid() && Shape(c, s) && Step(c, s, e) == Some(s') && PhaseOf(InApply(s)) == Works
    ensures PhaseOf(InApply(s')) == Works || PhaseOf(InApply(s')) == Releases(c.N())
  {
    hide Shape, Targets, StepChecking, StepComparing, StepStatting, StepBackupHead, StepDroppingBackups, AfterCopy,
      AfterStage, StepDroppingTemps, StepValidating, StepRenaming, StepReloading, StepReloadingOld, StepListing,
      StepPruning;
    if s.pc.Restoring? { RestoringEnds(c, s, e, s'); }
    else if s.pc.Validating? || s.pc.Renaming? || s.pc.Reloading? || s.pc.ReloadingOld? || s.pc.Listing?
      || s.pc.Pruning? {
      LateWorks(c, s, e, s');
    } else { EarlyWorks(c, s, e, s'); }
  }

  lemma EarlyWorks(c: Ctx, s: St, e: Event, s': St)
    requires c.Valid() && Shape(c, s) && Step(c, s, e) == Some(s')
    requires s.pc.Checking? || s.pc.Comparing? || s.pc.Statting? || s.pc.BackupHead? || s.pc.BackingUp?
          || s.pc.DroppingBackups? || s.pc.StagingFile? || s.pc.DroppingTemps?
    ensures PhaseOf(InApply(s')) == Works || PhaseOf(InApply(s')) == Releases(c.N())
  {
    hide Sibling, MadeBackup, MadeTemp, StageStep, CopyStep, Resolve, SameDigest, BackupMap, Targets, PrepNames, Taken,
      Sort;
  }

  lemma LateWorks(c: Ctx, s: St, e: Event, s': St)
    requires c.Valid() && Shape(c, s) && Step(c, s, e) == Some(s')
    requires s.pc.Validating? || s.pc.Renaming? || s.pc.Reloading? || s.pc.ReloadingOld? || s.pc.Listing?
        || s.pc.Pruning?
    ensures PhaseOf(InApply(s')) == Works || PhaseOf(InApply(s')) == Releases(c.N())
  {
    hide Sibling, MadeBackup, MadeTemp, BackupMap, TempMap, Targets, Doomed, PrepNames, Sort;
  }

  lemma RestoringEnds(c: Ctx, s: St, e: Event, s': St)
    requires c.Valid() && Shape(c, s) && s.pc.Restoring? && StepRestoring(c, s, e) == Some(s')
    ensures PhaseOf(InApply(s')) == Works || PhaseOf(InApply(s')) == Releases(c.N())
  {
    hide Sibling, MadeBackup, MadeTemp, BackupMap, Targets, PrepNames;
    if s.pc.i < s.pc.upto { RestoringGoesOn(c, s, e, s'); }
  }

  lemma ApplyProtocolStep(c: Ctx, s: St, e: Event, s': St, fs: Fs)
    requires c.Valid() && Shape(c, s) && Step(c, s, e) == Some(s') && Enabled(e, fs)
    ensures Shape(c, s') && Protocol(ApplyCall(c), InApply(s), e, InApply(s'))
  {
    hide Sibling, MadeBackup, MadeTemp, Shape, Enabled, Touches, Mine;
    ShapeStep(c, s, e, s', fs);
    if PhaseOf(InApply(s)) == Works {
      hide Step;
      ApplyWorks(c, s, e, s');
      var i := StepWithin(c, s, e, s');
      assert WorksWithin(ApplyCall(c), e, c.targets[i]);
    } else {
      ApplyLocks(c, s, e, s');
    }
  }

  lemma ApplyLocks(c: Ctx, s: St, e: Event, s': St)
    requires c.Valid() && Shape(c, s) && Step(c, s, e) == Some(s') && PhaseOf(InApply(s)) != Works
    ensures Protocol(ApplyCall(c), InApply(s), e, InApply(s'))
  {
    hide Sibling, MadeBackup, MadeTemp, StageStep, CopyStep, Resolve, SameDigest, BackupMap, TempMap, Targets, Doomed,
      StepRestoring, PrepNames, ShapeFull;
  }

  lemma WriteLocks(c: Ctx, s: WriteSt, e: Event, s': WriteSt)
    requires OneFile(c) && WriteShape(c, s) && WriteStep(c, s, e) == Some(s')
    ensures PhaseOf(InWrite(s)) == Works ==> PhaseOf(InWrite(s')) == Works || PhaseOf(InWrite(s')) == Releases(1)
    ensures PhaseOf(InWrite(s)) != Works ==> Protocol(WriteCall(c), InWrite(s), e, InWrite(s'))
  {
    hide Sibling, MadeBackup, MadeTemp, Resolve, SameDigest, StageStep, CopyStep, Targets, Doomed;
    LocksAscend(WriteCall(c));
    assert Locks(WriteCall(c))[0] in Locks(WriteCall(c));
  }

  lemma WriteProtocolStep(c: Ctx, s: WriteSt, e: Event, s': WriteSt, fs: Fs)
    requires OneFile(c) && WriteShape(c, s) && WriteStep(c, s, e) == Some(s') && Enabled(e, fs)
    ensures WriteShape(c, s') && Protocol(WriteCall(c), InWrite(s), e, InWrite(s'))
  {
    hide Sibling, MadeBackup, MadeTemp, Enabled, Touches, Mine, WriteShape, WriteStep, Targets;
    if s.prep.None? { WriteShapeEarly(c, s, e, s'); } else { WriteShapeLate(c, s, e, s', fs); }
    WriteLocks(c, s, e, s');
    if PhaseOf(InWrite(s)) == Works {
      WriteStepWithin(c, s, e, s');
      assert WorksWithin(WriteCall(c), e, c.targets[0]);
      LocksAscend(WriteCall(c));
    }
  }

  lemma CallProtocol(call: Call, st: CallSt, e: Event, st': CallSt)
    requires CallValid(call) && CallShape(call, st) && CallStep(call, st, e) == Some(st') && Possible(e)
    ensures CallShape(call, st') && Protocol(call, st, e, st')
  {
    hide Sibling, MadeBackup, MadeTemp, Protocol, Shape, WriteShape, Step, WriteStep, Enabled;
    var fs: Fs :| Enabled(e, fs);
    match call
    case ApplyCall(c) => ApplyProtocolStep(c, st.a, e, st'.a, fs);
    case WriteCall(c) => WriteProtocolStep(c, st.w, e, st'.w, fs);
  }

  lemma CallShapeStart(call: Call)
    requires CallValid(call)
    ensures CallShape(call, CallStart(call)) && PhaseOf(CallStart(call)) == Acquires(0)
  {
    hide Sibling, MadeBackup, MadeTemp;
  }

  // ----- progress -----

  lemma RestoringProgress(c: Ctx, s: St) returns (e: Event)
    requires c.Valid() && Shape(c, s) && s.pc.Restoring?
    ensures (forall fs :: Enabled(e, fs)) && Step(c, s, e).Some?
  {
    hide Sibling, MadeBackup, MadeTemp, StageStep, BackupMap, Targets, PrepNames;
    if s.pc.i == s.pc.upto { e := Internal; } else {
      var i, d := s.pc.i, c.targets[s.pc.i];
      match s.pc.undo
      case Choosing => e := Internal;
      case Deleting => e := Remove(d, Refused);
      case Fetching => e := ReadFile(s.preps[i].backup.value, None);
      case Rewriting(data, stage) => e := StageProgress(c.env, d, data, s.preps[i].owner, stage);
      case Swapping(t) => e := Rename(t, d, false);
      case Scrapping(t) => e := Remove(t, Refused);
    }
  }

  lemma FilesProgress(c: Ctx, s: St) returns (e: Event)
    requires c.Valid() && Shape(c, s) && (s.pc.BackingUp? || s.pc.StagingFile?)
    ensures (forall fs :: Enabled(e, fs)) && Step(c, s, e).Some?
  {
    hide Sibling, MadeBackup, MadeTemp, StageStep, CopyStep, Targets, PrepNames;
    var i, d := s.pc.i, c.targets[s.pc.i];
    if s.pc.BackingUp? { e := CopyProgress(d, s.pc.copy); }
    else { e := StageProgress(c.env, d, c.plan.files[i].bytes, s.preps[i].owner, s.pc.stage); }
  }

  lemma OtherProgress(c: Ctx, s: St) returns (e: Event)
    requires c.Valid() && Shape(c, s) && PhaseOf(InApply(s)) == Works
    requires !s.pc.Restoring? && !s.pc.BackingUp? && !s.pc.StagingFile?
    ensures (forall fs :: Enabled(e, fs)) && Step(c, s, e).Some?
  {
    hide Sibling, MadeBackup, MadeTemp, BackupMap, Targets, PrepNames, Resolve, Sort, SameDigest;
    if s.pc.Checking? { e := Context(false); }
    else if s.pc.Comparing? { e := ReadFile(c.targets[s.pc.i], None); }
    else if s.pc.Statting? { e := Stat(c.targets[s.pc.i], None); }
    else if s.pc.BackupHead? { e := Internal; }
    else if s.pc.DroppingBackups? {
      if s.pc.taken == {} { e := Internal; } else { var b :| b in s.pc.taken; e := Remove(b, Refused); }
    } else if s.pc.DroppingTemps? {
      e := Internal;
      if s.pc.i < |s.preps| && s.preps[s.pc.i].temp.Some? { e := Remove(s.preps[s.pc.i].temp.value, Refused); }
    } else if s.pc.Validating? { e := PreCommit(TempMap(c.targets, s.preps), false); }
    else if s.pc.Renaming? { e := Rename(s.preps[s.pc.i].temp.value, c.targets[s.pc.i], false); }
    else if s.pc.Listing? { e := ListBackups(c.targets[s.pc.i], None); }
    else if s.pc.Pruning? { e := Remove(s.pc.todo[0], Refused); }
    else { e := PostCommit(false); }
  }

  lemma WriteProgress(c: Ctx, s: WriteSt) returns (e: Event)
    requires OneFile(c) && WriteShape(c, s) && PhaseOf(InWrite(s)) == Works
    ensures (forall fs :: Enabled(e, fs)) && WriteStep(c, s, e).Some?
  {
    hide Sibling, MadeBackup, MadeTemp, Targets, PrepNames, Resolve, SameDigest, StageStep, CopyStep, StageNames,
      CopyNames;
    var d := c.targets[0];
    if s.pc.CheckingContext? { e := Context(false); }
    else if s.pc.ExaminingDest? { e := Stat(d, None); }
    else if s.pc.ComparingBytes? { e := ReadFile(d, None); }
    else if s.pc.StagingData? { e := StageProgress(c.env, d, c.plan.files[0].bytes, s.prep.value.owner, s.pc.stage); }
    else if s.pc.CopyingOld? { e := CopyProgress(d, s.pc.copy); }
    else if s.pc.SwappingIn? { e := Rename(s.prep.value.temp.value, d, false); }
    else if s.pc.ScanningBackups? { e := ListBackups(d, None); }
    else if s.pc.PruningBackups? { e := Remove(s.pc.todo[0], Refused); }
    else { e := Remove(s.prep.value.temp.value, Refused); }
  }

  /** A call that holds all its locks, or releases them, can always go on. */
  lemma CallProgress(call: Call, st: CallSt) returns (e: Event)
    requires CallValid(call) && CallShape(call, st) && (PhaseOf(st) == Works || PhaseOf(st).Releases?)
    ensures (forall fs :: Enabled(e, fs)) && CallStep(call, st, e).Some? && !e.Lock?
  {
    hide Sibling, MadeBackup, MadeTemp, Shape, WriteShape, Step, WriteStep;
    if PhaseOf(st).Releases? {
      e := ReleaseProgress(call, st);
    } else {
      match call
      case ApplyCall(c) =>
        if st.a.pc.Restoring? { e := RestoringProgress(c, st.a); }
        else if st.a.pc.BackingUp? || st.a.pc.StagingFile? { e := FilesProgress(c, st.a); }
        else { e := OtherProgress(c, st.a); }
        LocksOnlyFirst(c, st.a, e);
      case WriteCall(c) =>
        e := WriteProgress(c, st.w);
        WriteLocksOnlyFirst(c, st.w, e);
    }
  }

  lemma LocksOnlyFirst(c: Ctx, s: St, e: Event)
    requires c.Valid() && Shape(c, s) && Step(c, s, e).Some? && PhaseOf(InApply(s)) == Works
    ensures !e.Lock?
  {
    hide Sibling, MadeBackup, MadeTemp, Shape, Step, Touches, Mine;
    var i := StepWithin(c, s, e, Step(c, s, e).value);
  }

  lemma WriteLocksOnlyFirst(c: Ctx, s: WriteSt, e: Event)
    requires OneFile(c) && WriteShape(c, s) && WriteStep(c, s, e).Some? && PhaseOf(InWrite(s)) == Works
    ensures !e.Lock?
  {
    hide Sibling, MadeBackup, MadeTemp, WriteShape, WriteStep, Touches, Mine;
    WriteStepWithin(c, s, e, WriteStep(c, s, e).value);
  }

  lemma ReleaseProgress(call: Call, st: CallSt) returns (e: Event)
    requires CallValid(call) && CallShape(call, st) && PhaseOf(st).Releases?
    ensures (forall fs :: Enabled(e, fs)) && CallStep(call, st, e).Some? && !e.Lock?
  {
    hide Sibling, MadeBackup, MadeTemp, ShapeFull, PrepNames, Sort, Targets;
    match call
    case ApplyCall(c) => e := Unlock(FileLock(c.Order()[st.a.pc.left - 1]));
    case WriteCall(c) => e := Unlock(FileLock(c.targets[0]));
  }
}
