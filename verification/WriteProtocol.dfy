/** `AtomicWriteFile`: the single-file sibling of Apply. A call is described by the context of the
    equivalent plan with one file and no hooks; the order of its steps is its own. */
module WriteProtocol {
  import opened Text
  import opened Paths
  import opened Data
  import opened Os
  import opened Ownership
  import opened FileOps
  import opened ApplyProtocol
  import opened ApplySafety
  import opened ApplyTheorems

  predicate OneFile(c: Ctx) {
    c.Valid() && c.N() == 1 && !c.plan.hasPre && !c.plan.hasPost
  }

  datatype WriteResult = WriteResult(backup: Option<Path>, replaced: bool, idempotent: bool)
  datatype WriteOutcome = WriteOutcome(error: Option<Error>, result: Option<WriteResult>)

  datatype WritePc =
    | Acquiring
    | CheckingContext
    | ExaminingDest
    | ComparingBytes(meta: Meta)
    | StagingData(stage: Stage)
    | CopyingOld(copy: Copy)
    | SwappingIn
    | ScanningBackups
    | PruningBackups(todo: seq<Path>)
    | DroppingTemp(out: WriteOutcome)
    | Releasing(out: WriteOutcome)
    | Finished(out: WriteOutcome)

  datatype WriteSt = WriteSt(pc: WritePc, prep: Option<Prep>)

  function WriteStart(): WriteSt {
    WriteSt(Acquiring, None)
  }

  function WriteFail(error: Error): WriteOutcome {
    WriteOutcome(Some(error), None)
  }

  function Idempotent(): WriteOutcome {
    WriteOutcome(None, Some(WriteResult(None, false, true)))
  }

  function Wrote(p: Prep): WriteOutcome {
    WriteOutcome(None, Some(WriteResult(p.backup, p.hadOrig, false)))
  }

  function Become(s: WriteSt, pc: WritePc): Option<WriteSt> {
    Some(s.(pc := pc))
  }

  function Prepare(c: Ctx, s: WriteSt, meta: Option<Meta>): Option<WriteSt>
    requires OneFile(c)
  {
    var owner := Resolve(c.env, c.plan.files[0], c.plan.defaults, meta);
    if owner.None? then Become(s, Releasing(WriteFail(OwnershipUnresolved)))
    else Some(WriteSt(StagingData(Opening), Some(Prep(owner.value, meta.Some?, None, None))))
  }

  function WriteStepEarly(c: Ctx, s: WriteSt, e: Event): Option<WriteSt>
    requires OneFile(c)
  {
    var d := c.targets[0];
    match s.pc
    case Acquiring => if e == Lock(FileLock(d)) then Become(s, CheckingContext) else None
    case CheckingContext =>
      if !e.Context? then None
      else Become(s, if e.live then ExaminingDest else Releasing(WriteFail(Canceled)))
    case ExaminingDest =>
      if !e.Stat? || e.path != d then None
      else if e.meta.Some? && !c.plan.skipIdempotent then Become(s, ComparingBytes(e.meta.value))
      else Prepare(c, s, e.meta)
    case ComparingBytes(meta) =>
      if !e.ReadFile? || e.path != d then None
      else if e.got.Some? && SameDigest(c.env, e.got.value, c.plan.files[0].bytes)
        then Become(s, Releasing(Idempotent()))
      else Prepare(c, s, Some(meta))
    case _ => None
  }

  function AfterWriteStage(c: Ctx, s: WriteSt, p: Prep, r: StageResult): Option<WriteSt> {
    match r
    case Staging(stage) => Become(s, StagingData(stage))
    case Ready(t) =>
      Some(WriteSt(if p.hadOrig && c.plan.retention != NO_BACKUPS then CopyingOld(Reading) else SwappingIn,
                   Some(p.(temp := Some(t)))))
    case NoTemp => Become(s, Releasing(WriteFail(TempFailed)))
    case Unowned(t) => Some(WriteSt(DroppingTemp(WriteFail(TempFailed)), Some(p.(temp := Some(t)))))
    case Wrong => None
  }

  function AfterWriteCopy(s: WriteSt, p: Prep, r: CopyResult): Option<WriteSt> {
    match r
    case Copying(copy) => Become(s, CopyingOld(copy))
    case Copied(b) => Some(WriteSt(SwappingIn, Some(p.(backup := Some(b)))))
    case NoCopy => Become(s, DroppingTemp(WriteFail(BackupFailed)))
    case BadCall => None
  }

  function WritePruneRest(s: WriteSt, p: Prep, todo: seq<Path>): Option<WriteSt> {
    Become(s, if todo == [] then DroppingTemp(Wrote(p)) else PruningBackups(todo))
  }

  function WriteStepLate(c: Ctx, s: WriteSt, p: Prep, e: Event): Option<WriteSt>
    requires OneFile(c)
  {
    var d := c.targets[0];
    match s.pc
    case StagingData(stage) => AfterWriteStage(c, s, p, StageStep(c.env, d, c.plan.files[0].bytes, p.owner, stage, e))
    case CopyingOld(copy) => AfterWriteCopy(s, p, CopyStep(d, copy, e))
    case SwappingIn =>
      if !e.Rename? || p.temp != Some(e.from) || e.to != d then None
      else if !e.ok then Become(s, DroppingTemp(WriteFail(RenameFailed)))
      else Become(s, if c.Keep() > 0 then ScanningBackups else DroppingTemp(Wrote(p)))
    case ScanningBackups =>
      if !e.ListBackups? || e.dest != d || c.Keep() <= 0 then None
      else WritePruneRest(s, p, if e.names.None? then [] else Doomed(e.names.value, c.Keep()))
    case PruningBackups(todo) =>
      if todo == [] || !e.Remove? || e.path != todo[0] then None else WritePruneRest(s, p, todo[1..])
    case DroppingTemp(out) =>  // the deferred cleanup, a no-op after a successful rename
      if e.Remove? && p.temp == Some(e.path) then Become(s, Releasing(out)) else None
    case _ => None
  }

  function WriteStep(c: Ctx, s: WriteSt, e: Event): Option<WriteSt>
    requires OneFile(c)
  {
    if s.pc.Releasing? then
      if e == Unlock(FileLock(c.targets[0])) then Become(s, Finished(s.pc.out)) else None
    else if s.prep.None? then WriteStepEarly(c, s, e)
    else WriteStepLate(c, s, s.prep.value, e)
  }

  function WriteRun(c: Ctx, es: seq<Event>): Option<WriteSt>
    requires OneFile(c)
  {
    if es == [] then Some(WriteStart())
    else
      var n := |es| - 1;
      var s := WriteRun(c, es[..n]);
      if s.Some? then WriteStep(c, s.value, es[n]) else None
  }

  lemma {:induction false} WriteRunSnoc(c: Ctx, es: seq<Event>, e: Event)
    requires OneFile(c)
    ensures WriteRun(c, es + [e]) == var s := WriteRun(c, es); if s.Some? then WriteStep(c, s.value, e) else None
  {
    assert (es + [e])[..|es|] == es;
  }

  // ----- invariant -----

  function WriteViewOut(out: WriteOutcome): View {
    if out.error.Some? then View(OLD, Unclaimed, Quiet)
    else if out == Idempotent() then View(OLD, Unclaimed, Matched)
    else View(NEW, Named, Quiet)
  }

  function WriteView(pc: WritePc): View {
    match pc
    case Acquiring => View(OLD, NotYet, Quiet)
    case CheckingContext => View(OLD, NotYet, Quiet)
    case ExaminingDest => View(OLD, NotYet, Quiet)
    case ComparingBytes(_) => View(OLD, NotYet, Quiet)
    case StagingData(stage) => View(OLD, NotYet, WritingTemp(stage))
    case CopyingOld(copy) => View(OLD, NotYet, CopyingOut(copy))
    case SwappingIn => View(OLD, Complete, TempReady)
    case ScanningBackups => View(NEW, Named, Quiet)
    case PruningBackups(_) => View(NEW, Named, Quiet)
    case DroppingTemp(out) => WriteViewOut(out)
    case Releasing(out) => WriteViewOut(out)
    case Finished(out) => WriteViewOut(out)
  }

  ghost predicate WriteShape(c: Ctx, s: WriteSt)
    requires OneFile(c)
  {
    && (s.prep.Some? ==> PrepNames(c.targets[0], s.prep.value))
    && match s.pc
       case StagingData(stage) =>
         s.prep.Some? && s.prep.value.temp.None? && s.prep.value.backup.None? && StageNames(c.targets[0], stage)
       case CopyingOld(copy) => s.prep.Some? && s.prep.value.temp.Some? && s.prep.value.backup.None?
         && CopyNames(c.targets[0], copy)
       case SwappingIn => s.prep.Some? && s.prep.value.temp.Some?
       case ScanningBackups => s.prep.Some? && s.prep.value.temp.Some? && c.Keep() > 0
       case PruningBackups(todo) =>
         && s.prep.Some? && s.prep.value.temp.Some? && c.Keep() > 0 && todo != [] && Distinct(todo)
         && forall b | b in todo :: IsBackupOf(c.targets[0], b)
       case DroppingTemp(out) => s.prep.Some? && s.prep.value.temp.Some? && Reported(c, s.prep, out)
       case Releasing(out) => Reported(c, s.prep, out)
       case Finished(out) => Reported(c, s.prep, out)
       case ComparingBytes(_) => s.prep.None? && !c.plan.skipIdempotent
       case _ => s.prep.None?
  }

  predicate Reported(c: Ctx, p: Option<Prep>, out: WriteOutcome) {
    if out.error.Some? then out.result.None?
    else if p.Some? then out == Wrote(p.value)
    else out == Idempotent() && !c.plan.skipIdempotent
  }

  ghost predicate TempStands(c: Ctx, fs: Fs, s: WriteSt)
    requires OneFile(c)
  {
    s.pc.CopyingOld? && s.prep.Some? ==> WorkHolds(c, fs, fs, c.targets[0], c.plan.files[0], s.prep.value, TempReady)
  }

  ghost predicate WriteInv(c: Ctx, fs0: Fs, fs: Fs, s: WriteSt)
    requires OneFile(c)
  {
    && WriteShape(c, s)
    && Holds(c, fs0, fs, c.targets[0], c.plan.files[0], s.prep, WriteView(s.pc))
    && TempStands(c, fs, s)
    && (s.pc.ComparingBytes? ==> Enabled(Stat(c.targets[0], Some(s.pc.meta)), fs))
  }

  lemma ShapePrepare(c: Ctx, s: WriteSt, meta: Option<Meta>, s': WriteSt)
    requires OneFile(c) && s.prep.None? && Prepare(c, s, meta) == Some(s')
    ensures WriteShape(c, s')
  {
    hide Sibling, MadeBackup, MadeTemp, Resolve;
  }

  lemma WriteShapeEarly(c: Ctx, s: WriteSt, e: Event, s': WriteSt)
    requires OneFile(c) && WriteShape(c, s) && WriteStep(c, s, e) == Some(s') && s.prep.None?
    ensures WriteShape(c, s')
  {
    hide Sibling, MadeBackup, MadeTemp, Resolve, SameDigest, Targets, Prepare;
    if s.pc.ExaminingDest? && Prepare(c, s, e.meta) == Some(s') { ShapePrepare(c, s, e.meta, s'); }
    if s.pc.ComparingBytes? && Prepare(c, s, Some(s.pc.meta)) == Some(s') { ShapePrepare(c, s, Some(s.pc.meta), s'); }
  }

  lemma WriteShapeLate(c: Ctx, s: WriteSt, e: Event, s': WriteSt, fs: Fs)
    requires OneFile(c) && WriteShape(c, s) && WriteStep(c, s, e) == Some(s') && Enabled(e, fs) && s.prep.Some?
    ensures WriteShape(c, s')
  {
    hide WriteStepEarly, WriteStepLate, WriteShape, Enabled, Targets;
    if s.pc.StagingData? || s.pc.CopyingOld? { WriteShapeFiles(c, s, e, s'); } else { WriteShapeRest(c, s, e, s', fs); }
  }

  lemma WriteShapeFiles(c: Ctx, s: WriteSt, e: Event, s': WriteSt)
    requires OneFile(c) && WriteShape(c, s) && WriteStep(c, s, e) == Some(s') && s.prep.Some?
    requires s.pc.StagingData? || s.pc.CopyingOld?
    ensures WriteShape(c, s')
  {
    hide Sibling, MadeBackup, MadeTemp, Resolve, Targets, StageStep, CopyStep, Doomed;
    var d := c.targets[0];
    if s.pc.StagingData? { StageStepNames(c.env, d, c.plan.files[0].bytes, s.prep.value.owner, s.pc.stage, e); }
    if s.pc.CopyingOld? { CopyStepNames(d, s.pc.copy, e); }
  }

  lemma WriteShapeRest(c: Ctx, s: WriteSt, e: Event, s': WriteSt, fs: Fs)
    requires OneFile(c) && WriteShape(c, s) && WriteStep(c, s, e) == Some(s') && Enabled(e, fs) && s.prep.Some?
    requires !s.pc.StagingData? && !s.pc.CopyingOld?
    ensures WriteShape(c, s')
  {
    hide Sibling, MadeBackup, MadeTemp, Resolve, Targets, Doomed, Enabled, Backups, StageNames, CopyNames,
      AfterWriteStage, AfterWriteCopy;
    if s.pc.ScanningBackups? && e.names.Some? {
      ScanLists(e, fs);
      DoomedNames(fs, c.targets[0], e.names.value, c.Keep());
    }
  }

  lemma ScanLists(e: Event, fs: Fs)
    requires Enabled(e, fs) && e.ListBackups? && e.names.Some?
    ensures Lists(e.names.value, Backups(fs, e.dest))
  {
  }

  lemma DoomedNames(fs: Fs, d: Path, names: seq<Path>, keep: int)
    requires Lists(names, Backups(fs, d)) && keep > 0
    ensures Distinct(Doomed(names, keep)) && forall b | b in Doomed(names, keep) :: IsBackupOf(d, b)
  {
    hide Sibling, MadeBackup, MadeTemp, Doomed;
    DoomedAreListed(names, keep);
  }

  // ----- every step preserves it -----

  ghost predicate WriteBefore(c: Ctx, fs0: Fs, fs: Fs, s: WriteSt, e: Event, s': WriteSt) {
    OneFile(c) && WriteInv(c, fs0, fs, s) && Enabled(e, fs) && WriteStep(c, s, e) == Some(s') && WriteShape(c, s')
  }

  lemma PrepareHolds(c: Ctx, fs0: Fs, fs: Fs, s: WriteSt, meta: Option<Meta>, s': WriteSt)
    requires OneFile(c) && Prepare(c, s, meta) == Some(s') && s.prep.None?
    requires Holds(c, fs0, fs, c.targets[0], c.plan.files[0], None, View(OLD, NotYet, Quiet))
    requires Enabled(Stat(c.targets[0], meta), fs)
    ensures Holds(c, fs0, fs, c.targets[0], c.plan.files[0], s'.prep, WriteView(s'.pc)) && TempStands(c, fs, s')
    ensures !s'.pc.ComparingBytes?
  {
    hide Sibling, MadeBackup, MadeTemp, Resolve;
  }

  lemma WriteSafeEarly(c: Ctx, fs0: Fs, fs: Fs, s: WriteSt, e: Event, s': WriteSt)
    requires WriteBefore(c, fs0, fs, s, e, s') && s.prep.None?
    ensures WriteInv(c, fs0, Effect(c.env, e, fs), s')
  {
    hide Sibling, MadeBackup, MadeTemp, Resolve, Prepare, WriteShape, WriteStepLate, PrepHolds, SavedHolds, Targets;
    if s.pc.ExaminingDest? && Prepare(c, s, e.meta) == Some(s') {
      PrepareHolds(c, fs0, fs, s, e.meta, s');
    } else if s.pc.ComparingBytes? && Prepare(c, s, Some(s.pc.meta)) == Some(s') {
      PrepareHolds(c, fs0, fs, s, Some(s.pc.meta), s');
    }
  }

  lemma WriteSafeStaging(c: Ctx, fs0: Fs, fs: Fs, s: WriteSt, e: Event, s': WriteSt)
    requires WriteBefore(c, fs0, fs, s, e, s') && s.pc.StagingData?
    ensures WriteInv(c, fs0, Effect(c.env, e, fs), s')
  {
    hide Sibling, MadeBackup, MadeTemp, Resolve, StageStep, Effect, Enabled;
    SafeStagingOwn(c, fs0, fs, c.targets[0], c.plan.files[0], s.prep.value, s.pc.stage, e, NotYet);
  }

  /** Copying the old contents does not disturb the temp file that waits. */
  lemma CopyCallsSpareTemp(c: Ctx, fs: Fs, d: Path, p: Prep, copy: Copy, e: Event)
    requires CopyNames(d, copy) && PrepNames(d, p) && p.temp.Some? && Enabled(e, fs) && !CopyStep(d, copy, e).BadCall?
    ensures Same(fs, Effect(c.env, e, fs), p.temp.value)
  {
    hide Sibling, MadeBackup, MadeTemp, Effect, Enabled, CopyStep, Touches, CopyNames;
    CopyStepNames(d, copy, e);
    KindsAreDisjoint(d, p.temp.value);
    KindsAreDisjoint(d, d);
    EffectIsLocal(c.env, e, fs, p.temp.value);
  }

  lemma WriteSafeCopying(c: Ctx, fs0: Fs, fs: Fs, s: WriteSt, e: Event, s': WriteSt)
    requires WriteBefore(c, fs0, fs, s, e, s') && s.pc.CopyingOld?
    ensures WriteInv(c, fs0, Effect(c.env, e, fs), s')
  {
    hide Sibling, MadeBackup, MadeTemp, Resolve, CopyStep, Effect, Enabled;
    SafeBackingUpOwn(c, fs0, fs, c.targets[0], c.plan.files[0], s.prep.value, s.pc.copy, e);
    CopyCallsSpareTemp(c, fs, c.targets[0], s.prep.value, s.pc.copy, e);
  }

  lemma WriteSafeSwapping(c: Ctx, fs0: Fs, fs: Fs, s: WriteSt, e: Event, s': WriteSt)
    requires WriteBefore(c, fs0, fs, s, e, s') && s.pc.SwappingIn?
    ensures WriteInv(c, fs0, Effect(c.env, e, fs), s')
  {
    hide Sibling, MadeBackup, MadeTemp, Resolve;
    if e.ok {
      RenameOwn(c, fs0, fs, c.targets[0], c.plan.files[0], s.prep.value, e.from, Effect(c.env, e, fs));
    }
  }

  lemma WriteSafeRemoving(c: Ctx, fs0: Fs, fs: Fs, s: WriteSt, e: Event, s': WriteSt)
    requires WriteBefore(c, fs0, fs, s, e, s')
    requires s.prep.Some? && (s.pc.ScanningBackups? || s.pc.PruningBackups? || s.pc.DroppingTemp? || s.pc.Releasing?)
    ensures WriteInv(c, fs0, Effect(c.env, e, fs), s')
  {
    hide Sibling, MadeBackup, MadeTemp, Resolve, Holds, Doomed;
    if e.Remove? {
      RemovingKeeps(c, fs0, fs, c.targets[0], c.plan.files[0], s.prep, WriteView(s.pc), e);
    }
  }

  lemma WriteSafeStep(c: Ctx, fs0: Fs, fs: Fs, s: WriteSt, e: Event, s': WriteSt)
    requires OneFile(c) && WriteInv(c, fs0, fs, s) && Enabled(e, fs) && WriteStep(c, s, e) == Some(s')
    ensures WriteInv(c, fs0, Effect(c.env, e, fs), s')
  {
    hide Sibling, MadeBackup, MadeTemp, Holds, Effect, Enabled, TempStands;
    if s.prep.None? { WriteShapeEarly(c, s, e, s'); } else { WriteShapeLate(c, s, e, s', fs); }
    if s.prep.None? { WriteSafeEarly(c, fs0, fs, s, e, s'); }
    else if s.pc.StagingData? { WriteSafeStaging(c, fs0, fs, s, e, s'); }
    else if s.pc.CopyingOld? { WriteSafeCopying(c, fs0, fs, s, e, s'); }
    else if s.pc.SwappingIn? { WriteSafeSwapping(c, fs0, fs, s, e, s'); }
    else { WriteSafeRemoving(c, fs0, fs, s, e, s'); }
  }

  ghost predicate WriteReaches(c: Ctx, fs0: Fs, es: seq<Event>, s: WriteSt, fs: Fs) {
    OneFile(c) && WriteRun(c, es) == Some(s) && Replay(c.env, fs0, es) == Some(fs)
  }

  lemma ExtendWrite(c: Ctx, fs0: Fs, es: seq<Event>, s: WriteSt, fs: Fs, e: Event, s': WriteSt)
    requires WriteReaches(c, fs0, es, s, fs) && Enabled(e, fs) && WriteStep(c, s, e) == Some(s')
    ensures WriteReaches(c, fs0, es + [e], s', Effect(c.env, e, fs))
  {
    hide WriteStep, Effect, Enabled;
    WriteRunSnoc(c, es, e);
    ReplaySnoc(c.env, fs0, es, e);
  }

  lemma {:induction false} WriteInvReached(c: Ctx, fs0: Fs, es: seq<Event>, s: WriteSt, fs: Fs)
    requires WriteReaches(c, fs0, es, s, fs)
    ensures WriteInv(c, fs0, fs, s)
  {
    hide Sibling, MadeBackup, MadeTemp, WriteInv, WriteStep, Effect, Enabled;
    if es == [] {
      WriteInvStart(c, fs0);
    } else {
      var n := |es| - 1;
      var s1, fs1 := WriteRun(c, es[..n]).value, Replay(c.env, fs0, es[..n]).value;
      WriteInvReached(c, fs0, es[..n], s1, fs1);
      WriteSafeStep(c, fs0, fs1, s1, es[n], s);
    }
  }

  lemma WriteInvStart(c: Ctx, fs0: Fs)
    requires OneFile(c)
    ensures WriteInv(c, fs0, fs0, WriteStart())
  {
    hide Sibling, MadeBackup, MadeTemp;
  }

  /** The single-file promises: at every point the destination is wholly old or wholly new; an error
      leaves it untouched, and success means the planned bytes, with the ownership resolved against
      the old tree when Stat told the truth. */
  lemma WriteAllOrNothing(c: Ctx, fs0: Fs, es: seq<Event>, s: WriteSt, fs: Fs)
    requires WriteReaches(c, fs0, es, s, fs)
    ensures var d, f := c.targets[0], c.plan.files[0];
      && (Same(fs0, fs, d) || (d in fs && fs[d].bytes == f.bytes))
      && (s.pc.Finished? && s.pc.out.error.Some? ==> Same(fs0, fs, d))
      && (s.pc.Finished? && s.pc.out == Idempotent() ==> Same(fs0, fs, d) && IsMatch(c, fs, d, f))
      && (s.pc.Finished? && s.pc.out.error.None? && s.pc.out != Idempotent() ==> d in fs && fs[d].bytes == f.bytes)
    ensures HonestStats(fs0, es) ==>
      var d, f := c.targets[0], c.plan.files[0];
      && (Same(fs0, fs, d) || Deployed(c, fs0, fs, d, f))
      && (s.pc.Finished? && s.pc.out.error.None? && s.pc.out != Idempotent() ==> Deployed(c, fs0, fs, d, f))
      && (s.pc.Finished? && s.pc.out.result.Some? ==>
            s.pc.out.result.value.replaced == (d in fs0 && s.pc.out != Idempotent()))
  {
    hide Sibling, MadeBackup, MadeTemp, Resolve, WriteStep;
    WriteInvReached(c, fs0, es, s, fs);
    WriteHadOrig(c, fs0, es, s, fs);
  }

  lemma {:induction false} WriteHadOrig(c: Ctx, fs0: Fs, es: seq<Event>, s: WriteSt, fs: Fs)
    requires WriteReaches(c, fs0, es, s, fs)
    ensures s.prep.Some? ==> FromStat(c.targets[0], s.prep.value, es)
  {
    hide Sibling, MadeBackup, MadeTemp, Effect, Enabled, Resolve, WriteStep;
    if es != [] {
      var n := |es| - 1;
      var s1, fs1 := WriteRun(c, es[..n]).value, Replay(c.env, fs0, es[..n]).value;
      WriteHadOrig(c, fs0, es[..n], s1, fs1);
      WriteKeepsHadOrig(c, s1, es[n], s);
      assert es == es[..n] + [es[n]];
    }
  }

  lemma WriteKeepsHadOrig(c: Ctx, s: WriteSt, e: Event, s': WriteSt)
    requires OneFile(c) && WriteStep(c, s, e) == Some(s')
    ensures s.prep.Some? ==> s'.prep.Some? && s'.prep.value.hadOrig == s.prep.value.hadOrig
    ensures s.prep.None? && s'.prep.Some? ==> s'.prep.value.hadOrig || e == Stat(c.targets[0], None)
  {
    hide Sibling, MadeBackup, MadeTemp, Resolve, StageStep, CopyStep, Doomed, SameDigest, Targets;
  }
}
