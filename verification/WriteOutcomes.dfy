/** What AtomicWriteFile leaves behind: where it writes, its backups, its temp file, and what its
    result says about them. */
module WriteOutcomes {
  import opened Text
  import opened Paths
  import opened Data
  import opened Os
  import opened Ownership
  import opened FileOps
  import opened ApplyProtocol
  import opened ApplySafety
  import opened ApplyTheorems
  import opened ApplyHygiene
  import opened Retention
  import opened WriteProtocol

  // ----- where it reads and writes -----

  ghost predicate WriteWithin(c: Ctx, s: WriteSt, e: Event)
    requires OneFile(c)
  {
    && (forall x | Touches(e, x) :: Mine(c.targets[0], x))
    && (s.pc.CopyingOld? || s.pc.PruningBackups? || e.ReadFile? || e.ListBackups?
        || forall x | Touches(e, x) :: !IsBackupOf(c.targets[0], x))
    && (e.Lock? <==> s.pc.Acquiring?) && (e.Unlock? <==> s.pc.Releasing?)
  }

  lemma WriteStepWithin(c: Ctx, s: WriteSt, e: Event, s': WriteSt)
    requires OneFile(c) && WriteShape(c, s) && WriteStep(c, s, e) == Some(s')
    ensures WriteWithin(c, s, e)
  {
    hide Sibling, MadeBackup, MadeTemp, StageStep, CopyStep, Resolve, SameDigest, Targets, Doomed;
    var d := c.targets[0];
    KindsAreDisjoint(d, d);
    if s.pc.StagingData? {
      StageStepNames(c.env, d, c.plan.files[0].bytes, s.prep.value.owner, s.pc.stage, e);
      forall x | Touches(e, x) ensures !IsBackupOf(d, x) { KindsAreDisjoint(d, x); }
    } else if s.pc.CopyingOld? {
      CopyStepNames(d, s.pc.copy, e);
    } else if s.prep.Some? && s.prep.value.temp.Some? {
      KindsAreDisjoint(d, s.prep.value.temp.value);
    }
  }

  // ----- its backups -----

  function WriteOwn(s: WriteSt): Option<Path> {
    if s.pc.CopyingOld? then CopyOwn(s.pc.copy) else if s.prep.Some? then s.prep.value.backup else None
  }

  function WriteStockOut(c: Ctx, out: WriteOutcome): Stock {
    if out.error == Some(BackupFailed) then Anything
    else if out.error.None? && out != Idempotent() && c.Keep() > 0 then Pruned({})
    else Exact(true)
  }

  function WriteStock(c: Ctx, pc: WritePc): Stock {
    match pc
    case CopyingOld(copy) => Exact(!copy.Filling?)
    case PruningBackups(todo) => Pruned(Elements(todo))
    case DroppingTemp(out) => WriteStockOut(c, out)
    case Releasing(out) => WriteStockOut(c, out)
    case Finished(out) => WriteStockOut(c, out)
    case _ => Exact(true)
  }

  ghost predicate WriteStockInv(c: Ctx, fs0: Fs, fs: Fs, s: WriteSt, clean: bool)
    requires OneFile(c)
  {
    StockHolds(fs0, fs, c.targets[0], WriteOwn(s), c.Keep(), WriteStock(c, s.pc), clean)
  }

  lemma WriteOwnIsBackup(c: Ctx, s: WriteSt)
    requires OneFile(c) && WriteShape(c, s)
    ensures WriteOwn(s).Some? ==> IsBackupOf(c.targets[0], WriteOwn(s).value)
  {
    hide Sibling, MadeBackup, MadeTemp;
  }

  lemma WriteStockUnmoved(c: Ctx, s: WriteSt, e: Event, s': WriteSt)
    requires OneFile(c) && WriteShape(c, s) && WriteStep(c, s, e) == Some(s')
    requires !s.pc.CopyingOld? && !s.pc.PruningBackups? && !s.pc.ScanningBackups?
    ensures WriteOwn(s') == WriteOwn(s) && WriteStock(c, s'.pc) == WriteStock(c, s.pc)
  {
    hide Sibling, MadeBackup, MadeTemp, WriteStep, WriteShape, WriteOwn, WriteStock;
    if s.prep.None? { WriteStockEarly(c, s, e, s'); }
    else if s.pc.StagingData? { WriteStockStaging(c, s, e, s'); }
    else { WriteStockLate(c, s, e, s'); }
  }

  lemma WriteStockEarly(c: Ctx, s: WriteSt, e: Event, s': WriteSt)
    requires OneFile(c) && WriteStep(c, s, e) == Some(s') && s.prep.None?
    ensures WriteOwn(s') == WriteOwn(s) && WriteStock(c, s'.pc) == WriteStock(c, s.pc)
  {
    hide WriteStepLate, Resolve, SameDigest, Targets;
  }

  lemma WriteStockStaging(c: Ctx, s: WriteSt, e: Event, s': WriteSt)
    requires OneFile(c) && WriteShape(c, s) && WriteStep(c, s, e) == Some(s') && s.prep.Some? && s.pc.StagingData?
    ensures WriteOwn(s') == WriteOwn(s) && WriteStock(c, s'.pc) == WriteStock(c, s.pc)
  {
    hide Sibling, MadeBackup, MadeTemp, StageStep, CopyStep, Resolve, Targets, Doomed, StageNames, PrepNames;
  }

  lemma WriteStockLate(c: Ctx, s: WriteSt, e: Event, s': WriteSt)
    requires OneFile(c) && WriteShape(c, s) && WriteStep(c, s, e) == Some(s') && s.prep.Some?
    requires s.pc.SwappingIn? || s.pc.DroppingTemp? || s.pc.Releasing? || s.pc.Finished? || s.pc.Acquiring?
          || s.pc.CheckingContext? || s.pc.ExaminingDest? || s.pc.ComparingBytes?
    ensures WriteOwn(s') == WriteOwn(s) && WriteStock(c, s'.pc) == WriteStock(c, s.pc)
  {
    hide Sibling, MadeBackup, MadeTemp, StageStep, CopyStep, Resolve, Targets, Doomed, StageNames, PrepNames;
  }

  lemma WriteStockQuiet(c: Ctx, fs0: Fs, fs: Fs, s: WriteSt, e: Event, s': WriteSt, clean: bool)
    requires WriteBefore(c, fs0, fs, s, e, s') && WriteStockInv(c, fs0, fs, s, clean)
    requires !s.pc.CopyingOld? && !s.pc.PruningBackups? && !s.pc.ScanningBackups?
    ensures WriteStockInv(c, fs0, Effect(c.env, e, fs), s', clean && CleanCall(e))
  {
    hide Sibling, MadeBackup, MadeTemp, WriteStep, WriteShape, StockHolds, Effect, Enabled, WriteOwn, WriteStock,
      Touches, Holds, TempStands;
    WriteStockUnmoved(c, s, e, s');
    WriteStepWithin(c, s, e, s');
    WriteOwnIsBackup(c, s);
    var fs' := Effect(c.env, e, fs);
    forall x | IsBackupOf(c.targets[0], x) ensures Same(fs, fs', x) {
      if e.ReadFile? || e.ListBackups? { ReadsChangeNothing(c.env, e, fs); } else { EffectIsLocal(c.env, e, fs, x); }
    }
    StockFrame(fs0, fs, fs', c.targets[0], WriteOwn(s), c.Keep(), WriteStock(c, s.pc), clean, clean && CleanCall(e));
  }

  lemma WriteStockCopying(c: Ctx, fs0: Fs, fs: Fs, s: WriteSt, e: Event, s': WriteSt, clean: bool)
    requires WriteBefore(c, fs0, fs, s, e, s') && WriteStockInv(c, fs0, fs, s, clean) && s.pc.CopyingOld?
    ensures WriteStockInv(c, fs0, Effect(c.env, e, fs), s', clean && CleanCall(e))
  {
    hide Sibling, MadeBackup, MadeTemp, StockHolds, Effect, Enabled, CopyStep, Placed, Resolve;
    var d, copy := c.targets[0], s.pc.copy;
    var r := CopyStep(d, copy, e);
    if r.Copying? || r.Copied? {
      CopyOwnKeeps(c.env, fs0, fs, d, c.Keep(), clean, copy, e);
    } else {
      NothingClaimed(fs0, Effect(c.env, e, fs), d, WriteOwn(s'), c.Keep(), clean && CleanCall(e));
    }
  }

  lemma NothingClaimed(fs0: Fs, fs: Fs, d: Path, own: Option<Path>, keep: int, clean: bool)
    ensures StockHolds(fs0, fs, d, own, keep, Anything, clean)
  {
  }

  lemma WriteStockPruning(c: Ctx, fs0: Fs, fs: Fs, s: WriteSt, e: Event, s': WriteSt, clean: bool)
    requires WriteBefore(c, fs0, fs, s, e, s') && WriteStockInv(c, fs0, fs, s, clean)
    requires s.pc.PruningBackups? || s.pc.ScanningBackups?
    ensures WriteStockInv(c, fs0, Effect(c.env, e, fs), s', clean && CleanCall(e))
  {
    hide Sibling, MadeBackup, MadeTemp, StockHolds, Effect, Placed, Resolve, Doomed, Holds;
    var d := c.targets[0];
    assert Elements<Path>([]) == {};
    if s.pc.PruningBackups? {
      PruningOwn(c.env, fs0, fs, d, WriteOwn(s), c.Keep(), clean, s.pc.todo, e);
    } else {
      ReadsChangeNothing(c.env, e, fs);
      ListingOwn(fs0, fs, d, WriteOwn(s), c.Keep(), clean, e.names);
    }
  }

  lemma {:induction false} WriteStockReached(c: Ctx, fs0: Fs, es: seq<Event>, s: WriteSt, fs: Fs)
    requires WriteReaches(c, fs0, es, s, fs)
    ensures WriteStockInv(c, fs0, fs, s, IsClean(es))
  {
    hide Sibling, MadeBackup, MadeTemp, WriteStep, Effect, Enabled, WriteStockInv, CleanCall, Holds, TempStands;
    if es == [] {
      WriteStockStart(c, fs0);
    } else {
      var n := |es| - 1;
      var s1, fs1 := WriteRun(c, es[..n]).value, Replay(c.env, fs0, es[..n]).value;
      WriteStockReached(c, fs0, es[..n], s1, fs1);
      WriteInvReached(c, fs0, es[..n], s1, fs1);
      WriteInvReached(c, fs0, es, s, fs);
      if s1.pc.CopyingOld? { WriteStockCopying(c, fs0, fs1, s1, es[n], s, IsClean(es[..n])); }
      else if s1.pc.PruningBackups? || s1.pc.ScanningBackups? {
        WriteStockPruning(c, fs0, fs1, s1, es[n], s, IsClean(es[..n]));
      } else { WriteStockQuiet(c, fs0, fs1, s1, es[n], s, IsClean(es[..n])); }
    }
  }

  lemma WriteStockStart(c: Ctx, fs0: Fs)
    requires OneFile(c)
    ensures WriteStockInv(c, fs0, fs0, WriteStart(), true)
  {
    hide Sibling, MadeBackup, MadeTemp;
  }

  // ----- what Stat saw -----

  ghost predicate WriteSeenInv(c: Ctx, es: seq<Event>, s: WriteSt)
    requires OneFile(c)
  {
    && (s.prep.Some? ==> (Seen(es, c.targets[0]) <==> s.prep.value.hadOrig))
    && (s.pc.Acquiring? || s.pc.CheckingContext? || s.pc.ExaminingDest? ==> !Seen(es, c.targets[0]))
    && (s.pc.ComparingBytes? ==> Seen(es, c.targets[0]))
    && (s.pc.CopyingOld? ==> s.prep.Some? && s.prep.value.hadOrig)
  }

  lemma WriteSeenEarly(c: Ctx, es: seq<Event>, s: WriteSt, e: Event, s': WriteSt)
    requires OneFile(c) && WriteShape(c, s) && WriteStep(c, s, e) == Some(s') && WriteSeenInv(c, es, s) && s.prep.None?
    ensures WriteSeenInv(c, es + [e], s')
  {
    hide Sibling, MadeBackup, MadeTemp, Resolve, Targets, SameDigest, Seen;
    SeenSnoc(es, e, c.targets[0]);
  }

  lemma WriteSeenLate(c: Ctx, es: seq<Event>, s: WriteSt, e: Event, s': WriteSt)
    requires OneFile(c) && WriteShape(c, s) && WriteStep(c, s, e) == Some(s') && WriteSeenInv(c, es, s) && s.prep.Some?
    ensures WriteSeenInv(c, es + [e], s')
  {
    hide Sibling, MadeBackup, MadeTemp, Resolve, Targets, SameDigest, Seen, Doomed, StageNames, CopyNames, PrepNames;
    SeenSnoc(es, e, c.targets[0]);
  }

  lemma {:induction false} WriteSeenReached(c: Ctx, fs0: Fs, es: seq<Event>, s: WriteSt, fs: Fs)
    requires WriteReaches(c, fs0, es, s, fs)
    ensures WriteSeenInv(c, es, s)
  {
    hide WriteStep, Effect, Enabled, WriteSeenInv, Holds, TempStands, WriteShape;
    if es == [] {
      WriteNothingSeen(c);
    } else {
      var n := |es| - 1;
      var s1, fs1 := WriteRun(c, es[..n]).value, Replay(c.env, fs0, es[..n]).value;
      WriteSeenReached(c, fs0, es[..n], s1, fs1);
      WriteInvReached(c, fs0, es[..n], s1, fs1);
      if s1.prep.None? { WriteSeenEarly(c, es[..n], s1, es[n], s); } else { WriteSeenLate(c, es[..n], s1, es[n], s); }
      assert es == es[..n] + [es[n]];
    }
  }

  lemma WriteNothingSeen(c: Ctx)
    requires OneFile(c)
    ensures WriteSeenInv(c, [], WriteStart())
  {
  }

  // ----- what the result says -----

  /** The retention window of a successful AtomicWriteFile, as for Apply, around the backup that its
      result names; one is named exactly when Stat found the file and backups are on. */
  lemma {:induction false} WriteRetentionWindow(c: Ctx, fs0: Fs, es: seq<Event>, s: WriteSt, fs: Fs)
    requires WriteReaches(c, fs0, es, s, fs)
    requires s.pc.Finished? && s.pc.out.error.None? && s.pc.out != Idempotent()
    ensures s.pc.out.result.Some?
    ensures var named := s.pc.out.result.value.backup;
      && (named.Some? <==> Seen(es, c.targets[0]) && c.plan.retention != NO_BACKUPS)
      && (HonestStats(fs0, es) ==> (named.Some? <==> c.targets[0] in fs0 && c.plan.retention != NO_BACKUPS))
      && Window(c, fs0, fs, c.targets[0], named, IsClean(es))
  {
    hide Sibling, MadeBackup, MadeTemp, WriteStep, Resolve, WriteRun, Replay, Retention.Kept, Intact, Placed, Seen;
    WriteHadOrig(c, fs0, es, s, fs);
    WriteSeenReached(c, fs0, es, s, fs);
    WriteInvReached(c, fs0, es, s, fs);
    WriteStockReached(c, fs0, es, s, fs);
  }

  lemma {:induction false} WriteRetentionSize(c: Ctx, fs0: Fs, es: seq<Event>, s: WriteSt, fs: Fs)
    requires WriteReaches(c, fs0, es, s, fs) && IsClean(es)
    requires s.pc.Finished? && s.pc.out.error.None? && s.pc.out != Idempotent()
    ensures s.pc.out.result.Some?
    ensures SizedWindow(c.plan.retention, All(fs0, c.targets[0], s.pc.out.result.value.backup),
        Backups(fs, c.targets[0]))
  {
    hide WriteRun, Replay, IsClean, Window, SizedWindow, Seen;
    WriteRetentionWindow(c, fs0, es, s, fs);
    WindowIsSized(c, fs0, fs, c.targets[0], s.pc.out.result.value.backup);
  }

  /** The backup that the result names is good: it holds the original bytes wherever it exists, and
      it exists if its name is the newest, after a clean run if and only if it is in the window. */
  lemma {:induction false} WriteNamedBackupIsGood(c: Ctx, fs0: Fs, es: seq<Event>, s: WriteSt, fs: Fs)
    requires WriteReaches(c, fs0, es, s, fs)
    requires s.pc.Finished? && s.pc.out.result.Some? && s.pc.out.result.value.backup.Some?
    ensures var d, b, keep := c.targets[0], s.pc.out.result.value.backup.value, c.Keep();
      && IsBackupOf(d, b) && d in fs0
      && (b in fs ==> fs[b].bytes == fs0[d].bytes)
      && (keep <= 0 || NewestBackup(fs0, d, b) ==> b in fs)
      && (IsClean(es) ==> (b in fs <==> keep <= 0 || b in Kept(All(fs0, d, Some(b)), keep)))
  {
    hide Sibling, MadeBackup, MadeTemp, WriteStep, Resolve, WriteRun, Replay, Retention.Kept, Placed, Less, Seen;
    WriteInvReached(c, fs0, es, s, fs);
    WriteRetentionWindow(c, fs0, es, s, fs);
    var d, b := c.targets[0], s.pc.out.result.value.backup.value;
    if c.Keep() > 0 && NewestBackup(fs0, d, b) {
      NewestIsKept(All(fs0, d, Some(b)), c.Keep(), b);
      assert b in Backups(fs, d);
    }
    if b in fs { assert b in Backups(fs, d); }
  }

  /** At every point of every run an overwritten original exists in full in a backup, as long as the
      clock makes the new backup the newest. */
  lemma {:induction false} WriteOriginalsSurvive(c: Ctx, fs0: Fs, es: seq<Event>, s: WriteSt, fs: Fs)
    requires WriteReaches(c, fs0, es, s, fs) && HonestStats(fs0, es) && c.plan.retention != NO_BACKUPS
    requires s.prep.Some? && s.prep.value.backup.Some? ==> NewestBackup(fs0, c.targets[0], s.prep.value.backup.value)
    requires c.targets[0] in fs0 && !Same(fs0, fs, c.targets[0])
    ensures Recoverable(fs0, fs, c.targets[0])
  {
    hide Sibling, MadeBackup, MadeTemp, WriteStep, Resolve, WriteRun, Replay, Placed, Less;
    WriteHadOrig(c, fs0, es, s, fs);
    WriteInvReached(c, fs0, es, s, fs);
    WriteStockReached(c, fs0, es, s, fs);
    var d, own := c.targets[0], s.prep.value.backup;
    if c.Keep() > 0 { NewestIsKept(All(fs0, d, own), c.Keep(), own.value); }
    assert own.value in Backups(fs, d);
  }

  // ----- its temp file -----

  /** The temp file a state still accounts for. */
  function WriteTracked(s: WriteSt): set<Path> {
    match s.pc
    case StagingData(stage) => StageTemps(stage)
    case CopyingOld(_) => PrepTemp(s.prep)
    case SwappingIn => PrepTemp(s.prep)
    case DroppingTemp(_) => PrepTemp(s.prep)
    case _ => {}
  }

  function PrepTemp(p: Option<Prep>): set<Path> {
    if p.Some? && p.value.temp.Some? then {p.value.temp.value} else {}
  }

  ghost predicate WriteTidy(c: Ctx, fs: Fs, s: WriteSt, e: Event, fs': Fs, s': WriteSt)
    requires OneFile(c)
  {
    forall x | x in fs' ::
      && (x in fs || x == c.targets[0] || IsBackupOf(c.targets[0], x) || x in WriteTracked(s'))
      && (x in WriteTracked(s) ==>
            x in WriteTracked(s') || x == c.targets[0] || IsBackupOf(c.targets[0], x) || e == Remove(x, Refused))
  }

  lemma WriteTidyStaging(c: Ctx, fs: Fs, s: WriteSt, e: Event, s': WriteSt)
    requires OneFile(c) && WriteShape(c, s) && Enabled(e, fs) && WriteStep(c, s, e) == Some(s') && s.pc.StagingData?
    ensures WriteTidy(c, fs, s, e, Effect(c.env, e, fs), s')
  {
    hide Sibling, MadeBackup, MadeTemp, Resolve, Targets, StageStep, Effect, Enabled, StageTemps;
    StageTidy(c.env, c.targets[0], c.plan.files[0].bytes, s.prep.value.owner, fs, s.pc.stage, e);
  }

  lemma WriteTidyCopying(c: Ctx, fs: Fs, s: WriteSt, e: Event, s': WriteSt)
    requires OneFile(c) && WriteShape(c, s) && Enabled(e, fs) && WriteStep(c, s, e) == Some(s') && s.pc.CopyingOld?
    ensures WriteTidy(c, fs, s, e, Effect(c.env, e, fs), s')
  {
    hide Sibling, MadeBackup, MadeTemp, Resolve, Targets, CopyStep, Effect, Enabled;
    CopyTidy(c.env, c.targets[0], fs, s.pc.copy, e);
  }

  /** Before there is a temp file: only questions are asked. */
  lemma WriteEarlyCalls(c: Ctx, s: WriteSt, e: Event, s': WriteSt)
    requires OneFile(c) && WriteStep(c, s, e) == Some(s') && s.prep.None?
    ensures e.Lock? || e.Context? || e.Stat? || e.ReadFile? || e.Unlock?
    ensures WriteTracked(s) == {} == WriteTracked(s')
  {
    hide Resolve, Targets, SameDigest, WriteStepLate;
  }

  lemma WriteTidyEarly(c: Ctx, fs: Fs, s: WriteSt, e: Event, s': WriteSt)
    requires OneFile(c) && WriteShape(c, s) && Enabled(e, fs) && WriteStep(c, s, e) == Some(s') && s.prep.None?
    ensures WriteTidy(c, fs, s, e, Effect(c.env, e, fs), s')
  {
    hide Sibling, MadeBackup, MadeTemp, Targets, WriteStep, WriteShape, WriteTracked;
    WriteEarlyCalls(c, s, e, s');
  }

  lemma WriteTidySwapping(c: Ctx, fs: Fs, s: WriteSt, e: Event, s': WriteSt)
    requires OneFile(c) && WriteShape(c, s) && Enabled(e, fs) && WriteStep(c, s, e) == Some(s') && s.pc.SwappingIn?
    requires s.prep.Some?
    ensures WriteTidy(c, fs, s, e, Effect(c.env, e, fs), s')
  {
    hide Sibling, MadeBackup, MadeTemp, Resolve, Targets, WriteStepEarly, AfterWriteStage, AfterWriteCopy, StageStep,
      CopyStep;
    KindsAreDisjoint(c.targets[0], c.targets[0]);
  }

  /** From the scan on, only scans, removals and the unlock are left. */
  lemma WriteLateCalls(c: Ctx, s: WriteSt, e: Event, s': WriteSt)
    requires OneFile(c) && WriteStep(c, s, e) == Some(s') && s.prep.Some?
    requires !s.pc.StagingData? && !s.pc.CopyingOld? && !s.pc.SwappingIn?
    ensures e.ListBackups? || e.Unlock? || e.Remove?
    ensures WriteTracked(s) <= WriteTracked(s') || (e.Remove? && WriteTracked(s) == {e.path})
  {
    hide Targets, WriteStepEarly, AfterWriteStage, AfterWriteCopy, StageStep, CopyStep, Doomed;
  }

  lemma WriteTidyLate(c: Ctx, fs: Fs, s: WriteSt, e: Event, s': WriteSt)
    requires OneFile(c) && WriteShape(c, s) && Enabled(e, fs) && WriteStep(c, s, e) == Some(s') && s.prep.Some?
    requires !s.pc.StagingData? && !s.pc.CopyingOld? && !s.pc.SwappingIn?
    ensures WriteTidy(c, fs, s, e, Effect(c.env, e, fs), s')
  {
    hide Sibling, MadeBackup, MadeTemp, Targets, WriteStep, WriteShape, WriteTracked;
    WriteLateCalls(c, s, e, s');
  }

  ghost predicate WriteAccounted(c: Ctx, fs0: Fs, es: seq<Event>, s: WriteSt, fs: Fs)
    requires OneFile(c)
  {
    forall x | x in fs ::
      x in fs0 || x == c.targets[0] || IsBackupOf(c.targets[0], x) || x in WriteTracked(s) || Remove(x, Refused) in es
  }

  lemma {:induction false} WriteAccountedReached(c: Ctx, fs0: Fs, es: seq<Event>, s: WriteSt, fs: Fs)
    requires WriteReaches(c, fs0, es, s, fs)
    ensures WriteAccounted(c, fs0, es, s, fs)
  {
    hide Sibling, MadeBackup, MadeTemp, WriteStep, Effect, Enabled, Holds, TempStands, WriteTracked;
    if es != [] {
      var n := |es| - 1;
      var s1, fs1 := WriteRun(c, es[..n]).value, Replay(c.env, fs0, es[..n]).value;
      WriteAccountedReached(c, fs0, es[..n], s1, fs1);
      WriteInvReached(c, fs0, es[..n], s1, fs1);
      if s1.pc.StagingData? { WriteTidyStaging(c, fs1, s1, es[n], s); }
      else if s1.pc.CopyingOld? { WriteTidyCopying(c, fs1, s1, es[n], s); }
      else if s1.prep.None? { WriteTidyEarly(c, fs1, s1, es[n], s); }
      else if s1.pc.SwappingIn? { WriteTidySwapping(c, fs1, s1, es[n], s); }
      else { WriteTidyLate(c, fs1, s1, es[n], s); }
      assert es == es[..n] + [es[n]];
    }
  }

  /** Temp hygiene, as for Apply: when AtomicWriteFile returns, whatever is new is the destination, a
      backup of it, or a file whose removal the system refused. */
  lemma {:induction false} WriteTempHygiene(c: Ctx, fs0: Fs, es: seq<Event>, s: WriteSt, fs: Fs, x: Path)
    requires WriteReaches(c, fs0, es, s, fs) && s.pc.Finished? && x in fs
    ensures x in fs0 || x == c.targets[0] || IsBackupOf(c.targets[0], x) || Remove(x, Refused) in es
  {
    hide Sibling, MadeBackup, MadeTemp, WriteRun, Replay;
    WriteAccountedReached(c, fs0, es, s, fs);
  }

  /** From its creation until its chmod the temp file belongs to the process and only its owner may
      read or write it. */
  lemma {:induction false} WriteTempIsPrivate(c: Ctx, fs0: Fs, es: seq<Event>, s: WriteSt, fs: Fs)
    requires WriteReaches(c, fs0, es, s, fs) && s.pc.StagingData? && Unfinished(s.pc.stage)
    ensures s.pc.stage.temp in fs && fs[s.pc.stage.temp].meta == Meta(c.env.masked(0x180), c.env.uid, c.env.gid)
  {
    hide Sibling, MadeBackup, MadeTemp, WriteRun, Replay, Resolve;
    WriteInvReached(c, fs0, es, s, fs);
  }
}
