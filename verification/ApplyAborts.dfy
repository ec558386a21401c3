/** What exactly a failed Apply undoes, whether or not there are backups and whatever Stat said. */
module ApplyAborts {
  import opened Text
  import opened Paths
  import opened Data
  import opened Os
  import opened Ownership
  import opened FileOps
  import opened ApplyProtocol
  import opened ApplySafety
  import opened ApplyTheorems

  predicate SwapsIn(e: Event, d: Path) {
    e.Rename? && e.ok && e.to == d
  }

  /** A rename over the destination has succeeded. */
  ghost predicate Renamed(es: seq<Event>, d: Path) {
    exists e | e in es :: SwapsIn(e, d)
  }

  lemma RenamedSnoc(es: seq<Event>, e: Event, d: Path)
    ensures Renamed(es + [e], d) <==> Renamed(es, d) || SwapsIn(e, d)
  {
    assert forall x :: x in es + [e] <==> x in es || x == e;
  }

  ghost predicate KnownOut(c: Ctx, fs0: Fs, fs: Fs, s: St, out: Outcome, j: nat, ren: bool)
    requires c.Valid() && j < c.N()
  {
    if out.error.None? then ren <==> out != Skipped()
    else match out.error.value
      case ReloadFailed => ren
      case RollbackFailed => true
      case RenameFailed =>
        Clear(c, j) ==>
          j < |s.preps| && if ren then IsBack(c, fs0, fs, c.targets[j], s.preps[j]) else Same(fs0, fs, c.targets[j])
      case _ => !ren
  }

  /** What the control state says about whether destination `j` has been renamed over. */
  ghost predicate Known(c: Ctx, fs0: Fs, fs: Fs, s: St, j: nat, ren: bool)
    requires c.Valid() && j < c.N()
  {
    match s.pc
    case Renaming(i) => ren <==> j < i
    case Restoring(_, _, upto, _, _) => ren <==> j < upto
    case DroppingTemps(_, cause) => ren <==> cause.Partial? && j < cause.upto
    case Reloading => ren
    case ReloadingOld => ren
    case Listing(_) => ren
    case Pruning(_, _) => ren
    case Unlocking(_, out) => KnownOut(c, fs0, fs, s, out, j, ren)
    case Done(out) => KnownOut(c, fs0, fs, s, out, j, ren)
    case _ => !ren
  }

  ghost predicate KnownAfter(c: Ctx, fs0: Fs, fs': Fs, e: Event, s': St, j: nat, ren: bool)
    requires c.Valid() && j < c.N()
  {
    Known(c, fs0, fs', s', j, ren || SwapsIn(e, c.targets[j]))
  }

  lemma KnownEarly(c: Ctx, fs0: Fs, fs': Fs, s: St, e: Event, s': St, j: nat)
    requires c.Valid() && Shape(c, s) && Step(c, s, e) == Some(s') && j < c.N()
    requires s.pc.Locking? || s.pc.Checking? || s.pc.Comparing? || s.pc.Statting? || s.pc.BackupHead?
          || s.pc.DroppingBackups? || s.pc.Validating?
    ensures KnownAfter(c, fs0, fs', e, s', j, false)
  {
    hide Sibling, MadeBackup, MadeTemp, Resolve, BackupMap, TempMap, Sort, SameDigest, Targets;
  }

  lemma KnownFiles(c: Ctx, fs0: Fs, fs': Fs, s: St, e: Event, s': St, j: nat)
    requires c.Valid() && Shape(c, s) && Step(c, s, e) == Some(s') && j < c.N()
    requires s.pc.BackingUp? || s.pc.StagingFile?
    ensures KnownAfter(c, fs0, fs', e, s', j, false)
  {
    hide Sibling, MadeBackup, MadeTemp, Targets, PrepNames;
  }

  lemma KnownRenaming(c: Ctx, fs0: Fs, fs': Fs, s: St, e: Event, s': St, j: nat)
    requires c.Valid() && Shape(c, s) && s.pc.Renaming? && StepRenaming(c, s, e) == Some(s') && j < c.N()
    ensures KnownAfter(c, fs0, fs', e, s', j, j < s.pc.i)
  {
    hide Sibling, MadeBackup, MadeTemp, BackupMap, Targets, PrepNames;
    TargetsIff(c.env, c.plan.files);
  }

  lemma KnownRestoring(c: Ctx, fs0: Fs, fs': Fs, s: St, e: Event, s': St, j: nat)
    requires c.Valid() && Shape(c, s) && s.pc.Restoring? && StepRestoring(c, s, e) == Some(s') && j < c.N()
    ensures KnownAfter(c, fs0, fs', e, s', j, j < s.pc.upto)
  {
    hide Sibling, MadeBackup, MadeTemp, BackupMap, Targets, PrepNames;
    TargetsIff(c.env, c.plan.files);
    if s.pc.i < s.pc.upto { RestoringGoesOn(c, s, e, s'); }
  }

  lemma KnownLate(c: Ctx, fs0: Fs, fs': Fs, s: St, e: Event, s': St, j: nat)
    requires c.Valid() && Shape(c, s) && Step(c, s, e) == Some(s') && j < c.N()
    requires s.pc.Reloading? || s.pc.ReloadingOld? || s.pc.Listing? || s.pc.Pruning?
    ensures KnownAfter(c, fs0, fs', e, s', j, true)
  {
    hide Sibling, MadeBackup, MadeTemp, BackupMap, Targets, PrepNames, Doomed;
  }

  /** The one place where the tree matters: a partial rename loop has been undone. */
  lemma KnownDropping(c: Ctx, fs0: Fs, fs: Fs, s: St, e: Event, s': St, j: nat)
    requires c.Valid() && Shape(c, s) && s.pc.DroppingTemps? && StepDroppingTemps(c, s, e) == Some(s') && j < c.N()
    requires Enabled(e, fs) && (Clear(c, j) ==> FileInv(c, fs0, fs, s, j))
    ensures KnownAfter(c, fs0, Effect(c.env, e, fs), e, s', j, s.pc.cause.Partial? && j < s.pc.cause.upto)
  {
    hide Sibling, MadeBackup, MadeTemp, BackupMap, Targets, PrepHolds, SavedHolds, WorkHolds;
  }

  lemma KnownUnlocking(c: Ctx, fs0: Fs, fs: Fs, s: St, e: Event, s': St, j: nat, ren: bool)
    requires c.Valid() && s.pc.Unlocking? && StepUnlocking(c, s, e) == Some(s') && j < c.N()
    requires Enabled(e, fs) && KnownOut(c, fs0, fs, s, s.pc.out, j, ren)
    ensures KnownAfter(c, fs0, Effect(c.env, e, fs), e, s', j, ren)
  {
    hide Sibling, MadeBackup, MadeTemp, Targets, Sort;
  }

  lemma KnownStep(c: Ctx, fs0: Fs, fs: Fs, s: St, e: Event, s': St, j: nat, ren: bool)
    requires c.Valid() && Inv(c, fs0, fs, s) && Enabled(e, fs) && Step(c, s, e) == Some(s') && j < c.N()
    requires Known(c, fs0, fs, s, j, ren)
    ensures KnownAfter(c, fs0, Effect(c.env, e, fs), e, s', j, ren)
  {
    hide Sibling, MadeBackup, MadeTemp, Shape, KnownAfter, FileInv, Effect, Enabled, KnownOut, StepLocking,
      StepChecking, StepComparing, StepStatting, StepBackupHead, CopyStep, StageStep, StepDroppingBackups,
      StepValidating, StepReloading, StepReloadingOld, StepListing, StepPruning, Targets;
    var fs' := Effect(c.env, e, fs);
    if s.pc.Restoring? { KnownRestoring(c, fs0, fs', s, e, s', j); }
    else if s.pc.Renaming? { KnownRenaming(c, fs0, fs', s, e, s', j); }
    else if s.pc.DroppingTemps? { KnownDropping(c, fs0, fs, s, e, s', j); }
    else if s.pc.Unlocking? { KnownUnlocking(c, fs0, fs, s, e, s', j, ren); }
    else if s.pc.BackingUp? || s.pc.StagingFile? { KnownFiles(c, fs0, fs', s, e, s', j); }
    else if s.pc.Reloading? || s.pc.ReloadingOld? || s.pc.Listing? || s.pc.Pruning? {
      KnownLate(c, fs0, fs', s, e, s', j);
    } else { KnownEarly(c, fs0, fs', s, e, s', j); }
  }

  lemma {:induction false} KnownReached(c: Ctx, fs0: Fs, es: seq<Event>, s: St, fs: Fs, j: nat)
    requires Reaches(c, fs0, es, s, fs) && j < c.N()
    ensures Known(c, fs0, fs, s, j, Renamed(es, c.targets[j]))
  {
    hide Sibling, MadeBackup, MadeTemp, Step, Effect, Enabled, Inv, Known, Renamed;
    if es == [] {
      NothingRenamed(c, fs0, j);
    } else {
      var n := |es| - 1;
      var s1, fs1 := Run(c, es[..n]).value, Replay(c.env, fs0, es[..n]).value;
      KnownReached(c, fs0, es[..n], s1, fs1, j);
      InvReached(c, fs0, es[..n], s1, fs1);
      KnownStep(c, fs0, fs1, s1, es[n], s, j, Renamed(es[..n], c.targets[j]));
      RenamedSnoc(es[..n], es[n], c.targets[j]);
      assert es == es[..n] + [es[n]];
    }
  }

  lemma NothingRenamed(c: Ctx, fs0: Fs, j: nat)
    requires c.Valid() && j < c.N()
    ensures Known(c, fs0, fs0, Start(), j, Renamed([], c.targets[j]))
  {
  }

  /** The destination is as it was if and only if it was absent, or was never renamed over, or was
      backed up, which takes a plan with backups and a Stat of this run that found the file. */
  ghost predicate BackIff(c: Ctx, fs0: Fs, es: seq<Event>, fs: Fs, d: Path) {
    Original(fs0, fs, d) <==> d !in fs0 || !Renamed(es, d) || (c.plan.retention != NO_BACKUPS && Seen(es, d))
  }

  /** Nothing, exactly: after any error but ErrRollbackFailed a destination is as it was if and only
      if it was absent, or was never renamed over, or was backed up, which takes a plan with backups
      and a Stat of this run that found the file. In the remaining case the destination is deleted. */
  lemma AbortIff(c: Ctx, fs0: Fs, es: seq<Event>, s: St, fs: Fs, j: nat)
    requires Reaches(c, fs0, es, s, fs) && j < c.N() && Clear(c, j)
    requires s.pc.Done? && s.pc.out.error.Some? && s.pc.out.error.value != RollbackFailed
    ensures BackIff(c, fs0, es, fs, c.targets[j])
    ensures !Original(fs0, fs, c.targets[j]) ==> c.targets[j] !in fs
  {
    hide Sibling, MadeBackup, MadeTemp, Shape, Resolve, Step, Run, Replay, Renamed, Clear, Seen;
    SeenReached(c, fs0, es, s, fs);
    Claims(c, fs0, es, s, fs, j);
    KnownReached(c, fs0, es, s, fs, j);
  }
}
