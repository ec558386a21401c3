/** When success means that a destination has been deployed, whatever the other names are. */
module ApplySuccess {
  import opened Text
  import opened Paths
  import opened Data
  import opened Os
  import opened Ownership
  import opened FileOps
  import opened ApplyProtocol
  import opened ApplySafety
  import opened ApplyTheorems
  import opened ApplyFootprint
  import opened ApplyAborts

  /** No rename for another destination overwrites the temp file of destination `j` or moves `j`
      away, and pruning does not take it for a backup. */
  ghost predicate Survives(c: Ctx, j: nat)
    requires j < |c.targets|
  {
    && (forall i | 0 <= i < j :: !MadeTemp(c.targets[j], c.targets[i]))
    && (forall i | j < i < |c.targets| :: !MadeTemp(c.targets[i], c.targets[j]))
    && Spared(c, j)
  }

  // ----- the way of one destination to success -----

  ghost predicate Stands(c: Ctx, fs: Fs, s: St, j: nat)
    requires j < |c.plan.files|
  {
    && j < |s.preps| && s.preps[j].temp.Some? && s.preps[j].temp.value in fs
    && Placed(c.env, fs[s.preps[j].temp.value], c.plan.files[j].bytes, s.preps[j].owner)
  }

  ghost predicate Landed(c: Ctx, fs: Fs, s: St, j: nat)
    requires j < |c.targets| && j < |c.plan.files|
  {
    j < |s.preps| && c.targets[j] in fs && Placed(c.env, fs[c.targets[j]], c.plan.files[j].bytes, s.preps[j].owner)
  }

  ghost predicate OutHolds(c: Ctx, fs: Fs, s: St, out: Outcome, j: nat)
    requires c.Valid() && j < c.N()
  {
    if out == Skipped() then IsMatch(c, fs, c.targets[j], c.plan.files[j])
    else out.error.None? ==> Landed(c, fs, s, j)
  }

  ghost predicate OnItsWay(c: Ctx, fs: Fs, s: St, j: nat)
    requires c.Valid() && j < c.N()
  {
    match s.pc
    case Comparing(i) => j < i ==> IsMatch(c, fs, c.targets[j], c.plan.files[j])
    case StagingFile(i, stage) =>
      && (j < i ==> Stands(c, fs, s, j))
      && (j == i ==> j < |s.preps| && StageOk(c.env, c.plan.files[j].bytes, s.preps[j].owner, fs, stage))
    case Validating => Stands(c, fs, s, j)
    case Renaming(i) => if j < i then Landed(c, fs, s, j) else Stands(c, fs, s, j)
    case Reloading => Landed(c, fs, s, j)
    case Listing(_) => Landed(c, fs, s, j)
    case Pruning(_, _) => Landed(c, fs, s, j)
    case Unlocking(_, out) => OutHolds(c, fs, s, out, j)
    case Done(out) => OutHolds(c, fs, s, out, j)
    case _ => true
  }

  /** Nothing is claimed of a run that is not skipped and of a destination that does not survive. */
  ghost predicate Holding(c: Ctx, fs: Fs, s: St, j: nat)
    requires c.Valid() && j < c.N()
  {
    Survives(c, j) || s.pc.Comparing? || ((s.pc.Unlocking? || s.pc.Done?) && s.pc.out == Skipped()) ==>
      OnItsWay(c, fs, s, j)
  }

  lemma HoldingEarly(c: Ctx, fs: Fs, s: St, e: Event, s': St, j: nat)
    requires c.Valid() && Shape(c, s) && Enabled(e, fs) && Step(c, s, e) == Some(s') && j < c.N()
    requires Holding(c, fs, s, j)
    requires s.pc.Locking? || s.pc.Checking? || s.pc.Comparing? || s.pc.Statting? || s.pc.BackupHead?
    ensures Holding(c, Effect(c.env, e, fs), s', j)
  {
    hide Sibling, MadeBackup, MadeTemp, Resolve, SameDigest, Sort, Targets, Survives, Placed, BackupMap;
  }

  lemma HoldingFails(c: Ctx, fs': Fs, s: St, e: Event, s': St, j: nat)
    requires c.Valid() && Shape(c, s) && Step(c, s, e) == Some(s') && j < c.N()
    requires s.pc.BackingUp? || s.pc.DroppingBackups? || s.pc.DroppingTemps? || s.pc.ReloadingOld?
    ensures Holding(c, fs', s', j)
  {
    hide Sibling, MadeBackup, MadeTemp, Resolve, SameDigest, Sort, Targets, Survives, Placed, BackupMap, CopyStep,
      PrepNames;
  }

  lemma HoldingRestoring(c: Ctx, fs': Fs, s: St, e: Event, s': St, j: nat)
    requires c.Valid() && Shape(c, s) && s.pc.Restoring? && StepRestoring(c, s, e) == Some(s') && j < c.N()
    ensures Holding(c, fs', s', j)
  {
    hide Sibling, MadeBackup, MadeTemp, Targets, Survives, Placed, BackupMap, StageStep, PrepNames;
    if s.pc.i < s.pc.upto { RestoringGoesOn(c, s, e, s'); }
  }

  /** Staging another file does not touch a temp file that stands. */
  lemma StandsStill(c: Ctx, fs: Fs, s: St, e: Event, i: nat, j: nat)
    requires c.Valid() && Shape(c, s) && Enabled(e, fs) && i < c.N() && j < c.N() && i != j && Stands(c, fs, s, j)
    requires forall x | Touches(e, x) :: MadeTemp(c.targets[i], x)
    ensures Stands(c, Effect(c.env, e, fs), s, j)
  {
    hide Sibling, MadeBackup, MadeTemp, Placed, Targets, Touches, Effect, Enabled;
    TargetsIff(c.env, c.plan.files);
    assert PrepNames(c.targets[j], s.preps[j]);
    var t := s.preps[j].temp.value;
    MadeForOne(c.targets[i], c.targets[j], t);
    EffectIsLocal(c.env, e, fs, t);
  }

  lemma HoldingStaging(c: Ctx, fs: Fs, s: St, e: Event, s': St, j: nat)
    requires c.Valid() && Shape(c, s) && Enabled(e, fs) && Step(c, s, e) == Some(s') && j < c.N()
    requires Holding(c, fs, s, j)
    requires s.pc.StagingFile?
    ensures Holding(c, Effect(c.env, e, fs), s', j)
  {
    hide Sibling, MadeBackup, MadeTemp, StageStep, Targets, Survives, Placed, StageOk, Effect, Enabled, PrepNames;
    var i := s.pc.i;
    var d, data, o := c.targets[i], c.plan.files[i].bytes, s.preps[i].owner;
    StageStepNames(c.env, d, data, o, s.pc.stage, e);
    if Survives(c, j) {
      if j == i { StageStepOk(c.env, d, data, o, fs, s.pc.stage, e); }
      if j < i { StandsStill(c, fs, s, e, i, j); }
      OpeningIsOk(c.env, c.plan.files[j].bytes, s.preps[j].owner, Effect(c.env, e, fs));
    }
  }

  lemma OpeningIsOk(env: Env, data: Bytes, o: Resolved, fs: Fs)
    ensures StageOk(env, data, o, fs, Opening)
  {
  }

  lemma HoldingRenaming(c: Ctx, fs: Fs, s: St, e: Event, s': St, j: nat)
    requires c.Valid() && Shape(c, s) && Enabled(e, fs) && j < c.N() && Holding(c, fs, s, j)
    requires s.pc.Renaming? && StepRenaming(c, s, e) == Some(s')
    ensures Holding(c, Effect(c.env, e, fs), s', j)
  {
    hide Sibling, MadeBackup, MadeTemp, Targets, Placed, BackupMap, Spared;
    TargetsIff(c.env, c.plan.files);
    var i := s.pc.i;
    assert PrepNames(c.targets[i], s.preps[i]) && PrepNames(c.targets[j], s.preps[j]);
    if j != i { MadeForOne(c.targets[i], c.targets[j], s.preps[j].temp.value); }
  }

  lemma HoldingLate(c: Ctx, fs: Fs, s: St, e: Event, s': St, j: nat)
    requires c.Valid() && Shape(c, s) && Enabled(e, fs) && Step(c, s, e) == Some(s') && j < c.N()
    requires Holding(c, fs, s, j)
    requires s.pc.Validating? || s.pc.Reloading? || s.pc.Listing? || s.pc.Unlocking?
    ensures Holding(c, Effect(c.env, e, fs), s', j)
  {
    hide Sibling, MadeBackup, MadeTemp, Targets, Placed, BackupMap, TempMap, Survives, Doomed, Sort, PrepNames;
  }

  lemma HoldingPruning(c: Ctx, fs: Fs, s: St, e: Event, s': St, j: nat)
    requires c.Valid() && Shape(c, s) && Enabled(e, fs) && j < c.N() && Holding(c, fs, s, j)
    requires s.pc.Pruning? && StepPruning(c, s, e) == Some(s')
    ensures Holding(c, Effect(c.env, e, fs), s', j)
  {
    hide Sibling, MadeBackup, MadeTemp, Targets, Placed, BackupMap, PrepNames;
    KindsAreDisjoint(c.targets[j], c.targets[j]);
    assert s.pc.todo[0] in s.pc.todo;
  }

  lemma HoldingStep(c: Ctx, fs: Fs, s: St, e: Event, s': St, j: nat)
    requires c.Valid() && Shape(c, s) && Enabled(e, fs) && Step(c, s, e) == Some(s') && j < c.N()
    requires Holding(c, fs, s, j)
    ensures Holding(c, Effect(c.env, e, fs), s', j)
  {
    hide Shape, Holding, Effect, Enabled, Targets, StepLocking, StepChecking, StepComparing, StepStatting,
      StepBackupHead, AfterCopy, StepDroppingBackups, AfterStage, StepDroppingTemps, StepValidating, StepReloading,
      StepReloadingOld, StepListing, StepUnlocking;
    var fs' := Effect(c.env, e, fs);
    if s.pc.Restoring? { HoldingRestoring(c, fs', s, e, s', j); }
    else if s.pc.Renaming? { HoldingRenaming(c, fs, s, e, s', j); }
    else if s.pc.StagingFile? { HoldingStaging(c, fs, s, e, s', j); }
    else if s.pc.Pruning? { HoldingPruning(c, fs, s, e, s', j); }
    else if s.pc.BackingUp? || s.pc.DroppingBackups? || s.pc.DroppingTemps? || s.pc.ReloadingOld? {
      HoldingFails(c, fs', s, e, s', j);
    } else if s.pc.Validating? || s.pc.Reloading? || s.pc.Listing?
      || s.pc.Unlocking? { HoldingLate(c, fs, s, e, s', j); }
    else { HoldingEarly(c, fs, s, e, s', j); }
  }

  lemma {:induction false} HoldingReached(c: Ctx, fs0: Fs, es: seq<Event>, s: St, fs: Fs, j: nat)
    requires Reaches(c, fs0, es, s, fs) && j < c.N()
    ensures Holding(c, fs, s, j)
  {
    hide Step, Effect, Enabled, Shape, Survives;
    if es != [] {
      var n := |es| - 1;
      var s1, fs1 := Run(c, es[..n]).value, Replay(c.env, fs0, es[..n]).value;
      HoldingReached(c, fs0, es[..n], s1, fs1, j);
      ShapeReached(c, fs0, es[..n], s1, fs1);
      HoldingStep(c, fs1, s1, es[n], s, j);
    }
  }

  // ----- which ownership was resolved -----

  ghost predicate ResolvedInv(c: Ctx, fs0: Fs, fs: Fs, s: St)
    requires c.Valid()
  {
    && (Preparing(s.pc) ==> fs == fs0) && |s.preps| <= c.N()
    && forall j | 0 <= j < |s.preps| ::
         && (s.preps[j].hadOrig ==> c.targets[j] in fs0)
         && Resolve(c.env, c.plan.files[j], c.plan.defaults,
                    if s.preps[j].hadOrig then Some(fs0[c.targets[j]].meta) else None) == Some(s.preps[j].owner)
  }

  lemma PreparingReads(c: Ctx, s: St, e: Event, s': St)
    requires c.Valid() && Step(c, s, e) == Some(s') && Preparing(s.pc)
    ensures e.Lock? || e.Context? || e.ReadFile? || e.Stat?
  {
    hide Resolve, SameDigest, Sort, Targets;
  }

  lemma PreparingIsFirst(c: Ctx, s: St, e: Event, s': St)
    requires c.Valid() && Step(c, s, e) == Some(s')
    ensures Preparing(s'.pc) ==> Preparing(s.pc)
  {
    hide Step, Targets;
    if s.pc.Restoring? { AsksRestoring(c, s, e, s'); }
    else if s.pc.BackupHead? || s.pc.BackingUp? || s.pc.DroppingBackups? || s.pc.StagingFile? {
      AsksEarly(c, s, e, s');
    } else if !Preparing(s.pc) { AsksLate(c, s, e, s'); }
  }

  lemma ResolvedStep(c: Ctx, fs0: Fs, fs: Fs, s: St, e: Event, s': St)
    requires c.Valid() && Shape(c, s) && Enabled(e, fs) && Step(c, s, e) == Some(s') && ResolvedInv(c, fs0, fs, s)
    ensures ResolvedInv(c, fs0, Effect(c.env, e, fs), s')
  {
    hide Step, Targets, Resolve, PrepNames, ShapeFull;
    PreparingIsFirst(c, s, e, s');
    if Preparing(s.pc) { PreparingReads(c, s, e, s'); }
    StepKeepsHadOrig(c, s, e, s');
  }

  lemma {:induction false} ResolvedReached(c: Ctx, fs0: Fs, es: seq<Event>, s: St, fs: Fs)
    requires Reaches(c, fs0, es, s, fs)
    ensures ResolvedInv(c, fs0, fs, s)
  {
    hide Step, Effect, Enabled, Shape, Resolve;
    if es != [] {
      var n := |es| - 1;
      var s1, fs1 := Run(c, es[..n]).value, Replay(c.env, fs0, es[..n]).value;
      ResolvedReached(c, fs0, es[..n], s1, fs1);
      ShapeReached(c, fs0, es[..n], s1, fs1);
      ResolvedStep(c, fs0, fs1, s1, es[n], s);
    }
  }

  /** Success, whether or not there are backups and whatever Stat said: every destination that
      survives the renames and the pruning has been renamed over and holds the planned bytes, with
      the ownership resolved against the old tree if Stat told the truth. After a skip every
      destination at all holds the planned bytes, as far as the hash can tell. */
  lemma {:induction false} SuccessDeploys(c: Ctx, fs0: Fs, es: seq<Event>, s: St, fs: Fs, j: nat)
    requires Reaches(c, fs0, es, s, fs) && j < c.N() && s.pc.Done? && s.pc.out.error.None?
    requires if s.pc.out == Skipped() then CollisionFree(c.env) else Survives(c, j)
    ensures c.targets[j] in fs && fs[c.targets[j]].bytes == c.plan.files[j].bytes
    ensures Renamed(es, c.targets[j]) <==> s.pc.out != Skipped()
    ensures HonestStats(fs0, es) && s.pc.out != Skipped() ==> Deployed(c, fs0, fs, c.targets[j], c.plan.files[j])
  {
    hide Sibling, MadeBackup, MadeTemp, Shape, Resolve, Step, Run, Replay, Renamed, Survives;
    HoldingReached(c, fs0, es, s, fs, j);
    KnownReached(c, fs0, es, s, fs, j);
    ResolvedReached(c, fs0, es, s, fs);
    PrepsFromStats(c, fs0, es, s, fs);
    if j < |s.preps| { assert FromStat(c.targets[j], s.preps[j], es); }
  }
}
