/** Where a deployment reads and writes, and when it takes and releases its locks. */
module ApplyFootprint {
  import opened Paths
  import opened Data
  import opened Os
  import opened Ownership
  import opened FileOps
  import opened ApplyProtocol
  import opened ApplySafety

  /** All calls of one step concern one destination; outside the backup and pruning phases they
      do not write backups. */
  ghost predicate Within(c: Ctx, s: St, e: Event, i: nat) {
    && i < |c.targets|
    && (forall x | Touches(e, x) :: Mine(c.targets[i], x))
    && (s.pc.BackingUp? || s.pc.DroppingBackups? || s.pc.Pruning? || e.ReadFile? || e.ListBackups?
        || forall x | Touches(e, x) :: !IsBackupOf(c.targets[i], x))
    && (s.pc.BackingUp? || s.pc.Pruning? ==> i == s.pc.i)
    && (e.Lock? <==> s.pc.Locking?) && (e.Unlock? <==> s.pc.Unlocking?)
  }

  lemma WithinStaging(c: Ctx, s: St, e: Event, s': St)
    requires c.Valid() && Shape(c, s) && s.pc.StagingFile? && Step(c, s, e) == Some(s')
    ensures Within(c, s, e, s.pc.i)
  {
    hide Sibling, MadeBackup, MadeTemp, StageStep, Touches, PrepNames;
    var d := c.targets[s.pc.i];
    StageStepNames(c.env, d, c.plan.files[s.pc.i].bytes, s.preps[s.pc.i].owner, s.pc.stage, e);
    forall x | Touches(e, x) ensures !IsBackupOf(d, x) { KindsAreDisjoint(d, x); }
  }

  lemma WithinBackingUp(c: Ctx, s: St, e: Event, s': St)
    requires c.Valid() && Shape(c, s) && s.pc.BackingUp? && Step(c, s, e) == Some(s')
    ensures Within(c, s, e, s.pc.i)
  {
    hide Sibling, MadeBackup, MadeTemp, CopyStep, Touches, PrepNames;
    CopyStepNames(c.targets[s.pc.i], s.pc.copy, e);
  }

  lemma WithinRewriting(c: Ctx, s: St, e: Event, s': St)
    requires c.Valid() && Shape(c, s) && s.pc.Restoring? && StepRestoring(c, s, e) == Some(s')
    requires s.pc.i < s.pc.upto && s.pc.undo.Rewriting?
    ensures Within(c, s, e, s.pc.i)
  {
    hide Sibling, MadeBackup, MadeTemp, StageStep, Touches, PrepNames;
    var d := c.targets[s.pc.i];
    StageStepNames(c.env, d, s.pc.undo.data, s.preps[s.pc.i].owner, s.pc.undo.stage, e);
    forall x | Touches(e, x) ensures !IsBackupOf(d, x) { KindsAreDisjoint(d, x); }
  }

  lemma WithinRestoring(c: Ctx, s: St, e: Event, s': St)
    requires c.Valid() && Shape(c, s) && s.pc.Restoring? && StepRestoring(c, s, e) == Some(s')
    requires s.pc.i < s.pc.upto && !s.pc.undo.Rewriting?
    ensures Within(c, s, e, s.pc.i)
  {
    hide Sibling, MadeBackup, MadeTemp, StageStep;
    var d := c.targets[s.pc.i];
    assert PrepNames(d, s.preps[s.pc.i]);
    KindsAreDisjoint(d, d);
    if s.pc.undo.Swapping? || s.pc.undo.Scrapping? { KindsAreDisjoint(d, s.pc.undo.temp); }
  }

  lemma WithinRenaming(c: Ctx, s: St, e: Event, s': St)
    requires c.Valid() && Shape(c, s) && s.pc.Renaming? && StepRenaming(c, s, e) == Some(s')
    ensures Within(c, s, e, s.pc.i)
  {
    hide Sibling, MadeBackup, MadeTemp;
    var d := c.targets[s.pc.i];
    KindsAreDisjoint(d, d);
    KindsAreDisjoint(d, s.preps[s.pc.i].temp.value);
  }

  lemma WithinDroppingTemps(c: Ctx, s: St, e: Event, s': St)
    requires c.Valid() && Shape(c, s) && s.pc.DroppingTemps? && StepDroppingTemps(c, s, e) == Some(s')
    ensures Within(c, s, e, if s.pc.i < c.N() then s.pc.i else 0)
  {
    hide Sibling, MadeBackup, MadeTemp, BackupMap;
    if e.Remove? { KindsAreDisjoint(c.targets[s.pc.i], e.path); }
  }

  lemma WithinEarly(c: Ctx, s: St, e: Event, s': St) returns (i: nat)
    requires c.Valid() && Shape(c, s) && Step(c, s, e) == Some(s')
    requires s.pc.Locking? || s.pc.Checking? || s.pc.Comparing? || s.pc.Statting? || s.pc.BackupHead? || s.pc.Unlocking?
    ensures Within(c, s, e, i)
  {
    hide Sibling, MadeBackup, MadeTemp, Resolve, SameDigest, BackupMap;
    i := if s.pc.Comparing? || s.pc.Statting? then s.pc.i else 0;
    KindsAreDisjoint(c.targets[i], c.targets[i]);
  }

  lemma WithinLate(c: Ctx, s: St, e: Event, s': St) returns (i: nat)
    requires c.Valid() && Shape(c, s) && Step(c, s, e) == Some(s')
    requires s.pc.Validating? || s.pc.Reloading? || s.pc.ReloadingOld? || s.pc.Listing? || s.pc.Pruning?
    ensures Within(c, s, e, i)
  {
    hide Sibling, MadeBackup, MadeTemp, Doomed, BackupMap, TempMap, StepRestoring, CopyStep, StageStep, Targets,
      PrepNames;
    i := if s.pc.Listing? || s.pc.Pruning? then s.pc.i else 0;
  }

  lemma WithinDroppingBackups(c: Ctx, s: St, e: Event, s': St) returns (i: nat)
    requires c.Valid() && Shape(c, s) && s.pc.DroppingBackups? && StepDroppingBackups(c, s, e) == Some(s')
    ensures Within(c, s, e, i)
  {
    hide Sibling, MadeBackup, MadeTemp;
    if e.Remove? { i :| 0 <= i < c.N() && IsBackupOf(c.targets[i], e.path); } else { i := 0; }
  }

  /** Every call of a deployment stays within the family of one of its destinations. */
  lemma StepWithin(c: Ctx, s: St, e: Event, s': St) returns (i: nat)
    requires c.Valid() && Shape(c, s) && Step(c, s, e) == Some(s')
    ensures Within(c, s, e, i)
  {
    hide Sibling, MadeBackup, MadeTemp, Within, Touches;
    if s.pc.StagingFile? { i := s.pc.i; WithinStaging(c, s, e, s'); }
    else if s.pc.BackingUp? { i := s.pc.i; WithinBackingUp(c, s, e, s'); }
    else if s.pc.Renaming? { i := s.pc.i; WithinRenaming(c, s, e, s'); }
    else if s.pc.DroppingTemps? { i := if s.pc.i < c.N() then s.pc.i else 0; WithinDroppingTemps(c, s, e, s'); }
    else if s.pc.DroppingBackups? { i := WithinDroppingBackups(c, s, e, s'); }
    else if s.pc.Restoring? {
      if s.pc.i == s.pc.upto { i := 0; WithinRestored(c, s, e, s'); }
      else if s.pc.undo.Rewriting? { i := s.pc.i; WithinRewriting(c, s, e, s'); }
      else { i := s.pc.i; WithinRestoring(c, s, e, s'); }
    } else if s.pc.Validating? || s.pc.Reloading? || s.pc.ReloadingOld? || s.pc.Listing? || s.pc.Pruning? {
      i := WithinLate(c, s, e, s');
    } else { i := WithinEarly(c, s, e, s'); }
  }

  lemma WithinRestored(c: Ctx, s: St, e: Event, s': St)
    requires c.Valid() && Shape(c, s) && s.pc.Restoring? && StepRestoring(c, s, e) == Some(s') && s.pc.i == s.pc.upto
    ensures Within(c, s, e, 0)
  {
    hide Sibling, MadeBackup, MadeTemp, BackupMap;
  }

  lemma {:induction false} ShapeReached(c: Ctx, fs0: Fs, es: seq<Event>, s: St, fs: Fs)
    requires Reaches(c, fs0, es, s, fs)
    ensures Shape(c, s)
  {
    hide Sibling, MadeBackup, MadeTemp, Step, Shape, Enabled, Effect;
    if es == [] {
      ShapeStart(c);
    } else {
      var n := |es| - 1;
      var s1, fs1 := Run(c, es[..n]).value, Replay(c.env, fs0, es[..n]).value;
      ShapeReached(c, fs0, es[..n], s1, fs1);
      ShapeStep(c, s1, es[n], s, fs1);
    }
  }

  /** Apply changes nothing but its destinations and the backup and temp files named after them. */
  lemma {:induction false} NothingElseChanges(c: Ctx, fs0: Fs, es: seq<Event>, s: St, fs: Fs, x: Path)
    requires Reaches(c, fs0, es, s, fs)
    requires forall j | 0 <= j < c.N() :: !Mine(c.targets[j], x)
    ensures Same(fs0, fs, x)
  {
    hide Sibling, MadeBackup, MadeTemp, Step, Shape, Enabled, Effect, Mine, Touches;
    if es != [] {
      var n := |es| - 1;
      var s1, fs1 := Run(c, es[..n]).value, Replay(c.env, fs0, es[..n]).value;
      NothingElseChanges(c, fs0, es[..n], s1, fs1, x);
      ShapeReached(c, fs0, es[..n], s1, fs1);
      var i := StepWithin(c, s1, es[n], s);
      EffectIsLocal(c.env, es[n], fs1, x);
    }
  }

  // ----- the stamped names a call may touch -----

  ghost predicate Handling(c: Ctx, e: Event, i: nat) {
    i < |c.targets| && forall x | Touches(e, x) :: Handles(c, c.targets[i], x)
  }

  lemma HandlingRestores(c: Ctx, s: St, e: Event, s': St) returns (i: nat)
    requires c.Valid() && Shape(c, s) && s.pc.Restoring? && StepRestoring(c, s, e) == Some(s')
    ensures Handling(c, e, i) && (s.pc.i < s.pc.upto ==> i == s.pc.i)
  {
    hide Sibling, MadeBackup, MadeTemp, Targets, BackupMap, StageStep;
    if s.pc.i >= s.pc.upto {
      i := 0;
    } else {
      i := s.pc.i;
      assert PrepNames(c.targets[i], s.preps[i]);
      if s.pc.undo.Rewriting? {
        StageStepNames(c.env, c.targets[i], s.pc.undo.data, s.preps[i].owner, s.pc.undo.stage, e);
      }
    }
  }

  /** A call for another destination leaves a clear one, and what is written for it, alone. */
  lemma HandlingSpares(c: Ctx, fs: Fs, e: Event, i: nat, j: nat, x: Path)
    requires c.Valid() && Enabled(e, fs) && Handling(c, e, i) && j < c.N() && i != j && Clear(c, j)
    requires Handles(c, c.targets[j], x)
    ensures !Touches(e, x) && Same(fs, Effect(c.env, e, fs), x)
  {
    hide Handles, Clear, Touches, Effect, Enabled, Targets;
    HandledByOne(c, i, j, x);
    EffectIsLocal(c.env, e, fs, x);
  }
}
