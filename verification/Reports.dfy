/** The backups a Result names: which destinations it maps, and that the named files are good. */
module Reports {
  import opened Text
  import opened Paths
  import opened Data
  import opened Os
  import opened Ownership
  import opened FileOps
  import opened ApplyProtocol
  import opened ApplySafety
  import opened ApplyTheorems
  import opened ApplyFootprint
  import opened Retention
  import opened ApplyBackups

  /** What the result says about `d`: the path of its backup, or that there is none. */
  function NamedBackup(out: Outcome, d: Path): Option<Path> {
    if out.result.Some? && d in out.result.value.backups then out.result.value.backups[d] else None
  }

  predicate ReportIs(c: Ctx, preps: seq<Prep>, out: Outcome) {
    out.result.Some? && out != Skipped() ==>
      && |preps| == |c.targets|
      && out.result.value.backups == if c.plan.retention == NO_BACKUPS then map[] else BackupMap(c.targets, preps)
  }

  predicate ReportInv(c: Ctx, s: St) {
    s.pc.Unlocking? || s.pc.Done? ==> ReportIs(c, s.preps, s.pc.out)
  }

  lemma ReportEarly(c: Ctx, s: St, e: Event, s': St)
    requires c.Valid() && Shape(c, s) && Step(c, s, e) == Some(s')
    requires s.pc.Locking? || s.pc.Checking? || s.pc.Comparing? || s.pc.Statting? || s.pc.BackupHead? || s.pc.BackingUp?
          || s.pc.DroppingBackups? || s.pc.StagingFile? || s.pc.Validating?
    ensures ReportInv(c, s')
  {
    hide Sibling, MadeBackup, MadeTemp, Resolve, SameDigest, BackupMap, TempMap, Sort, Targets, StageStep, CopyStep,
      PrepNames;
  }

  lemma ReportLate(c: Ctx, s: St, e: Event, s': St)
    requires c.Valid() && Shape(c, s) && Step(c, s, e) == Some(s')
    requires s.pc.DroppingTemps? || s.pc.Renaming? || s.pc.Reloading? || s.pc.ReloadingOld? || s.pc.Listing?
        || s.pc.Pruning?
    ensures ReportInv(c, s')
  {
    hide Sibling, MadeBackup, MadeTemp, BackupMap, Sort, Targets, PrepNames, Doomed;
  }

  lemma ReportRestoring(c: Ctx, s: St, e: Event, s': St)
    requires c.Valid() && Shape(c, s) && s.pc.Restoring? && StepRestoring(c, s, e) == Some(s')
    ensures ReportInv(c, s')
  {
    hide Sibling, MadeBackup, MadeTemp, BackupMap, Targets, PrepNames, StageStep;
    if s.pc.i < s.pc.upto { RestoringGoesOn(c, s, e, s'); }
  }

  lemma ReportStep(c: Ctx, s: St, e: Event, s': St)
    requires c.Valid() && Shape(c, s) && Step(c, s, e) == Some(s') && ReportInv(c, s)
    ensures ReportInv(c, s')
  {
    hide Shape, ReportIs, Targets, BackupMap, StepLocking, StepChecking, StepComparing, StepStatting, StepBackupHead,
      AfterCopy, StepDroppingBackups, AfterStage, StepDroppingTemps, StepValidating, StepRenaming, StepReloading,
      StepReloadingOld, StepListing, StepPruning;
    if s.pc.Restoring? { ReportRestoring(c, s, e, s'); }
    else if s.pc.DroppingTemps? || s.pc.Renaming? || s.pc.Reloading? || s.pc.ReloadingOld? || s.pc.Listing?
      || s.pc.Pruning? {
      ReportLate(c, s, e, s');
    } else if !s.pc.Unlocking? { ReportEarly(c, s, e, s'); }
  }

  lemma {:induction false} ReportReached(c: Ctx, fs0: Fs, es: seq<Event>, s: St, fs: Fs)
    requires Reaches(c, fs0, es, s, fs)
    ensures ReportInv(c, s)
  {
    hide Step, Shape, Effect, Enabled, ReportIs;
    if es != [] {
      var n := |es| - 1;
      var s1, fs1 := Run(c, es[..n]).value, Replay(c.env, fs0, es[..n]).value;
      ReportReached(c, fs0, es[..n], s1, fs1);
      ShapeReached(c, fs0, es[..n], s1, fs1);
      ReportStep(c, s1, es[n], s);
    }
  }

  lemma {:induction false} BackupMapKeys(ts: seq<Path>, preps: seq<Prep>, d: Path)
    requires |preps| <= |ts|
    ensures d in BackupMap(ts, preps) <==> d in ts[..|preps|]
  {
    if preps != [] {
      var n := |preps| - 1;
      BackupMapKeys(ts, preps[..n], d);
      assert ts[..n + 1] == ts[..n] + [ts[n]];
    }
  }

  lemma {:induction false} BackupMapAt(ts: seq<Path>, preps: seq<Prep>, j: nat)
    requires |preps| <= |ts| && j < |preps| && Distinct(ts)
    ensures ts[j] in BackupMap(ts, preps) && BackupMap(ts, preps)[ts[j]] == preps[j].backup
  {
    var n := |preps| - 1;
    if j < n { BackupMapAt(ts, preps[..n], j); }
  }

  /** A result that is not a skip names every destination and nothing else when there are backups,
      and nothing at all when they are off. */
  lemma ResultMapsDestinations(c: Ctx, fs0: Fs, es: seq<Event>, s: St, fs: Fs, d: Path)
    requires Reaches(c, fs0, es, s, fs) && s.pc.Done? && s.pc.out.result.Some? && s.pc.out != Skipped()
    ensures d in s.pc.out.result.value.backups <==> c.plan.retention != NO_BACKUPS && d in c.targets
  {
    hide Step, Run, Replay, BackupMap, Targets;
    ReportReached(c, fs0, es, s, fs);
    BackupMapKeys(c.targets, s.preps, d);
    assert c.targets[..|c.targets|] == c.targets;
  }

  lemma NamedIsPrep(c: Ctx, fs0: Fs, es: seq<Event>, s: St, fs: Fs, j: nat)
    requires Reaches(c, fs0, es, s, fs) && j < c.N()
    requires s.pc.Done? && s.pc.out.result.Some? && s.pc.out != Skipped() && c.plan.retention != NO_BACKUPS
    ensures j < |s.preps| && c.targets[j] in s.pc.out.result.value.backups
    ensures NamedBackup(s.pc.out, c.targets[j]) == s.preps[j].backup
  {
    hide Step, Run, Replay, BackupMap, Targets;
    ReportReached(c, fs0, es, s, fs);
    TargetsIff(c.env, c.plan.files);
    BackupMapAt(c.targets, s.preps, j);
  }

  /** The named backups are good: a backup is named exactly for the files Stat found, and it exists
      and holds the original bytes after every error, and after success if its name is the newest;
      after a clean success it exists if and only if it is within the retention window. If it was not
      there before, it has the permission bits of the original too, and its owner if that was granted. */
  lemma {:induction false} NamedBackupsAreGood(c: Ctx, fs0: Fs, es: seq<Event>, s: St, fs: Fs, j: nat)
    requires Reaches(c, fs0, es, s, fs) && j < c.N()
    requires s.pc.Done? && s.pc.out.result.Some? && s.pc.out != Skipped() && c.plan.retention != NO_BACKUPS
    requires if s.pc.out.error.Some? then Clear(c, j) else Alone(c.targets, j)
    ensures var d, named, keep := c.targets[j], NamedBackup(s.pc.out, c.targets[j]), c.Keep();
      && d in s.pc.out.result.value.backups
      && (named.Some? <==> Seen(es, d))
      && (HonestStats(fs0, es) ==> (named.Some? <==> d in fs0))
      && (named.Some? ==> IsBackupOf(d, named.value) && d in fs0)
      && (named.Some? && named.value in fs ==> fs[named.value].bytes == fs0[d].bytes)
      && (named.Some? && named.value in fs && named.value !in fs0 ==>
            fs[named.value] == CopyOf(c.env, fs0[d], Gifted(es, named.value)))
      && (named.Some? && (s.pc.out.error.Some? || keep <= 0 || NewestBackup(fs0, d, named.value)) ==> named.value in fs)
      && (named.Some? && s.pc.out.error.None? && IsClean(es) ==>
            (named.value in fs <==> keep <= 0 || named.value in Kept(All(fs0, d, named), keep)))
  {
    hide Sibling, MadeBackup, MadeTemp, Step, Shape, Resolve, Placed, Less, Run, Replay, Seen, Retention.Kept, IsClean,
      Alone, Clear, Spared, CopyOf, Gifted;
    var d := c.targets[j];
    NamedIsPrep(c, fs0, es, s, fs, j);
    if s.pc.out.error.None? { AloneIsClear(c, j); }
    Claims(c, fs0, es, s, fs, j);
    SeenReached(c, fs0, es, s, fs);
    var own := s.preps[j].backup;
    if own.Some? { BackupsAreFaithful(c, fs0, es, s, fs, j); }
    if s.pc.out.error.None? {
      RetentionWindow(c, fs0, es, s, fs, j);
      if own.Some? && c.Keep() > 0 && NewestBackup(fs0, d, own.value) {
        NewestIsKept(All(fs0, d, own), c.Keep(), own.value);
        assert own.value in Backups(fs, d);
      }
    }
  }
}
