/** The backups a deployment takes: their contents, mode and owner, and what becomes of them when a
    later one cannot be taken. */
module ApplyBackups {
  import opened Text
  import opened Paths
  import opened Data
  import opened Os
  import opened Ownership
  import opened FileOps
  import opened ApplyProtocol
  import opened ApplySafety
  import opened ApplyFootprint
  import opened ApplyOutcomes
  import opened ApplyCauses

  // ----- which calls write to a backup -----

  /** The call may create the file or change it. */
  predicate Alters(e: Event, x: Path) {
    Touches(e, x) && !e.ReadFile? && !e.Stat? && !e.Remove? && !e.ListBackups?
  }

  lemma AltersFiles(c: Ctx, s: St, e: Event, s': St, j: nat, x: Path)
    requires c.Valid() && Shape(c, s) && Step(c, s, e) == Some(s') && j < c.N() && Clear(c, j)
    requires MadeBackup(c.targets[j], x)
    requires s.pc.StagingFile? || (s.pc.BackingUp? && s.pc.i != j)
    ensures !Alters(e, x)
  {
    hide Sibling, MadeBackup, MadeTemp, Clear, PrepNames, Targets, CopyStep, StageStep, Touches, StepRestoring;
    TargetsIff(c.env, c.plan.files);
    var i := s.pc.i;
    MadeForOne(c.targets[i], c.targets[j], x);
    MadeForOne(c.targets[j], c.targets[i], x);
    if s.pc.BackingUp? { CopyStepNames(c.targets[i], s.pc.copy, e); }
    else { StageStepNames(c.env, c.targets[i], c.plan.files[i].bytes, s.preps[i].owner, s.pc.stage, e); }
  }

  /** The backup of a clear destination is no destination. */
  lemma BackupIsNoTarget(c: Ctx, i: nat, j: nat, x: Path)
    requires c.Valid() && i < c.N() && j < c.N() && Clear(c, j) && c.plan.retention != NO_BACKUPS
    requires MadeBackup(c.targets[j], x)
    ensures x != c.targets[i]
  {
    hide Sibling, MadeBackup, MadeTemp, Targets;
    KindsAreDisjoint(c.targets[j], c.targets[j]);
    assert Handles(c, c.targets[j], x);
  }

  lemma AltersRenames(c: Ctx, s: St, e: Event, s': St, j: nat, x: Path)
    requires c.Valid() && Shape(c, s) && j < c.N() && Clear(c, j) && c.plan.retention != NO_BACKUPS
    requires MadeBackup(c.targets[j], x)
    requires (s.pc.Renaming? && StepRenaming(c, s, e) == Some(s'))
        || (s.pc.Restoring? && StepRestoring(c, s, e) == Some(s'))
    ensures !Alters(e, x)
  {
    hide Sibling, MadeBackup, MadeTemp, Clear, Targets, StageStep, BackupMap;
    if s.pc.Renaming? || s.pc.i < s.pc.upto {
      var i := s.pc.i;
      BackupIsNoTarget(c, i, j, x);
      assert PrepNames(c.targets[i], s.preps[i]);
      MadeForOne(c.targets[j], c.targets[i], x);
      if s.pc.Restoring? && s.pc.undo.Rewriting? {
        StageStepNames(c.env, c.targets[i], s.pc.undo.data, s.preps[i].owner, s.pc.undo.stage, e);
      }
    }
  }

  /** A call that creates and changes no file. */
  predicate Harmless(e: Event) {
    || e.Lock? || e.Unlock? || e.Context? || e.ReadFile? || e.Stat? || e.Remove? || e.ListBackups? || e.PreCommit?
    || e.PostCommit? || e.Internal?
  }

  lemma HarmlessEarly(c: Ctx, s: St, e: Event, s': St)
    requires c.Valid() && Step(c, s, e) == Some(s')
    requires Preparing(s.pc) || s.pc.BackupHead? || s.pc.DroppingBackups? || s.pc.DroppingTemps?
    ensures Harmless(e)
  {
    hide Resolve, SameDigest, Sort, Targets, BackupMap, CopyStep, StageStep, StepRestoring;
  }

  lemma HarmlessLate(c: Ctx, s: St, e: Event, s': St)
    requires c.Valid() && Step(c, s, e) == Some(s')
    requires s.pc.Validating? || s.pc.Reloading? || s.pc.ReloadingOld? || s.pc.Listing? || s.pc.Pruning?
        || s.pc.Unlocking?
    ensures Harmless(e)
  {
    hide Sort, Targets, BackupMap, TempMap, CopyStep, StageStep, StepRestoring, Doomed;
  }

  lemma AltersNothing(c: Ctx, s: St, e: Event, s': St, x: Path)
    requires c.Valid() && Step(c, s, e) == Some(s')
    requires !s.pc.StagingFile? && !s.pc.BackingUp? && !s.pc.Renaming? && !s.pc.Restoring?
    ensures !Alters(e, x)
  {
    hide Step, Targets;
    StepsSplit(c, s, e, s');
    if Preparing(s.pc) || s.pc.BackupHead? || s.pc.DroppingBackups? || s.pc.DroppingTemps? {
      HarmlessEarly(c, s, e, s');
    } else { HarmlessLate(c, s, e, s'); }
  }

  /** Only its own copying writes to a backup of a clear destination. */
  lemma OnlyCopyingAlters(c: Ctx, s: St, e: Event, s': St, j: nat, x: Path)
    requires c.Valid() && Shape(c, s) && Step(c, s, e) == Some(s') && j < c.N() && Clear(c, j)
    requires c.plan.retention != NO_BACKUPS && MadeBackup(c.targets[j], x) && !(s.pc.BackingUp? && s.pc.i == j)
    ensures !Alters(e, x)
  {
    hide Sibling, MadeBackup, MadeTemp, Clear, Shape, Alters, Targets, StepLocking, StepChecking, StepComparing,
      StepStatting, StepBackupHead, CopyStep, StageStep, StepDroppingBackups, StepDroppingTemps, StepValidating,
      StepRenaming, StepReloading, StepReloadingOld, StepRestoring, StepUnlocking, StepListing, StepPruning;
    if s.pc.StagingFile? || s.pc.BackingUp? { AltersFiles(c, s, e, s', j, x); }
    else if s.pc.Renaming? || s.pc.Restoring? { AltersRenames(c, s, e, s', j, x); }
    else { AltersNothing(c, s, e, s', x); }
  }

  lemma Unaltered(env: Env, e: Event, fs: Fs, x: Path)
    requires Enabled(e, fs) && !Alters(e, x)
    ensures x in Effect(env, e, fs) ==> x in fs && Effect(env, e, fs)[x] == fs[x]
    ensures !e.Remove? ==> Same(fs, Effect(env, e, fs), x)
    ensures !(e.Chown? && e.path == x)
  {
  }

  // ----- mode and owner -----

  /** The chown of `b` to the owner of the original was granted. */
  ghost predicate Gifted(es: seq<Event>, b: Path) {
    exists e | e in es :: e.Chown? && e.path == b && e.ok
  }

  ghost predicate Chowned(es: seq<Event>, b: Path) {
    exists e | e in es :: e.Chown? && e.path == b
  }

  lemma GiftedSnoc(es: seq<Event>, e: Event, b: Path)
    ensures Gifted(es + [e], b) <==> Gifted(es, b) || (e.Chown? && e.path == b && e.ok)
    ensures Chowned(es + [e], b) <==> Chowned(es, b) || (e.Chown? && e.path == b)
    ensures Gifted(es, b) ==> Chowned(es, b)
  {
    assert forall x :: x in es + [e] <==> x in es || x == e;
  }

  /** A backup that was not there before is a copy of the original. */
  ghost predicate Faithful(c: Ctx, fs0: Fs, es: seq<Event>, fs: Fs, d: Path, b: Path) {
    b !in fs0 && b in fs ==> d in fs0 && fs[b] == CopyOf(c.env, fs0[d], Gifted(es, b))
  }

  predicate Ahead(pc: Pc, j: nat) {
    || Preparing(pc) || (pc.BackupHead? && pc.i <= j)
    || (pc.BackingUp? && (pc.i < j || (pc.i == j && (pc.copy.Reading? || pc.copy.Examining? || pc.copy.OpeningCopy?))))
  }

  /** No backup of destination `j` has been touched yet. */
  ghost predicate Pristine(fs0: Fs, es: seq<Event>, fs: Fs, d: Path) {
    forall x | MadeBackup(d, x) :: Same(fs0, fs, x) && !Chowned(es, x)
  }

  ghost predicate CopyGoing(c: Ctx, fs0: Fs, es: seq<Event>, fs: Fs, d: Path, copy: Copy) {
    match copy
    case Reading => true
    case Examining(src) => d in fs0 && src == fs0[d].bytes
    case OpeningCopy(src, meta) => d in fs0 && Node(src, meta) == fs0[d]
    case _ => d in fs0 && (copy.backup !in fs0 ==> CopyExact(c.env, fs0[d], fs, copy) && !Chowned(es, copy.backup))
  }

  /** What holds of the backup of a clear destination at every point. */
  ghost predicate CopyInv(c: Ctx, fs0: Fs, es: seq<Event>, fs: Fs, s: St, j: nat)
    requires c.Valid() && j < c.N()
  {
    var d := c.targets[j];
    && (j < |s.preps| && s.preps[j].backup.Some? ==> Faithful(c, fs0, es, fs, d, s.preps[j].backup.value))
    && (Ahead(s.pc, j) ==> Pristine(fs0, es, fs, d))
    && (s.pc.BackingUp? && s.pc.i == j ==> CopyGoing(c, fs0, es, fs, d, s.pc.copy))
  }

  // ----- every step keeps it -----

  /** The copying of destination `j` itself. */
  lemma CopyOwn(c: Ctx, fs0: Fs, es: seq<Event>, fs: Fs, s: St, e: Event, s': St, j: nat)
    requires c.Valid() && j < c.N() && Shape(c, s) && FileInv(c, fs0, fs, s, j) && Enabled(e, fs) && BackupsKnown(c, s)
    requires s.pc.BackingUp? && s.pc.i == j && Step(c, s, e) == Some(s') && CopyInv(c, fs0, es, fs, s, j)
    ensures CopyInv(c, fs0, es + [e], Effect(c.env, e, fs), s', j)
  {
    hide Sibling, MadeBackup, MadeTemp, Targets, CopyStep, StageStep, StepRestoring, Effect, Enabled, CopyExact,
      Pristine, CopyGoing, Faithful, PrepNames, PrepHolds, SavedHolds, CopyOk;
    var d, copy, fs' := c.targets[j], s.pc.copy, Effect(c.env, e, fs);
    var r := CopyStep(d, copy, e);
    assert d in fs0 && Same(fs0, fs, d);
    if r.Copying? {
      CopyOrder(d, copy, e);
      if Ahead(s'.pc, j) { StaysPristine(c, fs0, es, fs, d, copy, e); }
      CopyGoesOn(c, fs0, es, fs, d, copy, e, Ahead(s.pc, j));
    } else if r.Copied? {
      CopyEnds(c, fs0, es, fs, d, copy, e);
    }
  }

  lemma CopyOrder(d: Path, copy: Copy, e: Event)
    requires CopyStep(d, copy, e).Copying?
    ensures var next := CopyStep(d, copy, e).copy;
      !next.Reading? && (next.Examining? || next.OpeningCopy? ==> copy.Reading? || copy.Examining?)
  {
  }

  lemma StaysPristine(c: Ctx, fs0: Fs, es: seq<Event>, fs: Fs, d: Path, copy: Copy, e: Event)
    requires Enabled(e, fs) && CopyStep(d, copy, e).Copying? && Pristine(fs0, es, fs, d)
    requires copy.Reading? || copy.Examining?
    ensures Pristine(fs0, es + [e], Effect(c.env, e, fs), d)
  {
    hide MadeBackup;
    forall x | MadeBackup(d, x) ensures !Chowned(es + [e], x) { GiftedSnoc(es, e, x); }
  }

  lemma CopyGoesOn(c: Ctx, fs0: Fs, es: seq<Event>, fs: Fs, d: Path, copy: Copy, e: Event, ahead: bool)
    requires Enabled(e, fs) && d in fs0 && Same(fs0, fs, d) && CopyGoing(c, fs0, es, fs, d, copy)
    requires CopyStep(d, copy, e).Copying?
    requires copy.Reading? || copy.Examining? || copy.OpeningCopy? ==> ahead
    requires ahead ==> Pristine(fs0, es, fs, d)
    ensures CopyGoing(c, fs0, es + [e], Effect(c.env, e, fs), d, CopyStep(d, copy, e).copy)
  {
    hide MadeBackup, BackupPath, Chowned;
    if e.OpenBackup? { DerivedPathsAreMade(d, e.at); }
    var copy' := CopyStep(d, copy, e).copy;
    if !copy'.Reading? && !copy'.Examining? && !copy'.OpeningCopy? {
      GiftedSnoc(es, e, copy'.backup);
      if copy'.backup !in fs0 { CopyStepExact(c.env, d, fs, copy, e); }
    }
  }

  lemma CopyEnds(c: Ctx, fs0: Fs, es: seq<Event>, fs: Fs, d: Path, copy: Copy, e: Event)
    requires Enabled(e, fs) && d in fs0 && Same(fs0, fs, d) && CopyGoing(c, fs0, es, fs, d, copy)
    requires CopyStep(d, copy, e).Copied?
    ensures Faithful(c, fs0, es + [e], Effect(c.env, e, fs), d, CopyStep(d, copy, e).backup)
  {
    hide MadeBackup, BackupPath, Chowned, Gifted;
    var b := CopyStep(d, copy, e).backup;
    GiftedSnoc(es, e, b);
    if b !in fs0 { CopyStepExact(c.env, d, fs, copy, e); }
  }

  lemma BackupsStayEarly(c: Ctx, s: St, e: Event, s': St, j: nat)
    requires c.Valid() && Step(c, s, e) == Some(s') && j < c.N() && j < |s'.preps| && s'.preps[j].backup.Some?
    requires Preparing(s.pc) || s.pc.BackupHead? || s.pc.BackingUp? || s.pc.DroppingBackups? || s.pc.StagingFile?
    requires !(s.pc.BackingUp? && s.pc.i == j)
    ensures j < |s.preps| && s.preps[j].backup == s'.preps[j].backup
  {
    hide Resolve, SameDigest, Sort, Targets, CopyStep, StageStep, StepRestoring;
  }

  lemma BackupsStayLate(c: Ctx, s: St, e: Event, s': St)
    requires c.Valid() && Step(c, s, e) == Some(s')
    requires !Preparing(s.pc) && !s.pc.BackupHead? && !s.pc.BackingUp? && !s.pc.DroppingBackups? && !s.pc.StagingFile?
    ensures s'.preps == s.preps && !s'.pc.BackingUp? && !s'.pc.BackupHead? && !Preparing(s'.pc)
  {
    hide Step, Targets, StepRestoring;
    StepsSplit(c, s, e, s');
    if s.pc.Restoring? {
      AsksRestoring(c, s, e, s');
      if s.pc.i < s.pc.upto { RestoringGoesOn(c, s, e, s'); } else { RestoredKeeps(c, s, e, s'); }
    } else {
      AsksLate(c, s, e, s');
      PrepsStay(c, s, e, s');
    }
  }

  lemma RestoredKeeps(c: Ctx, s: St, e: Event, s': St)
    requires c.Valid() && s.pc.Restoring? && StepRestoring(c, s, e) == Some(s') && s.pc.i >= s.pc.upto
    ensures s'.preps == s.preps
  {
    hide Targets, BackupMap, StageStep;
  }

  lemma PrepsStay(c: Ctx, s: St, e: Event, s': St)
    requires c.Valid() && Step(c, s, e) == Some(s') && !s.pc.Restoring?
    requires !Preparing(s.pc) && !s.pc.BackupHead? && !s.pc.BackingUp? && !s.pc.DroppingBackups? && !s.pc.StagingFile?
    ensures s'.preps == s.preps
  {
    hide Sort, Targets, BackupMap, TempMap, CopyStep, StageStep, StepRestoring, Doomed;
  }

  /** A step that is not the copying of `j` keeps `j` ahead only if it was, and starts its copying afresh. */
  lemma StaysAhead(c: Ctx, s: St, e: Event, s': St, j: nat)
    requires c.Valid() && Step(c, s, e) == Some(s') && j < c.N() && !(s.pc.BackingUp? && s.pc.i == j)
    requires Preparing(s.pc) || s.pc.BackupHead? || s.pc.BackingUp? || s.pc.DroppingBackups? || s.pc.StagingFile?
    ensures Ahead(s'.pc, j) ==> Ahead(s.pc, j)
    ensures s'.pc.BackingUp? && s'.pc.i == j ==> s'.pc.copy.Reading?
  {
    hide Resolve, SameDigest, Sort, Targets, CopyStep, StageStep, StepRestoring;
  }

  lemma FaithfulStays(c: Ctx, fs0: Fs, es: seq<Event>, fs: Fs, d: Path, b: Path, e: Event)
    requires Enabled(e, fs) && !Alters(e, b) && Faithful(c, fs0, es, fs, d, b)
    ensures Faithful(c, fs0, es + [e], Effect(c.env, e, fs), d, b)
  {
    hide Alters, Effect, Enabled, Gifted;
    Unaltered(c.env, e, fs, b);
    GiftedSnoc(es, e, b);
  }

  lemma PristineStays(c: Ctx, fs0: Fs, es: seq<Event>, fs: Fs, s: St, e: Event, s': St, j: nat)
    requires c.Valid() && Shape(c, s) && Step(c, s, e) == Some(s') && j < c.N() && Clear(c, j) && Enabled(e, fs)
    requires c.plan.retention != NO_BACKUPS && !(s.pc.BackingUp? && s.pc.i == j) && Ahead(s.pc, j)
    requires Pristine(fs0, es, fs, c.targets[j])
    ensures Pristine(fs0, es + [e], Effect(c.env, e, fs), c.targets[j])
  {
    hide MadeBackup, Clear, Shape, Step, Alters, Effect, Enabled, Targets, Chowned;
    GatheringRemovesNothing(c, s, e, s');
    var d, fs' := c.targets[j], Effect(c.env, e, fs);
    forall x | MadeBackup(d, x) ensures Same(fs0, fs', x) && !Chowned(es + [e], x) {
      OnlyCopyingAlters(c, s, e, s', j, x);
      Unaltered(c.env, e, fs, x);
      GiftedSnoc(es, e, x);
    }
  }

  lemma CopyOthers(c: Ctx, fs0: Fs, es: seq<Event>, fs: Fs, s: St, e: Event, s': St, j: nat)
    requires c.Valid() && j < c.N() && Clear(c, j) && Shape(c, s) && Enabled(e, fs) && c.plan.retention != NO_BACKUPS
    requires Step(c, s, e) == Some(s') && CopyInv(c, fs0, es, fs, s, j) && !(s.pc.BackingUp? && s.pc.i == j)
    ensures CopyInv(c, fs0, es + [e], Effect(c.env, e, fs), s', j)
  {
    hide Sibling, MadeBackup, MadeTemp, Clear, Step, Alters, Effect, Enabled, Targets, Pristine, Faithful, Ahead;
    var early := Preparing(s.pc) || s.pc.BackupHead? || s.pc.BackingUp? || s.pc.DroppingBackups? || s.pc.StagingFile?;
    if early { StaysAhead(c, s, e, s', j); }
    else { BackupsStayLate(c, s, e, s'); NotAhead(s'.pc, j); }
    if j < |s'.preps| && s'.preps[j].backup.Some? {
      if early { BackupsStayEarly(c, s, e, s', j); }
      var b := s.preps[j].backup.value;
      assert PrepNames(c.targets[j], s.preps[j]);
      OnlyCopyingAlters(c, s, e, s', j, b);
      FaithfulStays(c, fs0, es, fs, c.targets[j], b, e);
    }
    if Ahead(s'.pc, j) { PristineStays(c, fs0, es, fs, s, e, s', j); }
  }

  lemma NotAhead(pc: Pc, j: nat)
    requires !pc.BackingUp? && !pc.BackupHead? && !Preparing(pc)
    ensures !Ahead(pc, j)
  {
  }

  lemma {:induction false} CopyReached(c: Ctx, fs0: Fs, es: seq<Event>, s: St, fs: Fs, j: nat)
    requires Reaches(c, fs0, es, s, fs) && j < c.N() && Clear(c, j) && c.plan.retention != NO_BACKUPS
    ensures CopyInv(c, fs0, es, fs, s, j)
  {
    hide Step, Effect, Enabled, CopyInv, Clear, BackupsKnown, FileInv;
    if es == [] {
      NothingCopied(c, fs0, j);
    } else {
      var n := |es| - 1;
      var s1, fs1 := Run(c, es[..n]).value, Replay(c.env, fs0, es[..n]).value;
      CopyReached(c, fs0, es[..n], s1, fs1, j);
      InvReached(c, fs0, es[..n], s1, fs1);
      BackupsReached(c, fs0, es[..n], s1, fs1);
      assert es == es[..n] + [es[n]];
      if s1.pc.BackingUp? && s1.pc.i == j {
        assert FileInv(c, fs0, fs1, s1, j);
        CopyOwn(c, fs0, es[..n], fs1, s1, es[n], s, j);
      } else {
        CopyOthers(c, fs0, es[..n], fs1, s1, es[n], s, j);
      }
    }
  }

  lemma NothingCopied(c: Ctx, fs0: Fs, j: nat)
    requires c.Valid() && j < c.N()
    ensures CopyInv(c, fs0, [], fs0, Start(), j)
  {
  }

  // ----- the theorems -----

  /** A backup of a clear destination that was not there before has, at every point of every run, the
      original bytes, the original permission bits under the umask, and the original owner if the
      chown was granted, the process as owner otherwise. */
  lemma BackupsAreCopies(c: Ctx, fs0: Fs, es: seq<Event>, s: St, fs: Fs, j: nat)
    requires Reaches(c, fs0, es, s, fs) && j < c.N() && Clear(c, j) && j < |s.preps| && s.preps[j].backup.Some?
    ensures var d, b := c.targets[j], s.preps[j].backup.value;
      b !in fs0 && b in fs ==>
        && d in fs0 && fs[b].bytes == fs0[d].bytes && fs[b].meta.mode == c.env.masked(fs0[d].meta.mode % 0x200)
        && (if Gifted(es, b) then fs[b].meta.uid == fs0[d].meta.uid && fs[b].meta.gid == fs0[d].meta.gid
            else fs[b].meta.uid == c.env.uid && fs[b].meta.gid == c.env.gid)
  {
    hide Run, Replay, Clear, Gifted;
    BackupsAreFaithful(c, fs0, es, s, fs, j);
  }

  lemma BackupsAreFaithful(c: Ctx, fs0: Fs, es: seq<Event>, s: St, fs: Fs, j: nat)
    requires Reaches(c, fs0, es, s, fs) && j < c.N() && Clear(c, j) && j < |s.preps| && s.preps[j].backup.Some?
    ensures Faithful(c, fs0, es, fs, c.targets[j], s.preps[j].backup.value)
  {
    hide Run, Replay, Clear, Pristine, CopyGoing, Ahead, Faithful;
    BackupsOnly(c, fs0, es, s, fs, j);
    CopyReached(c, fs0, es, s, fs, j);
  }

  lemma BackupsOnly(c: Ctx, fs0: Fs, es: seq<Event>, s: St, fs: Fs, j: nat)
    requires Reaches(c, fs0, es, s, fs) && j < c.N() && j < |s.preps| && s.preps[j].backup.Some?
    ensures c.plan.retention != NO_BACKUPS
  {
    hide Run, Replay, PrepNames, ShapeFull;
    ShapeReached(c, fs0, es, s, fs);
  }

  // ----- a set of backups that cannot be completed -----

  ghost predicate Gone(es: seq<Event>, fs: Fs, b: Path) {
    b !in fs || Remove(b, Refused) in es
  }

  /** Until the first temp file is made, a chown ends the copy of a file. */
  ghost predicate DropInv(es: seq<Event>, fs: Fs, s: St) {
    match s.pc
    case BackupHead(_) => forall b | Chowned(es, b) :: b in Taken(s.preps)
    case BackingUp(_, _) => forall b | Chowned(es, b) :: b in Taken(s.preps)
    case DroppingBackups(taken) => forall b | Chowned(es, b) :: b in taken || Gone(es, fs, b)
    case Unlocking(_, out) => out.error == Some(BackupFailed) ==> forall b | Chowned(es, b) :: Gone(es, fs, b)
    case Done(out) => out.error == Some(BackupFailed) ==> forall b | Chowned(es, b) :: Gone(es, fs, b)
    case _ => Preparing(s.pc) ==> forall b :: !Chowned(es, b)
  }

  lemma RecentChowns(es: seq<Event>, e: Event)
    ensures forall b :: Chowned(es + [e], b) <==> Chowned(es, b) || (e.Chown? && e.path == b)
    ensures forall x :: x in es + [e] <==> x in es || x == e
  {
    forall b ensures Chowned(es + [e], b) <==> Chowned(es, b) || (e.Chown? && e.path == b) { GiftedSnoc(es, e, b); }
  }

  lemma DropCopying(c: Ctx, es: seq<Event>, fs': Fs, s: St, e: Event, s': St)
    requires c.Valid() && s.pc.BackingUp? && Step(c, s, e) == Some(s') && DropInv(es, fs', s) && BackupsKnown(c, s)
    ensures DropInv(es + [e], fs', s')
  {
    hide Targets, Chowned, BackupPath, StageStep, StepRestoring, Gone;
    RecentChowns(es, e);
    TakenGrows(s.preps, s'.preps, s.pc.i);
  }

  lemma TakenGrows(ps: seq<Prep>, ps': seq<Prep>, i: nat)
    requires i < |ps| == |ps'| && (forall k | 0 <= k < |ps| && k != i :: ps'[k].backup == ps[k].backup)
    requires ps[i].backup.None?
    ensures forall b :: b in Taken(ps') <==> b in Taken(ps) || ps'[i].backup == Some(b)
  {
    forall b | b in Taken(ps) ensures b in Taken(ps') {
      var k :| 0 <= k < |ps| && ps[k].backup == Some(b);
      assert ps'[k].backup == Some(b);
    }
  }

  lemma DropEarly(c: Ctx, es: seq<Event>, fs': Fs, s: St, e: Event, s': St)
    requires c.Valid() && (Preparing(s.pc) || s.pc.BackupHead?) && Step(c, s, e) == Some(s') && DropInv(es, fs', s)
    ensures DropInv(es + [e], fs', s')
  {
    hide Targets, Chowned, Sort, Resolve, SameDigest, CopyStep, StageStep, StepRestoring, Gone, Taken;
    RecentChowns(es, e);
  }

  lemma DropDropping(c: Ctx, es: seq<Event>, fs: Fs, s: St, e: Event, s': St)
    requires c.Valid() && s.pc.DroppingBackups? && StepDroppingBackups(c, s, e) == Some(s') && Enabled(e, fs)
    requires DropInv(es, fs, s)
    ensures DropInv(es + [e], Effect(c.env, e, fs), s')
  {
    hide Targets, Chowned;
    RecentChowns(es, e);
  }

  lemma DropUnlocking(c: Ctx, es: seq<Event>, fs: Fs, s: St, e: Event, s': St)
    requires c.Valid() && s.pc.Unlocking? && StepUnlocking(c, s, e) == Some(s') && Enabled(e, fs) && DropInv(es, fs, s)
    ensures DropInv(es + [e], Effect(c.env, e, fs), s')
  {
    hide Targets, Chowned, Sort;
    RecentChowns(es, e);
  }

  lemma {:induction false} DropReached(c: Ctx, fs0: Fs, es: seq<Event>, s: St, fs: Fs)
    requires Reaches(c, fs0, es, s, fs)
    ensures DropInv(es, fs, s)
  {
    hide Step, Effect, Enabled, DropInv, BackupsKnown, StepDroppingBackups, StepUnlocking, Shape;
    if es == [] {
      NothingDropped(fs0);
    } else {
      var n := |es| - 1;
      var s1, fs1 := Run(c, es[..n]).value, Replay(c.env, fs0, es[..n]).value;
      var e := es[n];
      DropReached(c, fs0, es[..n], s1, fs1);
      BackupsReached(c, fs0, es[..n], s1, fs1);
      assert es == es[..n] + [e];
      DropSteps(c, s1, e, s);
      if s1.pc.DroppingBackups? { DropDropping(c, es[..n], fs1, s1, e, s); }
      else if s1.pc.Unlocking? { DropUnlocking(c, es[..n], fs1, s1, e, s); }
      else if s1.pc.BackingUp? { DropFrame(es[..n], fs1, fs, s1); DropCopying(c, es[..n], fs, s1, e, s); }
      else if Preparing(s1.pc) || s1.pc.BackupHead? {
        DropFrame(es[..n], fs1, fs, s1);
        DropEarly(c, es[..n], fs, s1, e, s);
      } else { ShapeReached(c, fs0, es[..n], s1, fs1); LateIsNoBackup(c, es, s1, e, s, fs); }
    }
  }

  lemma NothingDropped(fs0: Fs)
    ensures DropInv([], fs0, Start())
  {
  }

  lemma DropFrame(es: seq<Event>, fs: Fs, fs': Fs, s: St)
    requires Preparing(s.pc) || s.pc.BackupHead? || s.pc.BackingUp?
    ensures DropInv(es, fs, s) <==> DropInv(es, fs', s)
  {
  }

  lemma DropSteps(c: Ctx, s: St, e: Event, s': St)
    requires c.Valid() && Step(c, s, e) == Some(s')
    ensures s.pc.DroppingBackups? ==> StepDroppingBackups(c, s, e) == Some(s')
    ensures s.pc.Unlocking? ==> StepUnlocking(c, s, e) == Some(s')
    ensures !s.pc.Done?
  {
    hide StepDroppingBackups, StepUnlocking, StepRestoring, Targets, StageStep, CopyStep;
  }

  /** Past the backups, no error is blamed on them. */
  lemma LateIsNoBackup(c: Ctx, es': seq<Event>, s: St, e: Event, s': St, fs': Fs)
    requires c.Valid() && Shape(c, s) && Step(c, s, e) == Some(s')
    requires !Preparing(s.pc) && !s.pc.BackupHead? && !s.pc.BackingUp? && !s.pc.DroppingBackups? && !s.pc.Unlocking?
    ensures DropInv(es', fs', s')
  {
    hide Chowned, Step, Targets, Gone, Taken, StepRestoring, Shape;
    StepsSplit(c, s, e, s');
    if s.pc.StagingFile? { LateStaging(c, s, e, s'); }
    else if s.pc.Restoring? { LateRestoring(c, s, e, s'); AsksRestoring(c, s, e, s'); }
    else { LateOthers(c, s, e, s'); AsksLate(c, s, e, s'); }
  }

  lemma LateStaging(c: Ctx, s: St, e: Event, s': St)
    requires c.Valid() && Step(c, s, e) == Some(s') && s.pc.StagingFile?
    ensures s'.pc.StagingFile? || s'.pc.DroppingTemps? || s'.pc.Validating? || s'.pc.Renaming?
  {
    hide Targets, StageStep, CopyStep, StepRestoring;
  }

  lemma LateRestoring(c: Ctx, s: St, e: Event, s': St)
    requires c.Valid() && s.pc.Restoring? && StepRestoring(c, s, e) == Some(s')
    ensures !s'.pc.DroppingBackups? && !s'.pc.Done? && (s'.pc.Unlocking? ==> s'.pc.out.error != Some(BackupFailed))
  {
    hide Targets, StageStep, BackupMap;
  }

  lemma LateOthers(c: Ctx, s: St, e: Event, s': St)
    requires c.Valid() && Shape(c, s) && Step(c, s, e) == Some(s')
    requires s.pc.DroppingTemps? || s.pc.Validating? || s.pc.Renaming? || s.pc.Reloading? || s.pc.ReloadingOld?
          || s.pc.Listing? || s.pc.Pruning?
    ensures !s'.pc.DroppingBackups? && !s'.pc.Done? && (s'.pc.Unlocking? ==> s'.pc.out.error != Some(BackupFailed))
  {
    hide Sibling, MadeBackup, MadeTemp, PrepNames, Targets, TempMap, BackupMap, Sort, CopyStep, StageStep,
      StepRestoring, Doomed;
  }

  /** When a backup cannot be taken, those that had been completed are removed again: each is gone, or
      its removal was refused. */
  lemma {:induction false} PartialBackupsDropped(c: Ctx, fs0: Fs, es: seq<Event>, s: St, fs: Fs, b: Path)
    requires Reaches(c, fs0, es, s, fs) && s.pc.Done? && s.pc.out.error == Some(BackupFailed) && Chowned(es, b)
    ensures b !in fs || Remove(b, Refused) in es
  {
    hide Run, Replay, Chowned;
    DropReached(c, fs0, es, s, fs);
  }
}
