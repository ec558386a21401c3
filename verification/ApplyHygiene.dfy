/** No run leaves one of its own temp files behind, unless the system refused to remove it. */
module ApplyHygiene {
  import opened Text
  import opened Paths
  import opened Data
  import opened Os
  import opened Ownership
  import opened FileOps
  import opened ApplyProtocol
  import opened ApplySafety

  function TempsFrom(preps: seq<Prep>, i: nat): set<Path> {
    set j | i <= j < |preps| && preps[j].temp.Some? :: preps[j].temp.value
  }

  function UndoTemps(u: Undo): set<Path> {
    match u
    case Rewriting(_, stage) => StageTemps(stage)
    case Swapping(t) => {t}
    case Scrapping(t) => {t}
    case _ => {}
  }

  /** The temp files a state still accounts for. */
  function Tracked(s: St): set<Path> {
    match s.pc
    case StagingFile(_, stage) => TempsFrom(s.preps, 0) + StageTemps(stage)
    case Validating => TempsFrom(s.preps, 0)
    case Renaming(i) => TempsFrom(s.preps, i)
    case DroppingTemps(i, _) => TempsFrom(s.preps, i)
    case Restoring(_, undo, upto, _, _) => TempsFrom(s.preps, upto) + UndoTemps(undo)
    case _ => {}
  }

  ghost predicate Expected(c: Ctx, x: Path) {
    x in c.targets || exists j | 0 <= j < |c.targets| :: IsBackupOf(c.targets[j], x)
  }

  /** One step adds only destinations, backups and tracked temp files, and stops tracking a temp
      file only when it is gone or could not be removed. */
  ghost predicate Tidy(c: Ctx, fs: Fs, s: St, e: Event, fs': Fs, s': St) {
    forall x | x in fs' ::
      && (x in fs || Expected(c, x) || x in Tracked(s'))
      && (x in Tracked(s) ==> x in Tracked(s') || Expected(c, x) || e == Remove(x, Refused))
  }

  lemma StageTidy(env: Env, d: Path, data: Bytes, o: Resolved, fs: Fs, stage: Stage, e: Event)
    requires Enabled(e, fs) && !StageStep(env, d, data, o, stage, e).Wrong?
    ensures var r, fs' := StageStep(env, d, data, o, stage, e), Effect(env, e, fs);
      && (forall x | x in fs' :: x in fs || x in StageLeft(r))
      && (forall x | x in fs' && x in StageTemps(stage) :: x in StageLeft(r) || e == Remove(x, Refused))
  {
  }

  /** What an ended or continued temp-file procedure leaves to track. */
  function StageLeft(r: StageResult): set<Path> {
    match r
    case Staging(s) => StageTemps(s)
    case Ready(t) => {t}
    case Unowned(t) => {t}
    case _ => {}
  }

  lemma TidyStaging(c: Ctx, fs: Fs, s: St, e: Event, s': St)
    requires c.Valid() && Shape(c, s) && Enabled(e, fs) && s.pc.StagingFile? && Step(c, s, e) == Some(s')
    ensures Tidy(c, fs, s, e, Effect(c.env, e, fs), s')
  {
    hide Sibling, MadeBackup, MadeTemp, StageStep, Effect, Enabled, Expected, Shape, Step, TempsFrom, StageTemps;
    var i := s.pc.i;
    var r := StageTracks(c, s, e, s');
    StageTidy(c.env, c.targets[i], c.plan.files[i].bytes, s.preps[i].owner, fs, s.pc.stage, e);
  }

  lemma StageTracks(c: Ctx, s: St, e: Event, s': St) returns (r: StageResult)
    requires c.Valid() && Shape(c, s) && s.pc.StagingFile? && Step(c, s, e) == Some(s')
    ensures s.pc.i < |s.preps| && s.pc.i < c.N()
    ensures r == StageStep(c.env, c.targets[s.pc.i], c.plan.files[s.pc.i].bytes, s.preps[s.pc.i].owner, s.pc.stage, e)
    ensures !r.Wrong?
    ensures TempsFrom(s.preps, 0) + StageLeft(r) <= Tracked(s')
  {
    hide Sibling, MadeBackup, MadeTemp, StageStep, PrepNames, StageNames;
    var i := s.pc.i;
    r := StageStep(c.env, c.targets[i], c.plan.files[i].bytes, s.preps[i].owner, s.pc.stage, e);
    if r.Ready? || r.Unowned? {
      assert s'.preps[i].temp.value == r.temp;
      ReplacedTemps(s.preps, i, r.temp);
    }
  }

  lemma ReplacedTemps(preps: seq<Prep>, i: nat, t: Path)
    requires i < |preps| && preps[i].temp.None?
    ensures TempsFrom(preps, 0) <= TempsFrom(preps[i := preps[i].(temp := Some(t))], 0)
  {
    var q := preps[i := preps[i].(temp := Some(t))];
    forall x | x in TempsFrom(preps, 0) ensures x in TempsFrom(q, 0) {
      var j :| 0 <= j < |preps| && preps[j].temp == Some(x);
      assert q[j].temp == Some(x);
    }
  }

  lemma TidyEarly(c: Ctx, fs: Fs, s: St, e: Event, s': St)
    requires c.Valid() && Enabled(e, fs) && Step(c, s, e) == Some(s')
    requires s.pc.Locking? || s.pc.Checking? || s.pc.Comparing? || s.pc.Statting? || s.pc.BackupHead?
    ensures Tidy(c, fs, s, e, Effect(c.env, e, fs), s')
  {
    hide Sibling, MadeBackup, MadeTemp, Resolve, SameDigest, BackupMap, TempMap, Sort, Targets, TempsFrom, Expected;
  }

  lemma TidyHooks(c: Ctx, fs: Fs, s: St, e: Event, s': St)
    requires c.Valid() && Enabled(e, fs) && Step(c, s, e) == Some(s')
    requires s.pc.Validating? || s.pc.Reloading? || s.pc.ReloadingOld?
    ensures Tidy(c, fs, s, e, Effect(c.env, e, fs), s')
  {
    hide Step, Targets, Tracked, Expected;
    HookEvents(c, s, e, s');
  }

  lemma HookEvents(c: Ctx, s: St, e: Event, s': St)
    requires c.Valid() && Step(c, s, e) == Some(s') && (s.pc.Validating? || s.pc.Reloading? || s.pc.ReloadingOld?)
    ensures (e.PreCommit? || e.PostCommit?) && Tracked(s) <= Tracked(s')
  {
    hide Sibling, MadeBackup, MadeTemp, BackupMap, TempMap, Sort, Targets;
  }

  lemma TidyRemoving(c: Ctx, fs: Fs, s: St, e: Event, s': St)
    requires c.Valid() && Enabled(e, fs)
    requires (s.pc.DroppingBackups? && StepDroppingBackups(c, s, e) == Some(s'))
          || (s.pc.Unlocking? && StepUnlocking(c, s, e) == Some(s'))
    ensures Tidy(c, fs, s, e, Effect(c.env, e, fs), s')
  {
    hide Sibling, MadeBackup, MadeTemp, BackupMap, Sort, Targets, TempsFrom, Expected;
  }

  lemma TidyPruning(c: Ctx, fs: Fs, s: St, e: Event, s': St)
    requires c.Valid() && Enabled(e, fs)
    requires (s.pc.Listing? && StepListing(c, s, e) == Some(s')) || (s.pc.Pruning? && StepPruning(c, s, e) == Some(s'))
    ensures Tidy(c, fs, s, e, Effect(c.env, e, fs), s')
  {
    hide Sibling, MadeBackup, MadeTemp, BackupMap, Sort, Targets, Doomed, TempsFrom, Expected;
  }

  lemma TidyDroppingTemps(c: Ctx, fs: Fs, s: St, e: Event, s': St)
    requires c.Valid() && Enabled(e, fs) && s.pc.DroppingTemps? && StepDroppingTemps(c, s, e) == Some(s')
    ensures Tidy(c, fs, s, e, Effect(c.env, e, fs), s')
  {
    hide Sibling, MadeBackup, MadeTemp, BackupMap, Targets, Expected;
    var i := s.pc.i;
    forall x | x in TempsFrom(s.preps, i)
      ensures x in TempsFrom(s.preps, i + 1) || (i < |s.preps| && s.preps[i].temp == Some(x))
    {
      var j :| i <= j < |s.preps| && s.preps[j].temp == Some(x);
      if j > i { assert x in TempsFrom(s.preps, i + 1); }
    }
  }

  lemma TidyBackingUp(c: Ctx, fs: Fs, s: St, e: Event, s': St)
    requires c.Valid() && Shape(c, s) && Enabled(e, fs) && s.pc.BackingUp? && Step(c, s, e) == Some(s')
    ensures Tidy(c, fs, s, e, Effect(c.env, e, fs), s')
  {
    hide Sibling, MadeBackup, MadeTemp, PrepNames, CopyNames, Effect, Enabled, CopyStep, TempsFrom;
    CopyTidy(c.env, c.targets[s.pc.i], fs, s.pc.copy, e);
  }

  lemma CopyTidy(env: Env, d: Path, fs: Fs, copy: Copy, e: Event)
    requires Enabled(e, fs) && !CopyStep(d, copy, e).BadCall?
    ensures forall x | x in Effect(env, e, fs) :: x in fs || IsBackupOf(d, x)
  {
    hide Sibling, MadeBackup, MadeTemp;
    if e.OpenBackup? { DerivedPathsAreMine(d, e.at); }
  }

  lemma TidyRenaming(c: Ctx, fs: Fs, s: St, e: Event, s': St)
    requires c.Valid() && Enabled(e, fs) && s.pc.Renaming? && StepRenaming(c, s, e) == Some(s')
    ensures Tidy(c, fs, s, e, Effect(c.env, e, fs), s')
  {
    hide Sibling, MadeBackup, MadeTemp, BackupMap, Targets;
    var i := s.pc.i;
    forall x | x in TempsFrom(s.preps, i) ensures x in TempsFrom(s.preps, i + 1) || s.preps[i].temp == Some(x) {
      var j :| i <= j < |s.preps| && s.preps[j].temp == Some(x);
      if j > i { assert x in TempsFrom(s.preps, i + 1); }
    }
  }

  lemma TidyUndoing(c: Ctx, fs: Fs, s: St, e: Event, s': St)
    requires c.Valid() && Shape(c, s) && Enabled(e, fs) && s.pc.Restoring? && StepRestoring(c, s, e) == Some(s')
    requires s.pc.i < s.pc.upto && (s.pc.undo.Choosing? || s.pc.undo.Deleting? || s.pc.undo.Fetching?)
    ensures Tidy(c, fs, s, e, Effect(c.env, e, fs), s')
  {
    hide Sibling, MadeBackup, MadeTemp, Targets, StageStep, PrepNames, StageNames, TempsFrom, StageTemps, Expected,
      UndoNames;
    RestoringGoesOn(c, s, e, s');
  }

  lemma TidySwapping(c: Ctx, fs: Fs, s: St, e: Event, s': St)
    requires c.Valid() && Shape(c, s) && Enabled(e, fs) && s.pc.Restoring? && StepRestoring(c, s, e) == Some(s')
    requires s.pc.i < s.pc.upto && (s.pc.undo.Swapping? || s.pc.undo.Scrapping?)
    ensures Tidy(c, fs, s, e, Effect(c.env, e, fs), s')
  {
    hide Sibling, MadeBackup, MadeTemp, Targets, StageStep, PrepNames, StageNames, TempsFrom, StageTemps, Expected,
      UndoNames, Shape, AfterRewrite;
    RestoringGoesOn(c, s, e, s');
    DestinationsAreExpected(c, s.pc.i);
  }

  lemma DestinationsAreExpected(c: Ctx, i: nat)
    requires i < |c.targets|
    ensures Expected(c, c.targets[i])
  {
  }

  lemma TidyRewriting(c: Ctx, fs: Fs, s: St, e: Event, s': St)
    requires c.Valid() && Shape(c, s) && Enabled(e, fs) && s.pc.Restoring? && StepRestoring(c, s, e) == Some(s')
    requires s.pc.i < s.pc.upto && s.pc.undo.Rewriting?
    ensures Tidy(c, fs, s, e, Effect(c.env, e, fs), s')
  {
    hide Sibling, MadeBackup, MadeTemp, Targets, StageStep, PrepNames, StageNames, TempsFrom, StageTemps, Effect,
      Enabled;
    RestoringGoesOn(c, s, e, s');
    var i, u := s.pc.i, s.pc.undo;
    StageTidy(c.env, c.targets[i], u.data, s.preps[i].owner, fs, u.stage, e);
  }

  lemma TidyRestored(c: Ctx, fs: Fs, s: St, e: Event, s': St)
    requires c.Valid() && Shape(c, s) && Enabled(e, fs) && s.pc.Restoring? && StepRestoring(c, s, e) == Some(s')
    requires s.pc.i == s.pc.upto
    ensures Tidy(c, fs, s, e, Effect(c.env, e, fs), s')
  {
    hide Sibling, MadeBackup, MadeTemp, Targets, StageStep, PrepNames, BackupMap, Expected;
    assert TempsFrom(s.preps, s.pc.upto) <= TempsFrom(s.preps, 0);
  }

  lemma TidyStep(c: Ctx, fs: Fs, s: St, e: Event, s': St)
    requires c.Valid() && Shape(c, s) && Enabled(e, fs) && Step(c, s, e) == Some(s')
    ensures Tidy(c, fs, s, e, Effect(c.env, e, fs), s')
  {
    hide Sibling, MadeBackup, MadeTemp, Effect, Enabled, Tidy;
    if s.pc.StagingFile? { TidyStaging(c, fs, s, e, s'); }
    else if s.pc.BackingUp? { TidyBackingUp(c, fs, s, e, s'); }
    else if s.pc.DroppingTemps? { TidyDroppingTemps(c, fs, s, e, s'); }
    else if s.pc.Renaming? { TidyRenaming(c, fs, s, e, s'); }
    else if s.pc.Restoring? {
      if s.pc.i == s.pc.upto { TidyRestored(c, fs, s, e, s'); }
      else if s.pc.undo.Rewriting? { TidyRewriting(c, fs, s, e, s'); }
      else if s.pc.undo.Swapping? || s.pc.undo.Scrapping? { TidySwapping(c, fs, s, e, s'); }
      else { TidyUndoing(c, fs, s, e, s'); }
    } else if s.pc.Listing? || s.pc.Pruning? { TidyPruning(c, fs, s, e, s'); }
    else if s.pc.DroppingBackups? || s.pc.Unlocking? { TidyRemoving(c, fs, s, e, s'); }
    else if s.pc.Validating? || s.pc.Reloading? || s.pc.ReloadingOld? { TidyHooks(c, fs, s, e, s'); }
    else { TidyEarly(c, fs, s, e, s'); }
  }

  ghost predicate Accounted(c: Ctx, fs0: Fs, fs: Fs, s: St, es: seq<Event>) {
    forall x | x in fs :: x in fs0 || Expected(c, x) || x in Tracked(s) || Remove(x, Refused) in es
  }

  lemma {:induction false} AccountedReached(c: Ctx, fs0: Fs, es: seq<Event>, s: St, fs: Fs)
    requires Reaches(c, fs0, es, s, fs)
    ensures Shape(c, s) && Accounted(c, fs0, fs, s, es)
  {
    hide Sibling, MadeBackup, MadeTemp, Step, Shape, Enabled, Effect, Expected, Tracked;
    if es == [] {
      ShapeStart(c);
    } else {
      var n := |es| - 1;
      var s1, fs1 := Run(c, es[..n]).value, Replay(c.env, fs0, es[..n]).value;
      AccountedReached(c, fs0, es[..n], s1, fs1);
      ShapeStep(c, s1, es[n], s, fs1);
      TidyStep(c, fs1, s1, es[n], s);
      assert es == es[..n] + [es[n]];
    }
  }

  /** Temp hygiene: when Apply returns, whatever is new in the tree is a destination, a backup of a
      destination, or a file whose removal the system refused. No hypothesis on the names is needed. */
  lemma TempHygiene(c: Ctx, fs0: Fs, es: seq<Event>, s: St, fs: Fs, x: Path)
    requires Reaches(c, fs0, es, s, fs) && s.pc.Done? && x in fs
    ensures || x in fs0 || x in c.targets || (exists j | 0 <= j < c.N() :: IsBackupOf(c.targets[j], x))
            || Remove(x, Refused) in es
  {
    hide Sibling, MadeBackup, MadeTemp, Shape;
    AccountedReached(c, fs0, es, s, fs);
  }
}
