/** Which calls make Apply fail, and with which error: the error is told by the calls of the run. */
module ApplyCauses {
  import opened Text
  import opened Paths
  import opened Data
  import opened Os
  import opened Ownership
  import opened FileOps
  import opened ApplyProtocol
  import opened ApplySafety
  import opened ApplyAborts
  import opened ApplyFootprint
  import opened ApplySuccess

  // ----- calls that decide -----

  ghost predicate StagingBegan(past: seq<Event>) {
    exists e | e in past :: e.CreateTemp?
  }

  predicate TurnsBack(e: Event) {
    (e.Rename? && !e.ok) || e == PostCommit(false)
  }

  /** A rename or a reload has failed, so that the deployment is being undone. */
  ghost predicate Undoing(past: seq<Event>) {
    exists e | e in past :: TurnsBack(e)
  }

  ghost predicate Removes(past: seq<Event>, x: Path) {
    exists e | e in past :: e.Remove? && e.path == x
  }

  /** The first Stat of a destination leaves its owner unresolved. */
  ghost predicate OwnerFault(c: Ctx, past: seq<Event>, e: Event)
    requires c.Valid()
  {
    e.Stat? && !Seen(past, e.path) && Unresolved(c, e.path, e.meta)
  }

  predicate Unresolved(c: Ctx, d: Path, meta: Option<Meta>)
    requires c.Valid()
  {
    exists i | 0 <= i < c.N() ::
      c.targets[i] == d && Resolve(c.env, c.plan.files[i], c.plan.defaults, meta).None?
  }

  /** A file that was found cannot be read or examined again, or its copy not be opened, filled or closed. */
  ghost predicate CopyFault(past: seq<Event>, e: Event) {
    && !StagingBegan(past)
    && (|| ((e.OpenBackup? || e.Write? || e.Close?) && !e.ok)
        || (((e.ReadFile? && e.got.None?) || (e.Stat? && e.meta.None?)) && Seen(past, e.path)))
  }

  /** A call of writing a temp file that fails. Only root minds a failed chown. */
  predicate Refuses(env: Env, e: Event) {
    || ((e.CreateTemp? || e.Write? || e.Sync? || e.Close? || e.Chmod?) && !e.ok)
    || (e.Chown? && !e.ok && env.root)
  }

  ghost predicate TempFault(env: Env, past: seq<Event>, e: Event) {
    !Undoing(past) && (e.CreateTemp? || StagingBegan(past)) && Refuses(env, e)
  }

  /** Of a destination that was renamed over and has no backup, the first removal restores it. */
  ghost predicate Deletes(c: Ctx, past: seq<Event>, d: Path) {
    && d in c.targets && Renamed(past, d) && !Removes(past, d)
    && (c.plan.retention == -1 || !Seen(past, d))
  }

  /** While the deployment is being undone a backup cannot be read, its contents not be written or
      renamed into place, a new file not be removed, or the second reload fails. */
  ghost predicate RestoreFault(c: Ctx, past: seq<Event>, e: Event) {
    && Undoing(past)
    && (|| (e.ReadFile? && e.got.None?) || Refuses(c.env, e) || TurnsBack(e)
        || (e.Remove? && e.reply.Refused? && Deletes(c, past, e.path)))
  }

  ghost predicate OwnerUnknown(c: Ctx, es: seq<Event>)
    requires c.Valid()
  {
    exists k | 0 <= k < |es| :: OwnerFault(c, es[..k], es[k])
  }

  ghost predicate CopyFailed(es: seq<Event>) {
    exists k | 0 <= k < |es| :: CopyFault(es[..k], es[k])
  }

  ghost predicate StagingFailed(env: Env, es: seq<Event>) {
    exists k | 0 <= k < |es| :: TempFault(env, es[..k], es[k])
  }

  ghost predicate RestoreFailed(c: Ctx, es: seq<Event>) {
    exists k | 0 <= k < |es| :: RestoreFault(c, es[..k], es[k])
  }

  ghost predicate Rejected(es: seq<Event>) {
    exists e | e in es :: e.PreCommit? && !e.ok
  }

  ghost predicate RenameRefused(es: seq<Event>) {
    exists e | e in es :: e.Rename? && !e.ok
  }

  // ----- the same, one call at a time -----

  /** What the calls so far have shown. */
  datatype Marks = Marks(
    canceled: bool, unknown: bool, miscopied: bool, unstaged: bool, rejected: bool,
    unswapped: bool, unloaded: bool, unrestored: bool,
    staging: bool, seen: set<Path>, swapped: set<Path>, removed: set<Path>)

  const NONE := Marks(false, false, false, false, false, false, false, false, false, {}, {}, {})

  function Note(c: Ctx, m: Marks, e: Event): Marks
    requires c.Valid()
  {
    var undoing := m.unswapped || m.unloaded;
    Marks(
      m.canceled || e == Context(false),
      m.unknown || (e.Stat? && e.path !in m.seen && Unresolved(c, e.path, e.meta)),
      m.miscopied || (!m.staging
        && (|| ((e.OpenBackup? || e.Write? || e.Close?) && !e.ok)
            || (((e.ReadFile? && e.got.None?) || (e.Stat? && e.meta.None?)) && e.path in m.seen))),
      m.unstaged || (!undoing && (e.CreateTemp? || m.staging) && Refuses(c.env, e)),
      m.rejected || (e.PreCommit? && !e.ok),
      m.unswapped || (e.Rename? && !e.ok),
      m.unloaded || e == PostCommit(false),
      m.unrestored || (undoing && Spoils(c, m, e)),
      m.staging || e.CreateTemp?,
      if e.Stat? && e.meta.Some? then m.seen + {e.path} else m.seen,
      if e.Rename? && e.ok then m.swapped + {e.to} else m.swapped,
      if e.Remove? then m.removed + {e.path} else m.removed)
  }

  function MarksOf(c: Ctx, es: seq<Event>): Marks
    requires c.Valid()
  {
    if es == [] then NONE else Note(c, MarksOf(c, es[..|es| - 1]), es[|es| - 1])
  }

  ghost predicate Means(c: Ctx, es: seq<Event>, m: Marks)
    requires c.Valid()
  {
    && (m.canceled <==> Context(false) in es)
    && (m.unknown <==> OwnerUnknown(c, es))
    && (m.miscopied <==> CopyFailed(es))
    && (m.unstaged <==> StagingFailed(c.env, es))
    && (m.rejected <==> Rejected(es))
    && (m.unswapped <==> RenameRefused(es))
    && (m.unloaded <==> PostCommit(false) in es)
    && (m.unrestored <==> RestoreFailed(c, es))
    && (m.staging <==> StagingBegan(es))
    && (forall d :: d in m.seen <==> Seen(es, d))
    && (forall d :: d in m.swapped <==> Renamed(es, d))
    && (forall d :: d in m.removed <==> Removes(es, d))
  }

  lemma Recent(es: seq<Event>, e: Event)
    ensures StagingBegan(es + [e]) <==> StagingBegan(es) || e.CreateTemp?
    ensures Rejected(es + [e]) <==> Rejected(es) || (e.PreCommit? && !e.ok)
    ensures RenameRefused(es + [e]) <==> RenameRefused(es) || (e.Rename? && !e.ok)
    ensures forall x :: x in es + [e] <==> x in es || x == e
    ensures Undoing(es) <==> RenameRefused(es) || PostCommit(false) in es
    ensures forall d :: Removes(es + [e], d) <==> Removes(es, d) || (e.Remove? && e.path == d)
    ensures forall d :: Renamed(es + [e], d) <==> Renamed(es, d) || SwapsIn(e, d)
  {
    assert forall x :: x in es + [e] <==> x in es || x == e;
  }

  lemma RecentSeen(es: seq<Event>, e: Event)
    ensures forall d :: Seen(es + [e], d) <==> Seen(es, d) || (e.Stat? && e.path == d && e.meta.Some?)
  {
    forall d ensures Seen(es + [e], d) <==> Seen(es, d) || (e.Stat? && e.path == d && e.meta.Some?) {
      SeenSnoc(es, e, d);
    }
  }

  lemma RecentFaults(c: Ctx, es: seq<Event>, e: Event)
    requires c.Valid()
    ensures OwnerUnknown(c, es + [e]) <==> OwnerUnknown(c, es) || OwnerFault(c, es, e)
    ensures CopyFailed(es + [e]) <==> CopyFailed(es) || CopyFault(es, e)
    ensures StagingFailed(c.env, es + [e]) <==> StagingFailed(c.env, es) || TempFault(c.env, es, e)
    ensures RestoreFailed(c, es + [e]) <==> RestoreFailed(c, es) || RestoreFault(c, es, e)
  {
    hide OwnerFault, CopyFault, TempFault, RestoreFault, Targets;
    var es' := es + [e];
    assert forall k | 0 <= k < |es| :: es'[..k] == es[..k] && es'[k] == es[k];
    assert es'[..|es|] == es && es'[|es|] == e;
    if OwnerFault(c, es, e) { assert OwnerFault(c, es'[..|es|], es'[|es|]); }
    if CopyFault(es, e) { assert CopyFault(es'[..|es|], es'[|es|]); }
    if TempFault(c.env, es, e) { assert TempFault(c.env, es'[..|es|], es'[|es|]); }
    if RestoreFault(c, es, e) { assert RestoreFault(c, es'[..|es|], es'[|es|]); }
    if k :| 0 <= k < |es| && OwnerFault(c, es[..k], es[k]) { assert OwnerFault(c, es'[..k], es'[k]); }
    if k :| 0 <= k < |es| && CopyFault(es[..k], es[k]) { assert CopyFault(es'[..k], es'[k]); }
    if k :| 0 <= k < |es| && TempFault(c.env, es[..k], es[k]) { assert TempFault(c.env, es'[..k], es'[k]); }
    if k :| 0 <= k < |es| && RestoreFault(c, es[..k], es[k]) { assert RestoreFault(c, es'[..k], es'[k]); }
  }

  lemma NoteMeans(c: Ctx, es: seq<Event>, m: Marks, e: Event)
    requires c.Valid() && Means(c, es, m)
    ensures Means(c, es + [e], Note(c, m, e))
  {
    hide Seen, StagingBegan, Rejected, RenameRefused, Undoing, Removes, Renamed, OwnerUnknown, CopyFailed,
      StagingFailed, RestoreFailed, Unresolved, Refuses, Targets;
    Recent(es, e);
    RecentSeen(es, e);
    RecentFaults(c, es, e);
  }

  lemma {:induction false} MarksMean(c: Ctx, es: seq<Event>)
    requires c.Valid()
    ensures Means(c, es, MarksOf(c, es))
  {
    hide Means, Note;
    if es == [] {
      NothingMeans(c);
    } else {
      var n := |es| - 1;
      MarksMean(c, es[..n]);
      NoteMeans(c, es[..n], MarksOf(c, es[..n]), es[n]);
      assert es == es[..n] + [es[n]];
    }
  }

  lemma NothingMeans(c: Ctx)
    requires c.Valid()
    ensures Means(c, [], NONE)
  {
  }

  // ----- the control state agrees -----

  predicate Fine(m: Marks) {
    && !m.canceled && !m.unknown && !m.miscopied && !m.unstaged && !m.rejected
    && !m.unswapped && !m.unloaded && !m.unrestored
  }

  /** Exactly the calls that explain the error have been made. */
  predicate Explains(m: Marks, error: Option<Error>) {
    if error.None? then Fine(m)
    else
      match error.value
      case Canceled => m.canceled && Fine(m.(canceled := false))
      case OwnershipUnresolved => m.unknown && Fine(m.(unknown := false))
      case BackupFailed => m.miscopied && Fine(m.(miscopied := false))
      case TempFailed => m.unstaged && Fine(m.(unstaged := false))
      case ValidateFailed => m.rejected && Fine(m.(rejected := false))
      case RenameFailed => m.unswapped && Fine(m.(unswapped := false))
      case ReloadFailed => m.unloaded && Fine(m.(unloaded := false))
      case RollbackFailed =>
        (m.unswapped || m.unloaded) && m.unrestored
          && Fine(m.(unswapped := false, unloaded := false, unrestored := false))
      case _ => false
  }

  /** Has the restore failed, counting the clean-up of the file that has just failed? */
  predicate Spoiled(undo: Undo, failed: bool) {
    failed || undo.Scrapping? || (undo.Rewriting? && undo.stage.Discarding?)
  }

  /** Does the call, made while the deployment is being undone, spoil the restore? */
  predicate Spoils(c: Ctx, m: Marks, e: Event) {
    || (e.ReadFile? && e.got.None?) || Refuses(c.env, e) || TurnsBack(e)
    || (e.Remove? && e.reply.Refused? && e.path in c.targets && e.path in m.swapped
        && e.path !in m.removed && (c.plan.retention == -1 || e.path !in m.seen))
  }

  predicate ToldRestoring(c: Ctx, m: Marks, preps: seq<Prep>, i: nat, upto: nat, spoiled: bool, reload: bool) {
    && Explains(m, Some(if spoiled then RollbackFailed else if reload then ReloadFailed else RenameFailed))
    && (reload ==> m.unloaded) && (!reload ==> m.unswapped && !m.unloaded) && m.staging
    && (!spoiled ==>
          && (forall k | i <= k < upto && k < |c.targets| :: c.targets[k] !in m.removed)
          && (forall k | 0 <= k < i && k < |c.targets| && k < |preps| && preps[k].backup.None? ::
            c.targets[k] in m.removed))
  }

  predicate Told(c: Ctx, m: Marks, s: St) {
    match s.pc
    case DroppingBackups(_) => Explains(m, Some(BackupFailed)) && !m.staging
    case StagingFile(i, stage) =>
      && Explains(m, if stage.Discarding? then Some(TempFailed) else None)
      && (i > 0 || !stage.Opening? ==> m.staging) && m.removed == {}
    case Validating => Fine(m) && m.staging && m.removed == {}
    case Renaming(_) => Fine(m) && m.staging && m.removed == {}
    case Reloading => Fine(m) && m.staging && m.removed == {}
    case DroppingTemps(_, cause) =>
      (match cause
       case Abort(error) => Explains(m, Some(error)) && !m.unswapped && !m.unloaded
       case Partial(upto, failed) => upto <= |c.targets| && ToldRestoring(c, m, s.preps, upto, upto, failed, false))
    case Restoring(i, undo, upto, failed, reload) =>
      && i <= upto <= |c.targets| && ToldRestoring(c, m, s.preps, i, upto, Spoiled(undo, failed), reload)
      && (i < |s.preps| && !undo.Choosing? ==> (s.preps[i].backup.None? <==> undo.Deleting?))
    case ReloadingOld => Explains(m, Some(ReloadFailed))
    case Listing(_) => Fine(m)
    case Pruning(_, _) => Fine(m)
    case Unlocking(_, out) => Explains(m, out.error)
    case Done(out) => Explains(m, out.error)
    case _ => Fine(m) && !m.staging && m.removed == {}
  }

  /** What is known of each destination besides. */
  ghost predicate Facts(c: Ctx, m: Marks, s: St)
    requires c.Valid()
  {
    && Shape(c, s) && Distinct(c.targets)
    && (s.pc.Restoring? || s.pc.DroppingTemps? ==> |s.preps| == c.N())
    && (forall j | 0 <= j < |s.preps| :: c.targets[j] in m.seen <==> s.preps[j].hadOrig)
    && (Preparing(s.pc) ==> forall j | |s.preps| <= j < c.N() :: c.targets[j] !in m.seen)
    && (s.pc.BackingUp? ==> s.preps[s.pc.i].hadOrig)
    && (s.pc.Restoring? ==> forall j | 0 <= j < c.N() :: c.targets[j] in m.swapped <==> j < s.pc.upto)
    && (s.pc.DroppingTemps? && s.pc.cause.Partial? ==>
          forall j | 0 <= j < c.N() :: c.targets[j] in m.swapped <==> j < s.pc.cause.upto)
    && (s.pc.Restoring? || s.pc.DroppingTemps? ==>
          (s.pc.DroppingTemps? && s.pc.cause.Abort?) || forall j | 0 <= j < c.N() :: BackupIff(c, s.preps[j]))
  }

  predicate BackupIff(c: Ctx, p: Prep) {
    p.backup.Some? <==> p.hadOrig && c.plan.retention != -1
  }

  lemma ToldEarly(c: Ctx, m: Marks, s: St, e: Event, s': St)
    requires c.Valid() && Step(c, s, e) == Some(s') && Told(c, m, s) && Facts(c, m, s)
    requires s.pc.Locking? || s.pc.Checking? || s.pc.Comparing? || s.pc.BackupHead? || s.pc.DroppingBackups?
    ensures Told(c, Note(c, m, e), s')
  {
    hide Sibling, MadeBackup, MadeTemp, Resolve, SameDigest, Sort, Targets, BackupMap, Unresolved, PrepNames, CopyStep,
      StageStep, StepRestoring;
  }

  lemma ToldStatting(c: Ctx, m: Marks, s: St, e: Event, s': St)
    requires c.Valid() && Step(c, s, e) == Some(s') && Told(c, m, s) && Facts(c, m, s) && s.pc.Statting?
    ensures Told(c, Note(c, m, e), s')
  {
    hide Sibling, MadeBackup, MadeTemp, Resolve, Sort, Targets, PrepNames, CopyStep, StageStep, StepRestoring;
    var i := s.pc.i;
    assert Unresolved(c, c.targets[i], e.meta) <==>
      Resolve(c.env, c.plan.files[i], c.plan.defaults, e.meta).None?;
  }

  lemma ToldBackingUp(c: Ctx, m: Marks, s: St, e: Event, s': St)
    requires c.Valid() && Step(c, s, e) == Some(s') && Told(c, m, s) && Facts(c, m, s) && s.pc.BackingUp?
    ensures Told(c, Note(c, m, e), s')
  {
    hide Sibling, MadeBackup, MadeTemp, Targets, PrepNames, Unresolved, StageStep, StepRestoring, BackupPath;
  }

  lemma ToldStaging(c: Ctx, m: Marks, s: St, e: Event, s': St)
    requires c.Valid() && Step(c, s, e) == Some(s') && Told(c, m, s) && Facts(c, m, s) && s.pc.StagingFile?
    ensures Told(c, Note(c, m, e), s')
  {
    hide Facts, Shape, Targets, Unresolved, CopyStep, StepRestoring, StageStep;
    var i := s.pc.i;
    StageRefuses(c.env, c.targets[i], c.plan.files[i].bytes, s.preps[i].owner, s.pc.stage, e);
  }

  /** Staging goes wrong exactly with a call that refuses. */
  lemma StageRefuses(env: Env, d: Path, data: Bytes, o: Resolved, stage: Stage, e: Event)
    requires !StageStep(env, d, data, o, stage, e).Wrong?
    ensures var r := StageStep(env, d, data, o, stage, e);
      && (e.CreateTemp? <==> stage.Opening?) && (e.Remove? <==> stage.Discarding?)
      && (e.CreateTemp? || e.Write? || e.Sync? || e.Close? || e.Chmod? || e.Chown? || e.Remove?)
      && (stage.Discarding? ==> r.NoTemp?)
      && (!stage.Discarding? ==>
            (Refuses(env, e) <==> r.NoTemp? || r.Unowned? || (r.Staging? && r.stage.Discarding?)))
      && (r.Staging? ==> !r.stage.Opening?)
  {
    hide TempPath;
  }

  lemma ToldValidating(c: Ctx, m: Marks, s: St, e: Event, s': St)
    requires c.Valid() && s.pc.Validating? && StepValidating(c, s, e) == Some(s') && Told(c, m, s)
    ensures Told(c, Note(c, m, e), s')
  {
    hide Targets, Unresolved, TempMap;
  }

  lemma ToldRenaming(c: Ctx, m: Marks, s: St, e: Event, s': St)
    requires c.Valid() && s.pc.Renaming? && StepRenaming(c, s, e) == Some(s') && Told(c, m, s)
    ensures Told(c, Note(c, m, e), s')
  {
    hide Targets, Unresolved, BackupMap;
  }

  lemma ToldReloading(c: Ctx, m: Marks, s: St, e: Event, s': St)
    requires c.Valid() && s.pc.Reloading? && StepReloading(c, s, e) == Some(s') && Told(c, m, s)
    ensures Told(c, Note(c, m, e), s')
  {
    hide Targets, Unresolved, BackupMap;
  }

  lemma ToldReloadingOld(c: Ctx, m: Marks, s: St, e: Event, s': St)
    requires c.Valid() && s.pc.ReloadingOld? && StepReloadingOld(c, s, e) == Some(s') && Told(c, m, s)
    ensures Told(c, Note(c, m, e), s')
  {
    hide Targets, Unresolved, BackupMap;
  }

  lemma ToldPruning(c: Ctx, m: Marks, s: St, e: Event, s': St)
    requires c.Valid() && Told(c, m, s)
    requires (s.pc.Listing? && StepListing(c, s, e) == Some(s')) || (s.pc.Pruning? && StepPruning(c, s, e) == Some(s'))
    ensures Told(c, Note(c, m, e), s')
  {
    hide Targets, Unresolved, BackupMap, Doomed;
  }

  lemma QuietNoted(c: Ctx, m: Marks, e: Event)
    requires c.Valid() && (e.Lock? || e.Unlock? || e.Internal? || e == Context(true))
    ensures Note(c, m, e) == m
  {
    hide Targets, Unresolved;
  }

  lemma ToldUnlocking(c: Ctx, m: Marks, s: St, e: Event, s': St)
    requires c.Valid() && s.pc.Unlocking? && StepUnlocking(c, s, e) == Some(s') && Told(c, m, s)
    ensures Told(c, Note(c, m, e), s')
  {
    hide Targets, Unresolved, Sort, Note, Explains;
    QuietNoted(c, m, e);
  }

  // ----- while the deployment is being undone -----

  /** A call of the restore or of the clean-up after it. */
  predicate UndoCall(e: Event) {
    || e.ReadFile? || e.CreateTemp? || e.Write? || e.Sync? || e.Close? || e.Chmod? || e.Chown? || e.Remove? || e.Rename?
    || e.Internal?
  }

  lemma UndoNoted(c: Ctx, m: Marks, preps: seq<Prep>, i: nat, upto: nat, spoiled: bool, reload: bool, e: Event, i': nat)
    requires c.Valid() && ToldRestoring(c, m, preps, i, upto, spoiled, reload) && UndoCall(e)
    requires i <= i' <= i + 1
    requires !spoiled && !Spoils(c, m, e) ==>
      && (e.Remove? ==> forall k | i' <= k < upto && k < |c.targets| :: c.targets[k] != e.path)
      && (i < i' && i < |preps| && i < |c.targets| && preps[i].backup.None? ==> e.Remove? && e.path == c.targets[i])
    ensures ToldRestoring(c, Note(c, m, e), preps, i', upto, spoiled || Spoils(c, m, e), reload)
  {
    hide Targets, Unresolved, Spoils;
    assert e.Rename? && !e.ok ==> Spoils(c, m, e) by { FailedRenameSpoils(c, m, e); }
  }

  lemma FailedRenameSpoils(c: Ctx, m: Marks, e: Event)
    ensures e.Rename? && !e.ok ==> Spoils(c, m, e)
  {
  }

  /** A removal during the clean-up comes too late to be the restore of a destination. */
  lemma CleanupSpoilsNothing(c: Ctx, m: Marks, s: St, e: Event)
    requires c.Valid() && Facts(c, m, s) && s.pc.DroppingTemps? && s.pc.cause.Partial? && !s.pc.cause.failed
    requires Told(c, m, s)
    requires e.Remove? || e.Internal?
    ensures !Spoils(c, m, e)
  {
    hide Shape, Targets, Explains;
    if e.Remove? && e.path in c.targets && e.path in m.swapped {
      var k :| 0 <= k < c.N() && c.targets[k] == e.path;
      assert BackupIff(c, s.preps[k]);
    }
  }

  lemma RemovalNoted(c: Ctx, m: Marks, e: Event, error: Error)
    requires c.Valid() && Explains(m, Some(error)) && !m.unswapped && !m.unloaded && (e.Remove? || e.Internal?)
    ensures var m' := Note(c, m, e); Explains(m', Some(error)) && !m'.unswapped && !m'.unloaded
  {
    hide Targets, Unresolved, Spoils;
  }

  lemma ToldDropping(c: Ctx, m: Marks, s: St, e: Event, s': St)
    requires c.Valid() && s.pc.DroppingTemps? && StepDroppingTemps(c, s, e) == Some(s')
    requires Told(c, m, s) && Facts(c, m, s)
    ensures Told(c, Note(c, m, e), s')
  {
    hide Facts, Targets, Unresolved, BackupMap, Spoils, Note, Explains;
    if s.pc.cause.Abort? {
      RemovalNoted(c, m, e, s.pc.cause.error);
    } else {
      var upto, failed := s.pc.cause.upto, s.pc.cause.failed;
      if !failed { CleanupSpoilsNothing(c, m, s, e); }
      UndoNoted(c, m, s.preps, upto, upto, failed, false, e, upto);
    }
  }

  lemma ToldRestored(c: Ctx, m: Marks, s: St, e: Event, s': St)
    requires c.Valid() && s.pc.Restoring? && StepRestoring(c, s, e) == Some(s') && s.pc.i >= s.pc.upto
    requires Told(c, m, s) && Facts(c, m, s)
    ensures Told(c, Note(c, m, e), s')
  {
    hide Facts, Targets, Unresolved, BackupMap, StageStep;
  }

  lemma ToldChoosing(c: Ctx, m: Marks, s: St, e: Event, s': St)
    requires c.Valid() && s.pc.Restoring? && StepRestoring(c, s, e) == Some(s') && s.pc.i < s.pc.upto
    requires s.pc.undo.Choosing? || s.pc.undo.Fetching? || s.pc.undo.Swapping?
    requires Told(c, m, s) && Facts(c, m, s)
    ensures Told(c, Note(c, m, e), s')
  {
    hide Facts, ToldRestoring, Note, Targets, Unresolved, BackupMap, StageStep;
    UndoNoted(c, m, s.preps, s.pc.i, s.pc.upto, Spoiled(s.pc.undo, s.pc.failed), s.pc.reload, e, s'.pc.i);
  }

  lemma ToldDeleting(c: Ctx, m: Marks, s: St, e: Event, s': St)
    requires c.Valid() && s.pc.Restoring? && StepRestoring(c, s, e) == Some(s') && s.pc.i < s.pc.upto
    requires s.pc.undo.Deleting? || s.pc.undo.Scrapping?
    requires Told(c, m, s) && Facts(c, m, s)
    ensures Told(c, Note(c, m, e), s')
  {
    hide Shape, Note, Targets, Unresolved, BackupMap, StageStep, Explains;
    assert BackupIff(c, s.preps[s.pc.i]);
    UndoNoted(c, m, s.preps, s.pc.i, s.pc.upto, Spoiled(s.pc.undo, s.pc.failed), s.pc.reload, e, s'.pc.i);
  }

  lemma ToldRewriting(c: Ctx, m: Marks, s: St, e: Event, s': St)
    requires c.Valid() && s.pc.Restoring? && StepRestoring(c, s, e) == Some(s') && s.pc.i < s.pc.upto
    requires s.pc.undo.Rewriting?
    requires Told(c, m, s) && Facts(c, m, s)
    ensures Told(c, Note(c, m, e), s')
  {
    hide Facts, ToldRestoring, Note, Targets, Unresolved, BackupMap, StageStep;
    var i, u := s.pc.i, s.pc.undo;
    StageSpoils(c, m, c.targets[i], u.data, s.preps[i].owner, u.stage, e);
    UndoNoted(c, m, s.preps, i, s.pc.upto, Spoiled(u, s.pc.failed), s.pc.reload, e, s'.pc.i);
  }

  /** Staging the old contents goes wrong exactly with a call that spoils the restore. */
  lemma StageSpoils(c: Ctx, m: Marks, d: Path, data: Bytes, o: Resolved, stage: Stage, e: Event)
    requires !StageStep(c.env, d, data, o, stage, e).Wrong?
    ensures UndoCall(e)
    ensures var r := StageStep(c.env, d, data, o, stage, e);
      if stage.Discarding? then r.NoTemp?
      else !e.Remove? && (Spoils(c, m, e) <==> r.NoTemp? || r.Unowned? || (r.Staging? && r.stage.Discarding?))
  {
    hide StageStep;
    StageRefuses(c.env, d, data, o, stage, e);
  }

  lemma ToldUndoing(c: Ctx, m: Marks, s: St, e: Event, s': St)
    requires c.Valid() && s.pc.Restoring? && StepRestoring(c, s, e) == Some(s') && Told(c, m, s) && Facts(c, m, s)
    ensures Told(c, Note(c, m, e), s')
  {
    hide Facts, Told, Note, StepRestoring, Targets;
    if s.pc.i >= s.pc.upto { ToldRestored(c, m, s, e, s'); }
    else if s.pc.undo.Rewriting? { ToldRewriting(c, m, s, e, s'); }
    else if s.pc.undo.Deleting? || s.pc.undo.Scrapping? { ToldDeleting(c, m, s, e, s'); }
    else { ToldChoosing(c, m, s, e, s'); }
  }

  lemma ToldStep(c: Ctx, m: Marks, s: St, e: Event, s': St)
    requires c.Valid() && Step(c, s, e) == Some(s') && Told(c, m, s) && Facts(c, m, s)
    ensures Told(c, Note(c, m, e), s')
  {
    hide Facts, Told, Note, Targets, StepLocking, StepChecking, StepComparing, StepStatting, StepBackupHead, CopyStep,
      StepDroppingBackups, StageStep, StepDroppingTemps, StepValidating, StepRenaming, StepReloading, StepReloadingOld,
      StepRestoring, StepListing, StepPruning, StepUnlocking;
    if s.pc.Restoring? { ToldUndoing(c, m, s, e, s'); }
    else if s.pc.DroppingTemps? { ToldDropping(c, m, s, e, s'); }
    else if s.pc.Statting? { ToldStatting(c, m, s, e, s'); }
    else if s.pc.BackingUp? { ToldBackingUp(c, m, s, e, s'); }
    else if s.pc.StagingFile? { ToldStaging(c, m, s, e, s'); }
    else if s.pc.Validating? { ToldValidating(c, m, s, e, s'); }
    else if s.pc.Renaming? { ToldRenaming(c, m, s, e, s'); }
    else if s.pc.Reloading? { ToldReloading(c, m, s, e, s'); }
    else if s.pc.ReloadingOld? { ToldReloadingOld(c, m, s, e, s'); }
    else if s.pc.Listing? || s.pc.Pruning? { ToldPruning(c, m, s, e, s'); }
    else if s.pc.Unlocking? { ToldUnlocking(c, m, s, e, s'); }
    else { ToldEarly(c, m, s, e, s'); }
  }

  // ----- which files are backed up -----

  predicate BackupsAt(c: Ctx, preps: seq<Prep>, n: nat) {
    && (forall j | 0 <= j < |preps| && j < n :: BackupIff(c, preps[j]))
    && (forall j | n <= j < |preps| :: preps[j].backup.None?)
  }

  /** From the last copy on, a destination has a backup if and only if it was found and backups are on. */
  predicate BackupsKnown(c: Ctx, s: St) {
    match s.pc
    case BackupHead(i) => BackupsAt(c, s.preps, if c.plan.retention == -1 then |s.preps| else i)
    case BackingUp(i, _) => c.plan.retention != -1 && BackupsAt(c, s.preps, i) && i < |s.preps| && s.preps[i].hadOrig
    case DroppingBackups(_) => true
    case Unlocking(_, _) => true
    case Done(_) => true
    case Locking(_) => s.preps == []
    case Checking => s.preps == []
    case Comparing(_) => s.preps == []
    case Statting(_) => forall j | 0 <= j < |s.preps| :: s.preps[j].backup.None?
    case _ => forall j | 0 <= j < |s.preps| :: BackupIff(c, s.preps[j])
  }

  lemma BackupsEarly(c: Ctx, s: St, e: Event, s': St)
    requires c.Valid() && Shape(c, s) && Step(c, s, e) == Some(s') && BackupsKnown(c, s)
    requires Preparing(s.pc) || s.pc.BackupHead? || s.pc.BackingUp? || s.pc.DroppingBackups?
    ensures BackupsKnown(c, s')
  {
    hide Sibling, MadeBackup, MadeTemp, Resolve, SameDigest, Sort, Targets, PrepNames, CopyStep, StageStep,
      StepRestoring;
  }

  lemma BackupsStaging(c: Ctx, s: St, e: Event, s': St)
    requires c.Valid() && Shape(c, s) && Step(c, s, e) == Some(s') && BackupsKnown(c, s)
    requires s.pc.StagingFile? || s.pc.DroppingTemps? || s.pc.Validating? || s.pc.Unlocking?
    ensures BackupsKnown(c, s')
  {
    hide Sibling, MadeBackup, MadeTemp, TempMap, BackupMap, Sort, Targets, PrepNames, CopyStep, StageStep,
      StepRestoring, ShapeFull;
  }

  lemma BackupsLate(c: Ctx, s: St, e: Event, s': St)
    requires c.Valid() && Shape(c, s) && Step(c, s, e) == Some(s') && BackupsKnown(c, s)
    requires s.pc.Renaming? || s.pc.Reloading? || s.pc.ReloadingOld? || s.pc.Listing? || s.pc.Pruning?
    ensures BackupsKnown(c, s')
  {
    hide Sibling, MadeBackup, MadeTemp, TempMap, BackupMap, Sort, Targets, PrepNames, CopyStep, StageStep,
      StepRestoring, Doomed, ShapeFull;
  }

  lemma BackupsUndoing(c: Ctx, s: St, e: Event, s': St)
    requires c.Valid() && Shape(c, s) && s.pc.Restoring? && StepRestoring(c, s, e) == Some(s') && BackupsKnown(c, s)
    ensures BackupsKnown(c, s')
  {
    hide Sibling, MadeBackup, MadeTemp, BackupMap, Targets, PrepNames, StageStep, ShapeFull;
    if s.pc.i < s.pc.upto { RestoringGoesOn(c, s, e, s'); }
  }

  lemma {:induction false} BackupsReached(c: Ctx, fs0: Fs, es: seq<Event>, s: St, fs: Fs)
    requires Reaches(c, fs0, es, s, fs)
    ensures BackupsKnown(c, s)
  {
    hide Step, Shape, Effect, Enabled, BackupsKnown, StepRestoring;
    if es == [] {
      NoBackupsKnown(c);
    } else {
      var n := |es| - 1;
      var s1, fs1 := Run(c, es[..n]).value, Replay(c.env, fs0, es[..n]).value;
      BackupsReached(c, fs0, es[..n], s1, fs1);
      ShapeReached(c, fs0, es[..n], s1, fs1);
      StepsSplit(c, s1, es[n], s);
      if s1.pc.Restoring? { BackupsUndoing(c, s1, es[n], s); }
      else if Preparing(s1.pc) || s1.pc.BackupHead? || s1.pc.BackingUp? || s1.pc.DroppingBackups? {
        BackupsEarly(c, s1, es[n], s);
      } else if s1.pc.StagingFile? || s1.pc.DroppingTemps? || s1.pc.Validating? || s1.pc.Unlocking? {
        BackupsStaging(c, s1, es[n], s);
      } else {
        BackupsLate(c, s1, es[n], s);
      }
    }
  }

  lemma NoBackupsKnown(c: Ctx)
    ensures BackupsKnown(c, Start())
  {
  }

  lemma StepsSplit(c: Ctx, s: St, e: Event, s': St)
    requires c.Valid() && Step(c, s, e) == Some(s')
    ensures s.pc.Restoring? ==> StepRestoring(c, s, e) == Some(s')
    ensures !s.pc.Done?
  {
    hide StepRestoring, Targets, StageStep, CopyStep;
  }

  // ----- the theorem -----

  lemma {:induction false} FactsReached(c: Ctx, fs0: Fs, es: seq<Event>, s: St, fs: Fs)
    requires Reaches(c, fs0, es, s, fs)
    ensures Facts(c, MarksOf(c, es), s)
  {
    hide Step, Run, Replay, Seen, Renamed, StagingBegan, Rejected, RenameRefused, Removes, OwnerUnknown, CopyFailed,
      StagingFailed, RestoreFailed, MarksOf, Targets, BackupIff;
    TargetsIff(c.env, c.plan.files);
    MarksMean(c, es);
    ShapeReached(c, fs0, es, s, fs);
    SeenReached(c, fs0, es, s, fs);
    BackupsReached(c, fs0, es, s, fs);
    forall j | 0 <= j < c.N() ensures Known(c, fs0, fs, s, j, Renamed(es, c.targets[j])) {
      KnownReached(c, fs0, es, s, fs, j);
    }
  }

  lemma {:induction false} ToldReached(c: Ctx, fs0: Fs, es: seq<Event>, s: St, fs: Fs)
    requires Reaches(c, fs0, es, s, fs)
    ensures Told(c, MarksOf(c, es), s)
  {
    hide Step, Effect, Enabled, Told, Facts, Note;
    if es == [] {
      NothingTold(c);
    } else {
      var n := |es| - 1;
      var s1, fs1 := Run(c, es[..n]).value, Replay(c.env, fs0, es[..n]).value;
      ToldReached(c, fs0, es[..n], s1, fs1);
      FactsReached(c, fs0, es[..n], s1, fs1);
      ToldStep(c, MarksOf(c, es[..n]), s1, es[n], s);
    }
  }

  lemma NothingTold(c: Ctx)
    requires c.Valid()
    ensures Told(c, NONE, Start())
  {
  }

  /** The error a run must end with, told by its calls alone. */
  ghost predicate Explained(c: Ctx, es: seq<Event>, error: Option<Error>)
    requires c.Valid()
  {
    && (error == Some(Canceled) <==> Context(false) in es)
    && (error == Some(OwnershipUnresolved) <==> OwnerUnknown(c, es))
    && (error == Some(BackupFailed) <==> CopyFailed(es))
    && (error == Some(TempFailed) <==> StagingFailed(c.env, es))
    && (error == Some(ValidateFailed) <==> Rejected(es))
    && (error == Some(RollbackFailed) <==> RestoreFailed(c, es))
    && (error == Some(ReloadFailed) <==> PostCommit(false) in es && !RestoreFailed(c, es))
    && (error == Some(RenameFailed) <==> RenameRefused(es) && !RestoreFailed(c, es))
    && (error == None <==>
          && Context(false) !in es && !OwnerUnknown(c, es) && !CopyFailed(es) && !StagingFailed(c.env, es)
          && !Rejected(es) && !RenameRefused(es) && PostCommit(false) !in es)
  }

  lemma ExplainsEarly(m: Marks, error: Option<Error>)
    requires Explains(m, error)
    ensures error == Some(Canceled) <==> m.canceled
    ensures error == Some(OwnershipUnresolved) <==> m.unknown
    ensures error == Some(BackupFailed) <==> m.miscopied
    ensures error == Some(TempFailed) <==> m.unstaged
  {
  }

  lemma ExplainsLate(m: Marks, error: Option<Error>)
    requires Explains(m, error)
    ensures error == Some(ValidateFailed) <==> m.rejected
    ensures error == Some(RollbackFailed) <==> m.unrestored
    ensures error == Some(ReloadFailed) <==> m.unloaded && !m.unrestored
    ensures error == Some(RenameFailed) <==> m.unswapped && !m.unrestored
    ensures error == None <==> Fine(m)
    ensures m.unrestored ==> m.unswapped || m.unloaded
  {
  }

  /** While the destinations are put back, a failure is on record if and only if a call has failed. */
  lemma RestoreFailedIff(c: Ctx, fs0: Fs, es: seq<Event>, s: St, fs: Fs)
    requires Reaches(c, fs0, es, s, fs) && s.pc.Restoring? && s.pc.undo.Choosing?
    ensures s.pc.failed <==> RestoreFailed(c, es)
    ensures RestoreFailed(c, es + [Internal]) <==> RestoreFailed(c, es)
  {
    hide Step, Run, Replay, StagingBegan, Rejected, RenameRefused, Removes, OwnerUnknown, CopyFailed, StagingFailed,
      RestoreFailed, MarksOf, Targets, Seen, Renamed;
    ToldReached(c, fs0, es, s, fs);
    MarksMean(c, es);
    RecentFaults(c, es, Internal);
  }

  /** Every error of Apply, exactly: each is returned if and only if a call of the run went the way
      that calls for it. In particular a rollback is reported as failed if and only if a call of the
      restore, or the second reload, failed. */
  lemma ErrorsIff(c: Ctx, fs0: Fs, es: seq<Event>, s: St, fs: Fs)
    requires Reaches(c, fs0, es, s, fs) && s.pc.Done?
    ensures Explained(c, es, s.pc.out.error)
  {
    hide Step, Run, Replay, StagingBegan, Rejected, RenameRefused, Removes, OwnerUnknown, CopyFailed, StagingFailed,
      RestoreFailed, MarksOf, Targets, Seen, Renamed, Explains;
    ToldReached(c, fs0, es, s, fs);
    MarksMean(c, es);
    ExplainsEarly(MarksOf(c, es), s.pc.out.error);
    ExplainsLate(MarksOf(c, es), s.pc.out.error);
  }

  // ----- errors before anything is written -----

  predicate IsLocking(e: Event) {
    e.Lock? || e.Unlock? || e.Context?
  }

  predicate IsReading(e: Event) {
    IsLocking(e) || e.ReadFile? || e.Stat?
  }

  /** Returned before the first file was written. */
  predicate Early(out: Outcome) {
    out == Skipped() || out == Fail(Canceled) || out == Fail(OwnershipUnresolved)
  }

  ghost predicate Untried(es: seq<Event>, pc: Pc) {
    && (pc.Locking? || pc.Checking? ==> forall e | e in es :: IsLocking(e))
    && (Preparing(pc) ==> forall e | e in es :: IsReading(e))
    && (pc.Unlocking? || pc.Done? ==>
          && (pc.out == Fail(Canceled) ==> forall e | e in es :: IsLocking(e))
          && (Early(pc.out) ==> forall e | e in es :: IsReading(e)))
  }

  lemma UntriedEarly(c: Ctx, s: St, e: Event, s': St)
    requires c.Valid() && Step(c, s, e) == Some(s') && Preparing(s.pc)
    ensures IsReading(e) && (s.pc.Locking? || s.pc.Checking? ==> IsLocking(e))
    ensures s'.pc.Locking? || s'.pc.Checking? ==> s.pc.Locking?
    ensures s'.pc.Unlocking? && s'.pc.out == Fail(Canceled) ==> s.pc.Checking?
    ensures !s'.pc.Done?
  {
    hide Resolve, SameDigest, Sort, Targets;
  }

  lemma UntriedLate(c: Ctx, s: St, e: Event, s': St)
    requires c.Valid() && Shape(c, s) && Step(c, s, e) == Some(s') && !Preparing(s.pc) && !s.pc.Unlocking?
    ensures !Preparing(s'.pc) && !s'.pc.Done? && (s'.pc.Unlocking? ==> !Early(s'.pc.out))
  {
    hide Shape, Step, Targets;
    PreparingIsFirst(c, s, e, s');
    if s.pc.Restoring? { UntriedUndoing(c, s, e, s'); }
    else { UntriedOthers(c, s, e, s'); }
  }

  lemma UntriedUndoing(c: Ctx, s: St, e: Event, s': St)
    requires c.Valid() && Step(c, s, e) == Some(s') && s.pc.Restoring?
    ensures !s'.pc.Done? && (s'.pc.Unlocking? ==> !Early(s'.pc.out))
  {
    hide BackupMap, Sort, Targets, Resolve, StageStep, CopyStep;
  }

  lemma UntriedOthers(c: Ctx, s: St, e: Event, s': St)
    requires c.Valid() && Shape(c, s) && Step(c, s, e) == Some(s')
    requires !Preparing(s.pc) && !s.pc.Unlocking? && !s.pc.Restoring?
    ensures !s'.pc.Done? && (s'.pc.Unlocking? ==> !Early(s'.pc.out))
  {
    hide Sibling, MadeBackup, MadeTemp, PrepNames, TempMap, BackupMap, Sort, Targets, CopyStep, StageStep,
      StepRestoring, Doomed;
  }

  lemma UntriedUnlocking(c: Ctx, s: St, e: Event, s': St)
    requires c.Valid() && s.pc.Unlocking? && Step(c, s, e) == Some(s')
    ensures e.Unlock? && (s'.pc.Unlocking? || s'.pc.Done?) && s'.pc.out == s.pc.out
  {
    hide Sort, Targets;
  }

  lemma {:induction false} UntriedReached(c: Ctx, fs0: Fs, es: seq<Event>, s: St, fs: Fs)
    requires Reaches(c, fs0, es, s, fs)
    ensures Untried(es, s.pc)
  {
    hide Step, Effect, Enabled, Shape, IsLocking, IsReading;
    if es != [] {
      var n := |es| - 1;
      var s1, fs1 := Run(c, es[..n]).value, Replay(c.env, fs0, es[..n]).value;
      UntriedReached(c, fs0, es[..n], s1, fs1);
      ShapeReached(c, fs0, es[..n], s1, fs1);
      assert es == es[..n] + [es[n]];
      LockingIsReading(es[n]);
      if Preparing(s1.pc) { UntriedEarly(c, s1, es[n], s); }
      else if s1.pc.Unlocking? { UntriedUnlocking(c, s1, es[n], s); PreparingIsFirst(c, s1, es[n], s); }
      else { UntriedLate(c, s1, es[n], s); }
    }
  }

  lemma LockingIsReading(e: Event)
    ensures IsLocking(e) ==> IsReading(e)
    ensures e.Unlock? ==> IsLocking(e)
  {
  }

  lemma {:induction false} ReadingChangesNothing(env: Env, fs0: Fs, es: seq<Event>)
    requires Replay(env, fs0, es).Some? && forall e | e in es :: IsReading(e)
    ensures Replay(env, fs0, es) == Some(fs0)
  {
    if es != [] {
      var n := |es| - 1;
      assert es == es[..n] + [es[n]];
      assert es[n] in es && forall e | e in es[..n] :: e in es;
      ReadingChangesNothing(env, fs0, es[..n]);
    }
  }

  /** A cancelled context and an unknown owner are noticed before anything is written: only locks are
      taken and released, or files asked about as well, and the tree is as it was. */
  lemma {:induction false} EarlyErrorsChangeNothing(c: Ctx, fs0: Fs, es: seq<Event>, s: St, fs: Fs)
    requires Reaches(c, fs0, es, s, fs) && s.pc.Done?
    ensures Context(false) in es ==> fs == fs0 && forall e | e in es :: e.Lock? || e.Unlock? || e.Context?
    ensures OwnerUnknown(c, es) ==>
      fs == fs0 && forall e | e in es :: e.Lock? || e.Unlock? || e.Context? || e.ReadFile? || e.Stat?
  {
    hide Run, Replay, OwnerUnknown, CopyFailed, StagingFailed, RestoreFailed, Rejected, RenameRefused, Shape, Resolve;
    ErrorsIff(c, fs0, es, s, fs);
    UntriedReached(c, fs0, es, s, fs);
    ShapeReached(c, fs0, es, s, fs);
    SensibleErrors(c, s);
    if forall e | e in es :: IsReading(e) { ReadingChangesNothing(c.env, fs0, es); }
  }

  lemma SensibleErrors(c: Ctx, s: St)
    requires c.Valid() && Shape(c, s) && s.pc.Done?
    ensures s.pc.out.error == Some(Canceled) ==> s.pc.out == Fail(Canceled)
    ensures s.pc.out.error == Some(OwnershipUnresolved) ==> s.pc.out == Fail(OwnershipUnresolved)
  {
    hide Sibling, MadeBackup, MadeTemp, PrepNames;
  }
}
