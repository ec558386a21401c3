/** How far a rollback gets: each destination by its own calls, whatever happened to the others. */
module ApplyRestores {
  import opened Text
  import opened Paths
  import opened Data
  import opened Os
  import opened Ownership
  import opened FileOps
  import opened ApplyProtocol
  import opened ApplySafety
  import opened ApplyTheorems
  import opened ApplyAborts
  import opened ApplyFootprint
  import opened ApplyOutcomes
  import opened ApplyCauses

  /** A call made to put `d` back: its backup is read, a temp file for it written and renamed over
      it, or it is removed. */
  ghost predicate PutsBack(e: Event, d: Path) {
    match e
    case ReadFile(p, _) => MadeBackup(d, p)
    case CreateTemp(x, _, _) => x == d
    case Write(p, _, _, _) => MadeTemp(d, p)
    case Sync(p, _) => MadeTemp(d, p)
    case Close(p, _) => MadeTemp(d, p)
    case Chmod(p, _, _) => MadeTemp(d, p)
    case Chown(p, _, _, _) => MadeTemp(d, p)
    case Remove(p, _) => p == d
    case Rename(_, to, _) => to == d
    case _ => false
  }

  predicate Denied(env: Env, e: Event) {
    (e.ReadFile? && e.got.None?) || Refuses(env, e) || (e.Rename? && !e.ok) || (e.Remove? && e.reply.Refused?)
  }

  ghost predicate OwnFault(env: Env, past: seq<Event>, e: Event, d: Path) {
    Undoing(past) && PutsBack(e, d) && Denied(env, e)
  }

  /** A call made to put `d` back failed. */
  ghost predicate OwnFailed(env: Env, es: seq<Event>, d: Path) {
    exists k | 0 <= k < |es| :: OwnFault(env, es[..k], es[k], d)
  }

  lemma OwnSnoc(env: Env, es: seq<Event>, e: Event, d: Path)
    ensures OwnFailed(env, es + [e], d) <==> OwnFailed(env, es, d) || OwnFault(env, es, e, d)
  {
    hide OwnFault;
    var es' := es + [e];
    assert forall k | 0 <= k < |es| :: es'[..k] == es[..k] && es'[k] == es[k];
    assert es'[..|es|] == es && es'[|es|] == e;
    if OwnFault(env, es, e, d) { assert OwnFault(env, es'[..|es|], es'[|es|], d); }
    if k :| 0 <= k < |es| && OwnFault(env, es[..k], es[k], d) { assert OwnFault(env, es'[..k], es'[k], d); }
  }

  // ----- one destination -----

  ghost predicate BackOr(c: Ctx, fs0: Fs, fs: Fs, s: St, j: nat, own: bool)
    requires c.Valid() && j < c.N()
  {
    own || (j < |s.preps| && IsBack(c, fs0, fs, c.targets[j], s.preps[j]))
  }

  /** Destination `j` has been put back unless one of its own calls failed. */
  ghost predicate PutBack(c: Ctx, fs0: Fs, fs: Fs, s: St, j: nat, own: bool, ren: bool)
    requires c.Valid() && j < c.N()
  {
    match s.pc
    case Restoring(i, undo, upto, _, _) =>
      && (j < i && j < upto ==> BackOr(c, fs0, fs, s, j, own))
      && (j == i && (undo.Scrapping? || (undo.Rewriting? && undo.stage.Discarding?)) ==> own)
    case DroppingTemps(_, cause) => cause.Partial? && j < cause.upto ==> BackOr(c, fs0, fs, s, j, own)
    case ReloadingOld => BackOr(c, fs0, fs, s, j, own)
    case Unlocking(_, out) => PutBackOut(c, fs0, fs, s, j, own, ren, out)
    case Done(out) => PutBackOut(c, fs0, fs, s, j, own, ren, out)
    case _ => true
  }

  ghost predicate PutBackOut(c: Ctx, fs0: Fs, fs: Fs, s: St, j: nat, own: bool, ren: bool, out: Outcome)
    requires c.Valid() && j < c.N()
  {
    out.error == Some(RollbackFailed) ==>
      if ren then BackOr(c, fs0, fs, s, j, own) else Same(fs0, fs, c.targets[j])
  }

  /** What is known before a step: `undoing`, `own` and `ren` are told by the calls so far. */
  ghost predicate Around(c: Ctx, fs0: Fs, fs: Fs, s: St, e: Event, s': St, j: nat, own: bool, ren: bool)
  {
    && c.Valid() && Inv(c, fs0, fs, s) && Enabled(e, fs) && Step(c, s, e) == Some(s') && j < c.N() && Clear(c, j)
    && PutBack(c, fs0, fs, s, j, own, ren) && Known(c, fs0, fs, s, j, ren)
  }

  /** After the step one of the calls for `j` has failed. */
  ghost predicate OwnNow(c: Ctx, e: Event, j: nat, own: bool)
    requires j < |c.targets|
  {
    own || (PutsBack(e, c.targets[j]) && Denied(c.env, e))
  }

  lemma BackKept(c: Ctx, fs0: Fs, fs: Fs, s: St, e: Event, s': St, j: nat, own: bool)
    requires c.Valid() && Enabled(e, fs) && j < c.N() && s'.preps == s.preps && !Touches(e, c.targets[j])
    requires BackOr(c, fs0, fs, s, j, own)
    ensures BackOr(c, fs0, Effect(c.env, e, fs), s', j, OwnNow(c, e, j, own))
  {
    hide Effect, Enabled, Touches, Targets, Placed, PutsBack, Denied;
    EffectIsLocal(c.env, e, fs, c.targets[j]);
  }

  /** A clear destination is no temp file. */
  lemma DroppingSpares(c: Ctx, s: St, e: Event, s': St, j: nat)
    requires c.Valid() && Shape(c, s) && s.pc.DroppingTemps? && StepDroppingTemps(c, s, e) == Some(s')
    requires j < c.N() && Clear(c, j)
    ensures s'.preps == s.preps && !Touches(e, c.targets[j])
  {
    hide Sibling, MadeBackup, MadeTemp, Targets, BackupMap;
    if e.Remove? {
      var k := s.pc.i;
      assert PrepNames(c.targets[k], s.preps[k]);
      KindsAreDisjoint(c.targets[j], c.targets[j]);
      assert MadeTemp(c.targets[k], e.path) && Handles(c, c.targets[k], e.path);
    }
  }

  lemma StillSame(c: Ctx, fs0: Fs, fs: Fs, s: St, e: Event, j: nat)
    requires c.Valid() && Inv(c, fs0, fs, s) && Enabled(e, fs) && j < c.N() && Clear(c, j)
    requires s.pc.DroppingTemps? && s.pc.cause.Partial? && j >= s.pc.cause.upto && !Touches(e, c.targets[j])
    ensures Same(fs0, Effect(c.env, e, fs), c.targets[j])
  {
    hide Sibling, MadeBackup, MadeTemp, Clear, Effect, Enabled, Targets, Shape, Touches;
    assert FileInv(c, fs0, fs, s, j);
    EffectIsLocal(c.env, e, fs, c.targets[j]);
  }

  lemma PutBackDropping(c: Ctx, fs0: Fs, fs: Fs, s: St, e: Event, s': St, j: nat, own: bool, ren: bool)
    requires Around(c, fs0, fs, s, e, s', j, own, ren) && s.pc.DroppingTemps? && StepDroppingTemps(c, s, e) == Some(s')
    ensures PutBack(c, fs0, Effect(c.env, e, fs), s', j, OwnNow(c, e, j, own), ren)
  {
    hide Sibling, MadeBackup, MadeTemp, Clear, Effect, Enabled, Targets, BackupMap, BackOr, Step, OwnNow, Touches,
      Holds;
    DroppingSpares(c, s, e, s', j);
    if s.pc.cause.Partial? {
      if j < s.pc.cause.upto { BackKept(c, fs0, fs, s, e, s', j, own); } else { StillSame(c, fs0, fs, s, e, j); }
    }
  }

  // ----- the restore -----

  /** The calls of the restore of another destination. */
  lemma PutBackOthers(c: Ctx, fs0: Fs, fs: Fs, s: St, e: Event, s': St, j: nat, own: bool, ren: bool)
    requires Around(c, fs0, fs, s, e, s', j, own, ren) && s.pc.Restoring? && StepRestoring(c, s, e) == Some(s')
    requires s.pc.i < s.pc.upto && j != s.pc.i
    ensures PutBack(c, fs0, Effect(c.env, e, fs), s', j, OwnNow(c, e, j, own), ren)
  {
    hide Shape, Clear, Effect, Enabled, Targets, BackOr, Step, OwnNow, Touches, FileInv, StepRestoring, Handling,
      Handles;
    RestoringGoesOn(c, s, e, s');
    InvShape(c, fs0, fs, s);
    var i := HandlingRestores(c, s, e, s');
    HandlesItself(c, c.targets[j]);
    HandlingSpares(c, fs, e, i, j, c.targets[j]);
    if j < i { BackKept(c, fs0, fs, s, e, s', j, own); }
  }

  lemma DeletedIsBack(c: Ctx, fs0: Fs, fs: Fs, d: Path, f: File, p: Prep, e: Event)
    requires Holds(c, fs0, fs, d, f, Some(p), View(NEW, Complete, PuttingBack(Deleting)))
    requires e.Remove? && e.path == d && Enabled(e, fs) && !e.reply.Refused?
    ensures IsBack(c, fs0, Effect(c.env, e, fs), d, p)
  {
    hide Sibling, MadeBackup, MadeTemp, Resolve, Placed, PrepHolds, SavedHolds;
  }

  lemma SwappedIsBack(c: Ctx, fs0: Fs, fs: Fs, d: Path, f: File, p: Prep, t: Path, fs': Fs)
    requires t in fs && fs' == (fs - {t})[d := fs[t]]
    requires Holds(c, fs0, fs, d, f, Some(p), View(NEW, Complete, PuttingBack(Swapping(t))))
    ensures IsBack(c, fs0, fs', d, p)
  {
    hide Sibling, MadeBackup, MadeTemp, Resolve, Placed, PrepHolds, SavedHolds;
    UndoSwap(c, fs0, fs, d, f, p, t, fs');
  }

  /** The removal or the rename that puts the destination back. */
  lemma PutBackSwap(c: Ctx, fs0: Fs, fs: Fs, s: St, e: Event, s': St, j: nat, own: bool, ren: bool)
    requires s.pc.Restoring? && j == s.pc.i < s.pc.upto && StepRestoring(c, s, e) == Some(s')
    requires Around(c, fs0, fs, s, e, s', j, own, ren) && (s.pc.undo.Deleting? || s.pc.undo.Swapping?)
    ensures PutBack(c, fs0, Effect(c.env, e, fs), s', j, OwnNow(c, e, j, own), ren)
  {
    hide Sibling, MadeBackup, MadeTemp, Clear, Targets, Resolve, Step, StageStep, BackupMap, PrepNames, Holds, IsBack;
    var d, f, p := c.targets[j], c.plan.files[j], s.preps[j];
    assert FileInv(c, fs0, fs, s, j);
    if s.pc.undo.Deleting? {
      if !e.reply.Refused? { DeletedIsBack(c, fs0, fs, d, f, p, e); }
    } else if e.ok { SwappedIsBack(c, fs0, fs, d, f, p, s.pc.undo.temp, Effect(c.env, e, fs)); }
  }

  /** The other calls of its restore. */
  lemma PutBackWrites(c: Ctx, fs0: Fs, fs: Fs, s: St, e: Event, s': St, j: nat, own: bool, ren: bool)
    requires s.pc.Restoring? && j == s.pc.i < s.pc.upto && StepRestoring(c, s, e) == Some(s')
    requires Around(c, fs0, fs, s, e, s', j, own, ren) && !s.pc.undo.Deleting? && !s.pc.undo.Swapping?
    ensures PutBack(c, fs0, Effect(c.env, e, fs), s', j, OwnNow(c, e, j, own), ren)
  {
    hide Sibling, MadeBackup, MadeTemp, Clear, Targets, Resolve, Step, StageStep, BackupMap, Effect, Enabled, FileInv,
      IsBack;
    var u := s.pc.undo;
    assert PrepNames(c.targets[j], s.preps[j]);
    if u.Rewriting? {
      var d, data, o := c.targets[j], u.data, s.preps[j].owner;
      StageRefuses(c.env, d, data, o, u.stage, e);
      if Refuses(c.env, e) { StagePutsBack(c.env, d, data, o, u.stage, e); }
    }
  }

  lemma StagePutsBack(env: Env, d: Path, data: Bytes, o: Resolved, stage: Stage, e: Event)
    requires StageNames(d, stage) && !StageStep(env, d, data, o, stage, e).Wrong? && !e.Remove?
    ensures PutsBack(e, d)
  {
    hide Sibling, MadeTemp, TempPath;
  }

  lemma PutBackDone(c: Ctx, fs0: Fs, fs: Fs, s: St, e: Event, s': St, j: nat, own: bool, ren: bool)
    requires Around(c, fs0, fs, s, e, s', j, own, ren) && s.pc.Restoring? && StepRestoring(c, s, e) == Some(s')
    requires s.pc.i >= s.pc.upto
    ensures PutBack(c, fs0, Effect(c.env, e, fs), s', j, OwnNow(c, e, j, own), ren)
  {
    hide Sibling, MadeBackup, MadeTemp, Clear, Targets, Step, StageStep, BackupMap, PrepNames, FileInv, OwnNow, BackOr;
    OwnStays(c, fs0, fs, s, s', e, j, own);
  }

  lemma OwnStays(c: Ctx, fs0: Fs, fs: Fs, s: St, s': St, e: Event, j: nat, own: bool)
    requires c.Valid() && j < c.N() && s'.preps == s.preps
    ensures BackOr(c, fs0, fs, s, j, own) ==> BackOr(c, fs0, fs, s', j, OwnNow(c, e, j, own))
  {
    hide PutsBack, Denied, Targets;
  }

  lemma PutBackLate(c: Ctx, fs0: Fs, fs: Fs, s: St, e: Event, s': St, j: nat, own: bool, ren: bool)
    requires Around(c, fs0, fs, s, e, s', j, own, ren) && (s.pc.ReloadingOld? || s.pc.Unlocking?)
    ensures PutBack(c, fs0, Effect(c.env, e, fs), s', j, OwnNow(c, e, j, own), ren)
  {
    hide Shape, Clear, Targets, BackupMap, FileInv, OwnNow, BackOr, Sort, CopyStep, StageStep, StepRestoring;
    OwnStays(c, fs0, fs, s, s', e, j, own);
  }

  /** The restore, and an error, begin with nothing put back. */
  predicate Unbegun(pc: Pc) {
    match pc
    case Restoring(i, undo, _, _, _) => i == 0 && undo == Choosing
    case DroppingTemps(_, cause) => cause.Abort?
    case ReloadingOld => false
    case Unlocking(_, out) => out.error != Some(RollbackFailed)
    case Done(out) => out.error != Some(RollbackFailed)
    case _ => true
  }

  lemma UnbegunEarly(c: Ctx, s: St, e: Event, s': St)
    requires c.Valid() && Step(c, s, e) == Some(s')
    requires Preparing(s.pc) || s.pc.BackupHead? || s.pc.BackingUp? || s.pc.DroppingBackups?
    ensures Unbegun(s'.pc)
  {
    hide Targets, Sort, Resolve, SameDigest, CopyStep, StageStep, StepRestoring;
  }

  lemma UnbegunFiles(c: Ctx, s: St, e: Event, s': St)
    requires c.Valid() && Step(c, s, e) == Some(s') && (s.pc.StagingFile? || s.pc.Validating?)
    ensures Unbegun(s'.pc)
  {
    hide Targets, TempMap, CopyStep, StageStep, StepRestoring;
  }

  lemma UnbegunLate(c: Ctx, s: St, e: Event, s': St)
    requires c.Valid() && Step(c, s, e) == Some(s')
    requires s.pc.Renaming? || s.pc.Reloading? || s.pc.Listing? || s.pc.Pruning?
    ensures Unbegun(s'.pc)
  {
    hide Targets, BackupMap, Doomed, CopyStep, StageStep, StepRestoring;
  }

  lemma PutBackBegins(c: Ctx, fs0: Fs, fs': Fs, s: St, e: Event, s': St, j: nat, own': bool, ren: bool)
    requires c.Valid() && Step(c, s, e) == Some(s') && j < c.N()
    requires !s.pc.Restoring? && !s.pc.DroppingTemps? && !s.pc.ReloadingOld? && !s.pc.Unlocking?
    ensures PutBack(c, fs0, fs', s', j, own', ren)
  {
    hide Step, Targets, BackOr;
    StepsSplit(c, s, e, s');
    if Preparing(s.pc) || s.pc.BackupHead? || s.pc.BackingUp? || s.pc.DroppingBackups? { UnbegunEarly(c, s, e, s'); }
    else if s.pc.StagingFile? || s.pc.Validating? { UnbegunFiles(c, s, e, s'); }
    else { UnbegunLate(c, s, e, s'); }
  }

  lemma NoRename(c: Ctx, s: St, e: Event, s': St)
    requires c.Valid() && Step(c, s, e) == Some(s')
    requires s.pc.DroppingTemps? || s.pc.ReloadingOld? || s.pc.Unlocking? || (s.pc.Restoring? && s.pc.i >= s.pc.upto)
    ensures !e.Rename?
  {
    hide Targets, Sort, BackupMap, CopyStep, StageStep;
  }

  lemma PutBackStep(c: Ctx, fs0: Fs, fs: Fs, s: St, e: Event, s': St, j: nat, own: bool, ren: bool)
    requires Around(c, fs0, fs, s, e, s', j, own, ren)
    ensures PutBack(c, fs0, Effect(c.env, e, fs), s', j, OwnNow(c, e, j, own), ren || SwapsIn(e, c.targets[j]))
  {
    hide Inv, Clear, Step, Effect, Enabled, Targets, BackOr, OwnNow, PutBackOut, StepRestoring, StepDroppingTemps,
      Known;
    if s.pc.Restoring? {
      StepsSplit(c, s, e, s');
      if s.pc.i >= s.pc.upto { PutBackDone(c, fs0, fs, s, e, s', j, own, ren); NoRename(c, s, e, s'); }
      else {
        RestoringGoesOn(c, s, e, s');
        if j != s.pc.i { PutBackOthers(c, fs0, fs, s, e, s', j, own, ren); }
        else if s.pc.undo.Deleting? || s.pc.undo.Swapping? { PutBackSwap(c, fs0, fs, s, e, s', j, own, ren); }
        else { PutBackWrites(c, fs0, fs, s, e, s', j, own, ren); }
      }
    } else if s.pc.DroppingTemps? {
      DroppingStep(c, s, e, s');
      PutBackDropping(c, fs0, fs, s, e, s', j, own, ren);
      NoRename(c, s, e, s');
    } else if s.pc.ReloadingOld? || s.pc.Unlocking? {
      PutBackLate(c, fs0, fs, s, e, s', j, own, ren);
      NoRename(c, s, e, s');
    } else {
      PutBackBegins(c, fs0, Effect(c.env, e, fs), s, e, s', j, OwnNow(c, e, j, own), ren || SwapsIn(e, c.targets[j]));
    }
  }

  lemma DroppingStep(c: Ctx, s: St, e: Event, s': St)
    requires c.Valid() && Step(c, s, e) == Some(s') && s.pc.DroppingTemps?
    ensures StepDroppingTemps(c, s, e) == Some(s')
  {
    hide StepDroppingTemps, Targets;
  }

  lemma {:induction false} UndoingMarks(c: Ctx, es: seq<Event>)
    requires c.Valid()
    ensures Undoing(es) <==> MarksOf(c, es).unswapped || MarksOf(c, es).unloaded
  {
    hide MarksOf, Targets, StagingBegan, Rejected, RenameRefused, Removes, OwnerUnknown, CopyFailed, StagingFailed,
      RestoreFailed, Seen, Renamed, Undoing;
    MarksMean(c, es);
    Recent(es, Internal);
  }

  /** As long as nothing is being undone, nothing is claimed after the next call either. */
  lemma UnbegunStep(c: Ctx, m: Marks, s: St, e: Event, s': St)
    requires c.Valid() && Step(c, s, e) == Some(s') && Told(c, m, s) && !m.unswapped && !m.unloaded
    ensures Unbegun(s'.pc)
  {
    hide Step, Targets;
    StepsSplit(c, s, e, s');
    NotUndoing(c, m, s);
    if Preparing(s.pc) || s.pc.BackupHead? || s.pc.BackingUp? || s.pc.DroppingBackups? { UnbegunEarly(c, s, e, s'); }
    else if s.pc.StagingFile? || s.pc.Validating? { UnbegunFiles(c, s, e, s'); }
    else if s.pc.DroppingTemps? || s.pc.Unlocking? { UnbegunEnds(c, s, e, s'); }
    else { UnbegunLate(c, s, e, s'); }
  }

  lemma NotUndoing(c: Ctx, m: Marks, s: St)
    requires Told(c, m, s) && !m.unswapped && !m.unloaded
    ensures !s.pc.Restoring? && !s.pc.ReloadingOld? && (s.pc.DroppingTemps? ==> s.pc.cause.Abort?)
    ensures s.pc.Unlocking? ==> s.pc.out.error != Some(RollbackFailed)
    ensures s.pc.DroppingTemps? ==> s.pc.cause.error != RollbackFailed
  {
  }

  lemma UnbegunEnds(c: Ctx, s: St, e: Event, s': St)
    requires c.Valid() && Step(c, s, e) == Some(s') && (s.pc.DroppingTemps? || s.pc.Unlocking?)
    requires s.pc.DroppingTemps? ==> s.pc.cause.Abort? && s.pc.cause.error != RollbackFailed
    requires s.pc.Unlocking? ==> s.pc.out.error != Some(RollbackFailed)
    ensures Unbegun(s'.pc)
  {
    hide Targets, Sort, CopyStep, StageStep, StepRestoring, BackupMap;
  }

  lemma UnbegunClaimsNothing(c: Ctx, fs0: Fs, fs: Fs, s: St, j: nat, own: bool, ren: bool)
    requires c.Valid() && j < c.N() && Unbegun(s.pc)
    ensures PutBack(c, fs0, fs, s, j, own, ren)
  {
    hide Targets, BackOr;
  }

  lemma {:induction false} PutBackReached(c: Ctx, fs0: Fs, es: seq<Event>, s: St, fs: Fs, j: nat)
    requires Reaches(c, fs0, es, s, fs) && j < c.N() && Clear(c, j)
    ensures PutBack(c, fs0, fs, s, j, OwnFailed(c.env, es, c.targets[j]), Renamed(es, c.targets[j]))
  {
    hide Step, Effect, Enabled, Inv, Known, Renamed, OwnFailed, PutBack, Clear, Told, OwnFault;
    var d := c.targets[j];
    if es == [] {
      NothingPutBack(c, fs0, j, OwnFailed(c.env, [], d), Renamed([], d));
    } else {
      var n := |es| - 1;
      var s1, fs1 := Run(c, es[..n]).value, Replay(c.env, fs0, es[..n]).value;
      var own, ren := OwnFailed(c.env, es[..n], d), Renamed(es[..n], d);
      PutBackReached(c, fs0, es[..n], s1, fs1, j);
      InvReached(c, fs0, es[..n], s1, fs1);
      KnownReached(c, fs0, es[..n], s1, fs1, j);
      ToldReached(c, fs0, es[..n], s1, fs1);
      RenamedSnoc(es[..n], es[n], d);
      OwnSnoc(c.env, es[..n], es[n], d);
      UndoingMarks(c, es[..n]);
      assert es == es[..n] + [es[n]];
      if Undoing(es[..n]) {
        PutBackStep(c, fs0, fs1, s1, es[n], s, j, own, ren);
        OwnNowIs(c, es[..n], es[n], j, own);
      } else {
        UnbegunStep(c, MarksOf(c, es[..n]), s1, es[n], s);
        UnbegunClaimsNothing(c, fs0, fs, s, j, OwnFailed(c.env, es, d), Renamed(es, d));
      }
    }
  }

  lemma OwnNowIs(c: Ctx, past: seq<Event>, e: Event, j: nat, own: bool)
    requires j < |c.targets| && Undoing(past)
    ensures OwnNow(c, e, j, own) <==> own || OwnFault(c.env, past, e, c.targets[j])
  {
    hide PutsBack, Denied;
  }

  lemma NothingPutBack(c: Ctx, fs0: Fs, j: nat, own: bool, ren: bool)
    requires c.Valid() && j < c.N()
    ensures PutBack(c, fs0, fs0, Start(), j, own, ren)
  {
  }

  lemma AbortsRestore(c: Ctx, fs0: Fs, es: seq<Event>, s: St, fs: Fs, j: nat)
    requires Reaches(c, fs0, es, s, fs) && j < c.N() && Clear(c, j) && s.pc.Done? && HonestStats(fs0, es)
    requires s.pc.out.error.Some? && s.pc.out.error.value != RollbackFailed && c.plan.retention != NO_BACKUPS
    ensures Original(fs0, fs, c.targets[j])
  {
    hide Run, Replay, Clear, Deployed;
    AllOrNothing(c, fs0, es, s, fs, j);
  }

  /** After any error, ErrRollbackFailed included, a destination for which no call of the restore
      failed is as it was if and only if it was absent, was never renamed over, or was backed up; the
      restore goes on after a failure. */
  lemma {:induction false} RestoredIff(c: Ctx, fs0: Fs, es: seq<Event>, s: St, fs: Fs, j: nat)
    requires Reaches(c, fs0, es, s, fs) && j < c.N() && Clear(c, j) && s.pc.Done? && s.pc.out.error.Some?
    requires s.pc.out.error.value == RollbackFailed ==> !OwnFailed(c.env, es, c.targets[j])
    ensures BackIff(c, fs0, es, fs, c.targets[j])
    ensures HonestStats(fs0, es) && c.plan.retention != NO_BACKUPS ==> Original(fs0, fs, c.targets[j])
  {
    hide Sibling, MadeBackup, MadeTemp, Run, Replay, Renamed, Clear, Seen, OwnFailed, Resolve, HonestStats;
    if s.pc.out.error.value != RollbackFailed {
      AbortIff(c, fs0, es, s, fs, j);
      if HonestStats(fs0, es) && c.plan.retention != NO_BACKUPS { AbortsRestore(c, fs0, es, s, fs, j); }
    } else {
      Claims(c, fs0, es, s, fs, j);
      PutBackReached(c, fs0, es, s, fs, j);
      SeenReached(c, fs0, es, s, fs);
    }
  }

  /** The entry asks for the mode and the owner the file has. A negative id asks for no chown, which
      leaves the file to the process. */
  predicate Agrees(env: Env, f: File, was: Meta) {
    && (if f.mode != 0 then f.mode == was.mode else was.mode < 0x200)
    && (f.owner != "" && f.group != "" ==>
          var u, g := env.uidOf(f.owner), env.gidOf(f.group);
          && u.Some? && g.Some?
          && (if u.value >= 0 && g.value >= 0 then was.uid == u.value && was.gid == g.value
              else was.uid == env.uid && was.gid == env.gid))
  }

  lemma ReownedIff(env: Env, f: File, defaults: Defaults, was: Node, now: Node, o: Resolved)
    requires env.root && Resolve(env, f, defaults, Some(was.meta)) == Some(o) && Placed(env, now, was.bytes, o)
    ensures now == was <==> Agrees(env, f, was.meta)
  {
    var a, b := now.meta, was.meta;
    assert now == was <==> a.mode == b.mode && a.uid == b.uid && a.gid == b.gid;
    assert a.mode == if f.mode != 0 then f.mode else b.mode % 0x200;
  }

  lemma {:induction false} PutBackInFull(c: Ctx, fs0: Fs, es: seq<Event>, s: St, fs: Fs, j: nat)
    requires Reaches(c, fs0, es, s, fs) && j < c.N() && Clear(c, j) && s.pc.Done? && s.pc.out.error.Some?
    requires s.pc.out.error.value == RollbackFailed ==> !OwnFailed(c.env, es, c.targets[j])
    requires Renamed(es, c.targets[j])
    ensures j < |s.preps| && IsBack(c, fs0, fs, c.targets[j], s.preps[j])
  {
    hide Sibling, MadeBackup, MadeTemp, Run, Replay, Renamed, Clear, OwnFailed, Resolve, Placed;
    Claims(c, fs0, es, s, fs, j);
    KnownReached(c, fs0, es, s, fs, j);
    PutBackReached(c, fs0, es, s, fs, j);
  }

  /** A destination that was renamed over and put back from its backup has its old bytes under the
      ownership the plan resolves to. As root it is the file it was, metadata included, if and only if
      the plan asks for the mode and owner it had, special mode bits counted. */
  lemma {:induction false} RestoredOwnership(c: Ctx, fs0: Fs, es: seq<Event>, s: St, fs: Fs, j: nat)
    requires Reaches(c, fs0, es, s, fs) && j < c.N() && Clear(c, j) && s.pc.Done? && s.pc.out.error.Some?
    requires s.pc.out.error.value == RollbackFailed ==> !OwnFailed(c.env, es, c.targets[j])
    requires Renamed(es, c.targets[j]) && Seen(es, c.targets[j]) && c.plan.retention != NO_BACKUPS
    ensures var d, f := c.targets[j], c.plan.files[j];
      && d in fs0 && d in fs
      && (exists o :: Resolve(c.env, f, c.plan.defaults, Some(fs0[d].meta)) == Some(o)
                      && Placed(c.env, fs[d], fs0[d].bytes, o))
      && (c.env.root ==> (fs[d] == fs0[d] <==> Agrees(c.env, f, fs0[d].meta)))
  {
    hide Sibling, MadeBackup, MadeTemp, Run, Replay, Renamed, Clear, Seen, OwnFailed, Resolve, Placed, Agrees;
    PutBackInFull(c, fs0, es, s, fs, j);
    SeenReached(c, fs0, es, s, fs);
    Claims(c, fs0, es, s, fs, j);
    var d, o := c.targets[j], s.preps[j].owner;
    assert Resolve(c.env, c.plan.files[j], c.plan.defaults, Some(fs0[d].meta)) == Some(o);
    if c.env.root { ReownedIff(c.env, c.plan.files[j], c.plan.defaults, fs0[d], fs[d], o); }
  }

  // ----- a rollback without further failures -----

  /** Every call but number `k` was answered as well as it could be. */
  ghost predicate FlawlessBut(env: Env, fs0: Fs, es: seq<Event>, k: nat) {
    forall n | 0 <= n < |es| && n != k ::
      Replay(env, fs0, es[..n]).Some? && Flawless(es[n], Replay(env, fs0, es[..n]).value)
  }

  lemma FlawlessPrefix(env: Env, fs0: Fs, es: seq<Event>, k: nat)
    requires FlawlessBut(env, fs0, es, k) && es != []
    ensures FlawlessBut(env, fs0, es[..|es| - 1], k)
  {
    hide Replay, Flawless;
    var init := es[..|es| - 1];
    assert forall n | 0 <= n < |init| :: init[..n] == es[..n] && init[n] == es[n];
  }

  /** Nothing but call `k` can have turned the deployment back. */
  lemma TurnedByOne(env: Env, fs0: Fs, es: seq<Event>, k: nat)
    requires FlawlessBut(env, fs0, es, k) && Undoing(es)
    ensures k < |es|
  {
    hide Replay;
    var e :| e in es && TurnsBack(e);
    var n :| 0 <= n < |es| && es[n] == e;
  }

  /** What a backup that is there answers. */
  lemma FetchSucceeds(c: Ctx, fs0: Fs, fs: Fs, m: Marks, s: St, e: Event, s': St)
    requires c.Valid() && Inv(c, fs0, fs, s) && Step(c, s, e) == Some(s') && AllClear(c) && Told(c, m, s)
    requires (m.unswapped || m.unloaded) && e.ReadFile? && Flawless(e, fs)
    ensures e.got.Some?
  {
    hide Targets, Step, Clear, Explains, Holds;
    ReadsWhileUndoing(c, m, s, e, s');
    assert FileInv(c, fs0, fs, s, s.pc.i);
    FetchFinds(c, fs0, fs, c.targets[s.pc.i], c.plan.files[s.pc.i], s.preps[s.pc.i]);
  }

  lemma FetchFinds(c: Ctx, fs0: Fs, fs: Fs, d: Path, f: File, p: Prep)
    requires Holds(c, fs0, fs, d, f, Some(p), View(NEW, Complete, PuttingBack(Fetching)))
    ensures p.backup.Some? && p.backup.value in fs
  {
    hide Resolve, Placed, PrepNames;
  }

  lemma StatesOfUndoing(c: Ctx, m: Marks, s: St)
    requires Told(c, m, s) && (m.unswapped || m.unloaded)
    ensures s.pc.Restoring? || s.pc.DroppingTemps? || s.pc.ReloadingOld? || s.pc.Unlocking? || s.pc.Done?
  {
  }

  lemma ReadsWhileUndoing(c: Ctx, m: Marks, s: St, e: Event, s': St)
    requires c.Valid() && Step(c, s, e) == Some(s') && Told(c, m, s) && (m.unswapped || m.unloaded) && e.ReadFile?
    ensures s.pc.Restoring? && s.pc.undo.Fetching? && s.pc.i < s.pc.upto <= c.N() == |s.preps|
    ensures s.preps[s.pc.i].backup == Some(e.path)
  {
    hide Targets, Sort, BackupMap, Told, CopyStep, StepRestoring;
    StatesOfUndoing(c, m, s);
    StepsSplit(c, s, e, s');
    if s.pc.Restoring? { ReadsInRestore(c, s, e, s'); }
  }

  lemma ReadsInRestore(c: Ctx, s: St, e: Event, s': St)
    requires c.Valid() && s.pc.Restoring? && StepRestoring(c, s, e) == Some(s') && e.ReadFile?
    ensures s.pc.undo.Fetching? && s.pc.i < s.pc.upto <= c.N() == |s.preps|
    ensures s.preps[s.pc.i].backup == Some(e.path)
  {
    hide Targets, BackupMap;
  }

  lemma {:induction false} RestoreSucceeds(c: Ctx, fs0: Fs, es: seq<Event>, s: St, fs: Fs, k: nat)
    requires Reaches(c, fs0, es, s, fs) && AllClear(c) && FlawlessBut(c.env, fs0, es, k)
    ensures !RestoreFailed(c, es)
  {
    hide Step, Effect, Enabled, Flawless, Inv, Told, Clear, Undoing;
    if es != [] {
      var n := |es| - 1;
      var s1, fs1 := Run(c, es[..n]).value, Replay(c.env, fs0, es[..n]).value;
      FlawlessPrefix(c.env, fs0, es, k);
      RestoreSucceeds(c, fs0, es[..n], s1, fs1, k);
      assert es == es[..n] + [es[n]];
      RecentFaults(c, es[..n], es[n]);
      if Undoing(es[..n]) {
        TurnedByOne(c.env, fs0, es[..n], k);
        InvReached(c, fs0, es[..n], s1, fs1);
        ToldReached(c, fs0, es[..n], s1, fs1);
        UndoingMarks(c, es[..n]);
        if es[n].ReadFile? { FetchSucceeds(c, fs0, fs1, MarksOf(c, es[..n]), s1, es[n], s); }
        FlawlessIsNoFault(c, es[..n], es[n], fs1);
      }
    }
  }

  lemma FlawlessIsNoFault(c: Ctx, past: seq<Event>, e: Event, fs: Fs)
    requires Flawless(e, fs) && (e.ReadFile? ==> e.got.Some?)
    ensures !RestoreFault(c, past, e)
  {
    hide Undoing, Deletes;
  }

  lemma {:induction false} HonestAnswers(c: Ctx, fs0: Fs, es: seq<Event>, s: St, fs: Fs, k: nat)
    requires Reaches(c, fs0, es, s, fs) && FlawlessBut(c.env, fs0, es, k) && (k < |es| ==> !es[k].Stat?)
    ensures HonestStats(fs0, es)
  {
    hide Step, Effect, Enabled, Flawless, Gathering;
    if es != [] {
      var n := |es| - 1;
      var s1, fs1 := Run(c, es[..n]).value, Replay(c.env, fs0, es[..n]).value;
      FlawlessPrefix(c.env, fs0, es, k);
      FlawlessStat(es[n], fs1);
      HonestAnswers(c, fs0, es[..n], s1, fs1, k);
      assert es == es[..n] + [es[n]];
      if es[n].Stat? {
        StatsGather(c, s1, es[n], s);
        GatheredReached(c, fs0, es[..n], s1, fs1);
      }
    }
  }

  lemma FlawlessStat(e: Event, fs: Fs)
    ensures Flawless(e, fs) && e.Stat? && e.meta.None? ==> e.path !in fs
  {
  }

  lemma StatsGather(c: Ctx, s: St, e: Event, s': St)
    requires c.Valid() && Step(c, s, e) == Some(s') && e.Stat?
    ensures Gathering(s.pc)
  {
    hide Step, Targets;
    StepsSplit(c, s, e, s');
    if s.pc.Restoring? { AsksRestoring(c, s, e, s'); }
    else if Gathering(s.pc) || s.pc.DroppingBackups? || s.pc.StagingFile? { AsksEarly(c, s, e, s'); }
    else { AsksLate(c, s, e, s'); }
  }

  /** A rollback succeeds when nothing else fails: in a finished run in which every call is answered
      as well as it can be, except one reload or one rename, the error is that of the reload or the
      rename, and every destination is as it was, or with backups off as `BackIff` says. */
  lemma {:induction false} RollbackCompletes(c: Ctx, fs0: Fs, es: seq<Event>, s: St, fs: Fs, k: nat)
    requires Reaches(c, fs0, es, s, fs) && s.pc.Done? && AllClear(c)
    requires k < |es| && TurnsBack(es[k]) && FlawlessBut(c.env, fs0, es, k)
    ensures s.pc.out.error == Some(if es[k].Rename? then RenameFailed else ReloadFailed)
    ensures forall j | 0 <= j < c.N() ::
      && BackIff(c, fs0, es, fs, c.targets[j])
      && (c.plan.retention != NO_BACKUPS ==> Original(fs0, fs, c.targets[j]))
  {
    hide Run, Replay, OwnerUnknown, CopyFailed, StagingFailed, RestoreFailed, Rejected, Clear, BackIff, FlawlessBut;
    RestoreSucceeds(c, fs0, es, s, fs, k);
    HonestAnswers(c, fs0, es, s, fs, k);
    ErrorsIff(c, fs0, es, s, fs);
    assert es[k] in es;
    forall j | 0 <= j < c.N()
      ensures BackIff(c, fs0, es, fs, c.targets[j])
      ensures c.plan.retention != NO_BACKUPS ==> Original(fs0, fs, c.targets[j])
    {
      RestoredIff(c, fs0, es, s, fs, j);
    }
  }
}
