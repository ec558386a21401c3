/** The validate and reload hooks: how often they run, on what, and how the result flags tell. */
module ApplyHooks {
  import opened Text
  import opened Paths
  import opened Data
  import opened Os
  import opened Ownership
  import opened FileOps
  import opened ApplyProtocol
  import opened ApplySafety
  import opened ApplyTheorems

  datatype Hook = Validate(ok: bool) | Reload(ok: bool)

  function HookOf(e: Event): seq<Hook> {
    match e
    case PreCommit(_, ok) => [Validate(ok)]
    case PostCommit(ok) => [Reload(ok)]
    case _ => []
  }

  /** The hook calls of a run, in order. */
  function Hooks(es: seq<Event>): seq<Hook> {
    if es == [] then [] else Hooks(es[..|es| - 1]) + HookOf(es[|es| - 1])
  }

  function Validated(c: Ctx): seq<Hook> {
    if c.plan.hasPre then [Validate(true)] else []
  }

  function Reloaded(c: Ctx): seq<Hook> {
    if c.plan.hasPost then [Reload(true)] else []
  }

  /** The hook calls that lead to an outcome. Only ErrRollbackFailed has several histories. */
  predicate Explains(c: Ctx, out: Outcome, hs: seq<Hook>) {
    match out.error
    case None => if out == Skipped() then hs == [] else hs == Validated(c) + Reloaded(c)
    case Some(error) =>
      match error
      case ValidateFailed => c.plan.hasPre && hs == [Validate(false)]
      case RenameFailed => hs == Validated(c)
      case ReloadFailed => c.plan.hasPost && hs == Validated(c) + [Reload(false), Reload(true)]
      case RollbackFailed =>
        || hs == Validated(c)
        || (c.plan.hasPost && hs == Validated(c) + [Reload(false)])
        || (c.plan.hasPost && hs == Validated(c) + [Reload(false), Reload(false)])
      case _ => hs == []
  }

  /** The flags are a function of the error: what each of them reports. */
  predicate FlagsTell(c: Ctx, out: Outcome) {
    out.result.Some? ==>
      var r := out.result.value;
      && (r.skipped <==> out == Skipped())
      && (r.validateOk <==> !r.skipped)
      && (r.reloaded <==> out.error.None? && !r.skipped)
      && (r.rolledBack <==> out.error == Some(ReloadFailed))
  }

  predicate SoFar(c: Ctx, pc: Pc, hs: seq<Hook>) {
    match pc
    case DroppingTemps(_, cause) =>
      (match cause
       case Abort(error) => if error == ValidateFailed then c.plan.hasPre && hs == [Validate(false)] else hs == []
       case Partial(_, _) => hs == Validated(c))
    case Validating => c.plan.hasPre && hs == []
    case Renaming(_) => hs == Validated(c)
    case Reloading => c.plan.hasPost && hs == Validated(c)
    case Restoring(_, _, _, _, reload) =>
      if reload then c.plan.hasPost && hs == Validated(c) + [Reload(false)] else hs == Validated(c)
    case ReloadingOld => c.plan.hasPost && hs == Validated(c) + [Reload(false)]
    case Listing(_) => hs == Validated(c) + Reloaded(c)
    case Pruning(_, _) => hs == Validated(c) + Reloaded(c)
    case Unlocking(_, out) => Explains(c, out, hs) && FlagsTell(c, out)
    case Done(out) => Explains(c, out, hs) && FlagsTell(c, out)
    case _ => hs == []
  }

  lemma HooksEarly(c: Ctx, s: St, e: Event, s': St)
    requires c.Valid() && Shape(c, s) && Step(c, s, e) == Some(s') && SoFar(c, s.pc, [])
    requires s.pc.Locking? || s.pc.Checking? || s.pc.Comparing? || s.pc.Statting? || s.pc.BackupHead?
          || s.pc.DroppingBackups?
    ensures SoFar(c, s'.pc, HookOf(e))
  {
    hide Sibling, MadeBackup, MadeTemp, Resolve, BackupMap, Sort, SameDigest, Targets;
  }

  lemma HooksFiles(c: Ctx, s: St, e: Event, s': St)
    requires c.Valid() && Shape(c, s) && Step(c, s, e) == Some(s') && SoFar(c, s.pc, [])
    requires s.pc.BackingUp? || s.pc.StagingFile?
    ensures SoFar(c, s'.pc, HookOf(e))
  {
    hide Sibling, MadeBackup, MadeTemp, Targets, PrepNames;
  }

  lemma HooksCommit(c: Ctx, s: St, e: Event, s': St, hs: seq<Hook>)
    requires c.Valid() && Shape(c, s) && Step(c, s, e) == Some(s') && SoFar(c, s.pc, hs)
    requires s.pc.Validating? || s.pc.Renaming? || s.pc.DroppingTemps?
    ensures SoFar(c, s'.pc, hs + HookOf(e))
  {
    hide Step, Shape, Targets, SoFar, HookOf;
    if s.pc.Validating? { HooksValidating(c, s, e, s', hs); }
    else if s.pc.Renaming? { HooksRenaming(c, s, e, s', hs); }
    else { HooksDropping(c, s, e, s', hs); }
  }

  lemma HooksValidating(c: Ctx, s: St, e: Event, s': St, hs: seq<Hook>)
    requires s.pc.Validating? && c.Valid() && Step(c, s, e) == Some(s') && SoFar(c, s.pc, hs)
    ensures SoFar(c, s'.pc, hs + HookOf(e))
  {
    hide TempMap, Targets, StageStep, CopyStep, StepRestoring;
  }

  lemma HooksRenaming(c: Ctx, s: St, e: Event, s': St, hs: seq<Hook>)
    requires s.pc.Renaming? && c.Valid() && Step(c, s, e) == Some(s') && SoFar(c, s.pc, hs)
    ensures SoFar(c, s'.pc, hs + HookOf(e))
  {
    hide BackupMap, Targets, StageStep, CopyStep, StepRestoring;
    assert hs + [] == hs && Validated(c) + [] == Validated(c);
  }

  lemma HooksDropping(c: Ctx, s: St, e: Event, s': St, hs: seq<Hook>)
    requires s.pc.DroppingTemps? && c.Valid() && Shape(c, s) && Step(c, s, e) == Some(s') && SoFar(c, s.pc, hs)
    ensures SoFar(c, s'.pc, hs + HookOf(e))
  {
    hide Sibling, MadeBackup, MadeTemp, BackupMap, Targets, PrepNames, StageStep, CopyStep, StepRestoring;
    assert hs + [] == hs;
  }

  lemma HooksReload(c: Ctx, s: St, e: Event, s': St, hs: seq<Hook>)
    requires c.Valid() && Shape(c, s) && Step(c, s, e) == Some(s') && SoFar(c, s.pc, hs)
    requires s.pc.Reloading? || s.pc.ReloadingOld?
    ensures SoFar(c, s'.pc, hs + HookOf(e))
  {
    hide Shape, BackupMap, Targets, StageStep, CopyStep, StepRestoring;
    assert hs + HookOf(e) == hs + [Reload(e.ok)];
    assert forall x: Hook, y: Hook :: Validated(c) + [x] + [y] == Validated(c) + [x, y];
  }

  lemma HooksRestoring(c: Ctx, s: St, e: Event, s': St, hs: seq<Hook>)
    requires c.Valid() && Shape(c, s) && s.pc.Restoring? && StepRestoring(c, s, e) == Some(s') && SoFar(c, s.pc, hs)
    ensures SoFar(c, s'.pc, hs + HookOf(e))
  {
    hide Sibling, MadeBackup, MadeTemp, BackupMap, Targets, PrepNames;
    assert hs + [] == hs;
    if s.pc.i < s.pc.upto { RestoringGoesOn(c, s, e, s'); }
  }

  lemma HooksLate(c: Ctx, s: St, e: Event, s': St, hs: seq<Hook>)
    requires c.Valid() && Shape(c, s) && Step(c, s, e) == Some(s') && SoFar(c, s.pc, hs)
    requires s.pc.Listing? || s.pc.Pruning? || s.pc.Unlocking?
    ensures SoFar(c, s'.pc, hs + HookOf(e))
  {
    hide Shape, SoFar, Explains, Targets, BackupMap, Sort, Doomed;
    HooksAreOver(c, s, e, s');
    assert hs + [] == hs;
    if s.pc.Unlocking? { OutcomeStays(c, s, s', hs); } else { SuccessIsExplained(c, s, s', hs); }
  }

  /** Pruning and unlocking call no hook; they go on, or end in the outcome already decided. */
  lemma HooksAreOver(c: Ctx, s: St, e: Event, s': St)
    requires c.Valid() && Step(c, s, e) == Some(s') && (s.pc.Listing? || s.pc.Pruning? || s.pc.Unlocking?)
    ensures HookOf(e) == []
    ensures s.pc.Unlocking? ==> (s'.pc.Unlocking? || s'.pc.Done?) && s'.pc.out == s.pc.out
    ensures !s.pc.Unlocking? ==>
      s'.pc.Listing? || s'.pc.Pruning? || (s'.pc.Unlocking? && s'.pc.out == Report(c, s.preps, None, true, false))
  {
    hide Targets, BackupMap, Sort, Doomed, AfterStage, AfterCopy, StepRestoring, Report;
  }

  lemma OutcomeStays(c: Ctx, s: St, s': St, hs: seq<Hook>)
    requires SoFar(c, s.pc, hs) && s.pc.Unlocking? && (s'.pc.Unlocking? || s'.pc.Done?) && s'.pc.out == s.pc.out
    ensures SoFar(c, s'.pc, hs)
  {
  }

  lemma SuccessIsExplained(c: Ctx, s: St, s': St, hs: seq<Hook>)
    requires SoFar(c, s.pc, hs) && (s.pc.Listing? || s.pc.Pruning?)
    requires s'.pc.Listing? || s'.pc.Pruning?
        || (s'.pc.Unlocking? && s'.pc.out == Report(c, s.preps, None, true, false))
    ensures SoFar(c, s'.pc, hs)
  {
    hide BackupMap;
  }

  lemma HooksStep(c: Ctx, s: St, e: Event, s': St, hs: seq<Hook>)
    requires c.Valid() && Shape(c, s) && Step(c, s, e) == Some(s') && SoFar(c, s.pc, hs)
    ensures SoFar(c, s'.pc, hs + HookOf(e))
  {
    hide Sibling, MadeBackup, MadeTemp, Shape, HookOf;
    if s.pc.Restoring? { HooksRestoring(c, s, e, s', hs); }
    else if s.pc.Reloading? || s.pc.ReloadingOld? { HooksReload(c, s, e, s', hs); }
    else if s.pc.Listing? || s.pc.Pruning? || s.pc.Unlocking? { HooksLate(c, s, e, s', hs); }
    else if s.pc.Validating? || s.pc.Renaming? || s.pc.DroppingTemps? { HooksCommit(c, s, e, s', hs); }
    else {
      assert hs + HookOf(e) == HookOf(e);
      if s.pc.BackingUp? || s.pc.StagingFile? { HooksFiles(c, s, e, s'); } else { HooksEarly(c, s, e, s'); }
    }
  }

  lemma {:induction false} HooksReached(c: Ctx, fs0: Fs, es: seq<Event>, s: St, fs: Fs)
    requires Reaches(c, fs0, es, s, fs)
    ensures Shape(c, s) && SoFar(c, s.pc, Hooks(es))
  {
    hide Sibling, MadeBackup, MadeTemp, Step, Shape, SoFar, Enabled, Effect;
    if es == [] {
      HooksStart(c);
    } else {
      var n := |es| - 1;
      var s1, fs1 := Run(c, es[..n]).value, Replay(c.env, fs0, es[..n]).value;
      HooksReached(c, fs0, es[..n], s1, fs1);
      ShapeStep(c, s1, es[n], s, fs1);
      HooksStep(c, s1, es[n], s, Hooks(es[..n]));
    }
  }

  lemma HooksStart(c: Ctx)
    requires c.Valid()
    ensures Shape(c, Start()) && SoFar(c, Start().pc, [])
  {
    hide Sibling, MadeBackup, MadeTemp;
  }

  /** The only hook histories there are: the validate hook runs at most once, the reload hook at
      most twice and only after validation passed, and a second reload follows a failed first one. */
  predicate Possible(c: Ctx, hs: seq<Hook>) {
    var v := Validated(c);
    || hs == [] || (c.plan.hasPre && hs == [Validate(false)]) || hs == v
    || (c.plan.hasPost && (hs == v + [Reload(true)] || hs == v + [Reload(false)]
        || hs == v + [Reload(false), Reload(true)] || hs == v + [Reload(false), Reload(false)]))
  }

  /** Hook protocol, at every point of every run. When Apply returns, the error names the hook calls
      made, and the flags follow from the error; Reloaded and RolledBack are never both set. */
  lemma {:induction false} HookProtocol(c: Ctx, fs0: Fs, es: seq<Event>, s: St, fs: Fs)
    requires Reaches(c, fs0, es, s, fs)
    ensures Possible(c, Hooks(es))
    ensures s.pc.Done? ==> Explains(c, s.pc.out, Hooks(es)) && FlagsTell(c, s.pc.out)
  {
    hide Sibling, MadeBackup, MadeTemp, Step, Shape, Run, Replay, Hooks;
    HooksReached(c, fs0, es, s, fs);
    assert Validated(c) + [] == Validated(c);
  }

  lemma ValidationPrecedesPruning(c: Ctx, pc: Pc, hs: seq<Hook>)
    requires SoFar(c, pc, hs) && c.plan.hasPre && Validate(true) !in hs
    ensures !PruningBegan(pc)
  {
    assert forall rest: seq<Hook> :: ([Validate(true)] + rest)[0] == Validate(true);
  }

  /** Without a passed validation the hook history leaves no view but the untouched one. */
  lemma OnlyOldViews(c: Ctx, pc: Pc, hs: seq<Hook>, j: nat)
    requires j < |c.plan.files| && SoFar(c, pc, hs) && c.plan.hasPre && Validate(true) !in hs
    requires pc.Done? || pc.Unlocking? ==> Sensible(pc.out)
    ensures ViewOf(c, pc, j).dest == OLD
  {
    assert forall rest: seq<Hook> :: ([Validate(true)] + rest)[0] == Validate(true);
  }

  /** Nothing is exposed unvalidated: as long as the validate hook has not passed, no destination
      has changed. */
  lemma {:induction false} OldUntilValidated(c: Ctx, fs0: Fs, es: seq<Event>, s: St, fs: Fs, j: nat)
    requires Reaches(c, fs0, es, s, fs) && j < c.N() && Clear(c, j)
    requires c.plan.hasPre && Validate(true) !in Hooks(es)
    ensures Same(fs0, fs, c.targets[j])
  {
    hide Sibling, MadeBackup, MadeTemp, Step, Shape, Resolve, SoFar, PruningBegan, Clear, Run, Replay, ViewOf,
      SavedHolds, WorkHolds, PrepHolds;
    HooksReached(c, fs0, es, s, fs);
    ValidationPrecedesPruning(c, s.pc, Hooks(es));
    Claims(c, fs0, es, s, fs, j);
    OnlyOldViews(c, s.pc, Hooks(es), j);
  }

  lemma {:induction false} TempMapAt(ts: seq<Path>, preps: seq<Prep>, j: nat)
    requires |preps| <= |ts| && j < |preps| && Distinct(ts)
    requires forall k | 0 <= k < |preps| :: preps[k].temp.Some?
    ensures ts[j] in TempMap(ts, preps) && TempMap(ts, preps)[ts[j]] == preps[j].temp.value
  {
    var n := |preps| - 1;
    if j < n { TempMapAt(ts, preps[..n], j); }
  }

  /** The validate hook sees, for every destination, a temp file with the complete planned bytes and
      the resolved ownership, while the destination itself is still untouched. */
  lemma ValidateSees(c: Ctx, fs0: Fs, es: seq<Event>, s: St, fs: Fs, e: Event, s': St, j: nat)
    requires Reaches(c, fs0, es, s, fs) && j < c.N() && Clear(c, j) && HonestStats(fs0, es)
    requires e.PreCommit? && Step(c, s, e) == Some(s')
    ensures var d, f := c.targets[j], c.plan.files[j];
      && Same(fs0, fs, d)
      && d in e.temps && e.temps[d] in fs && IsTempOf(d, e.temps[d])
      && var o := Resolve(c.env, f, c.plan.defaults, if d in fs0 then Some(fs0[d].meta) else None);
         o.Some? && Placed(c.env, fs[e.temps[d]], f.bytes, o.value)
  {
    hide Sibling, MadeBackup, MadeTemp, Resolve, Placed, Step, Shape, Run, Replay;
    OnlyValidatingCallsPre(c, s, e, s');
    HooksReached(c, fs0, es, s, fs);
    Claims(c, fs0, es, s, fs, j);
    ValidateGets(c, s, e, s', j);
  }

  lemma ValidateGets(c: Ctx, s: St, e: Event, s': St, j: nat)
    requires c.Valid() && Shape(c, s) && s.pc.Validating? && StepValidating(c, s, e) == Some(s') && j < c.N()
    ensures j < |s.preps| && s.preps[j].temp.Some? && c.targets[j] in e.temps
    ensures e.temps[c.targets[j]] == s.preps[j].temp.value
  {
    hide Sibling, MadeBackup, MadeTemp, PrepNames;
    TargetsIff(c.env, c.plan.files);
    TempMapAt(c.targets, s.preps, j);
  }

  lemma OnlyValidatingCallsPre(c: Ctx, s: St, e: Event, s': St)
    requires c.Valid() && Step(c, s, e) == Some(s')
    ensures e.PreCommit? ==> s.pc.Validating? && StepValidating(c, s, e) == Some(s')
    ensures e.PostCommit? ==> s.pc.Reloading? || s.pc.ReloadingOld?
  {
    hide BackupMap, TempMap, Sort, Targets, Doomed, Resolve, SameDigest;
  }

  lemma WhichReload(c: Ctx, pc: Pc, hs: seq<Hook>)
    requires (pc.Reloading? || pc.ReloadingOld?) && SoFar(c, pc, hs)
    ensures Reload(false) in hs <==> pc.ReloadingOld?
  {
    var v := Validated(c);
    if pc.ReloadingOld? { assert hs[|v|] == Reload(false); }
  }

  lemma AroundReload(c: Ctx, fs0: Fs, es: seq<Event>, s: St, fs: Fs, j: nat)
    requires Reaches(c, fs0, es, s, fs) && j < c.N() && Clear(c, j) && (s.pc.Reloading? || s.pc.ReloadingOld?)
    requires HonestStats(fs0, es) && c.plan.retention != NO_BACKUPS
    ensures if s.pc.ReloadingOld? then Original(fs0, fs, c.targets[j])
            else Deployed(c, fs0, fs, c.targets[j], c.plan.files[j])
  {
    hide Sibling, MadeBackup, MadeTemp, Resolve, Shape, Step, Run, Replay, Clear, Spared, HonestStats;
    Claims(c, fs0, es, s, fs, j);
  }

  /** The first reload sees every destination deployed; the second sees all of them restored. */
  lemma {:induction false} ReloadSees(c: Ctx, fs0: Fs, es: seq<Event>, s: St, fs: Fs, e: Event, s': St, j: nat)
    requires Reaches(c, fs0, es, s, fs) && j < c.N() && Clear(c, j)
    requires HonestStats(fs0, es) && c.plan.retention != NO_BACKUPS
    requires e.PostCommit? && Step(c, s, e) == Some(s')
    ensures if Reload(false) in Hooks(es) then Original(fs0, fs, c.targets[j])
            else Deployed(c, fs0, fs, c.targets[j], c.plan.files[j])
  {
    hide Resolve, Shape, Step, Run, Replay, Clear, HonestStats, Original, Deployed, SoFar;
    OnlyValidatingCallsPre(c, s, e, s');
    HooksReached(c, fs0, es, s, fs);
    WhichReload(c, s.pc, Hooks(es));
    AroundReload(c, fs0, es, s, fs, j);
  }
}
