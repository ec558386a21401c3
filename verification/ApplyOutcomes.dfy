/** When a deployment does nothing, and when it must succeed. */
module ApplyOutcomes {
  import opened Text
  import opened Paths
  import opened Data
  import opened Os
  import opened Ownership
  import opened FileOps
  import opened ApplyProtocol
  import opened ApplySafety
  import opened ApplyHooks
  import opened ApplySuccess

  // ----- idempotence -----

  /** No read of a file that was there failed, and the context was not cancelled. */
  ghost predicate Undisturbed(fs0: Fs, es: seq<Event>) {
    forall e | e in es :: Readable(fs0, e)
  }

  predicate Readable(fs0: Fs, e: Event) {
    (e.ReadFile? && e.got.None? ==> e.path !in fs0) && (e.Context? ==> e.live)
  }

  ghost predicate AllMatch(c: Ctx, fs: Fs) {
    |c.plan.files| == |c.targets| && forall j | 0 <= j < |c.targets| :: IsMatch(c, fs, c.targets[j], c.plan.files[j])
  }

  predicate SkipPath(c: Ctx, pc: Pc) {
    match pc
    case Locking(_) => true
    case Checking => true
    case Comparing(_) => true
    case Unlocking(_, out) => out == Skipped()
    case Done(out) => out == Skipped()
    case _ => false
  }

  lemma SkipComparing(c: Ctx, fs: Fs, s: St, e: Event, s': St)
    requires c.Valid() && AllMatch(c, fs) && s.pc.Comparing? && Enabled(e, fs) && StepComparing(c, s, e) == Some(s')
    requires Readable(fs, e)
    ensures SkipPath(c, s'.pc) && e.ReadFile?
  {
    hide SameDigest, Targets;
    assert IsMatch(c, fs, c.targets[s.pc.i], c.plan.files[s.pc.i]);
  }

  lemma SkipElsewhere(c: Ctx, fs: Fs, s: St, e: Event, s': St)
    requires c.Valid() && !c.plan.skipIdempotent && SkipPath(c, s.pc) && !s.pc.Comparing?
    requires Step(c, s, e) == Some(s') && Readable(fs, e)
    ensures SkipPath(c, s'.pc) && (e.Lock? || e.Unlock? || e.Context?)
  {
    hide Sort, Targets;
  }

  lemma SkipStep(c: Ctx, fs: Fs, s: St, e: Event, s': St)
    requires c.Valid() && AllMatch(c, fs) && !c.plan.skipIdempotent && SkipPath(c, s.pc)
    requires Enabled(e, fs) && Step(c, s, e) == Some(s') && Readable(fs, e)
    ensures SkipPath(c, s'.pc) && Effect(c.env, e, fs) == fs && HookOf(e) == []
  {
    hide AllMatch, SkipPath, Targets, Enabled, StepLocking, StepChecking, StepComparing, StepUnlocking;
    if s.pc.Comparing? { SkipComparing(c, fs, s, e, s'); } else { SkipElsewhere(c, fs, s, e, s'); }
  }

  /** A deployment whose contents are all in place touches nothing and calls no hook. */
  lemma {:induction false} MatchingRunSkips(c: Ctx, fs: Fs, es: seq<Event>, s: St, fs': Fs)
    requires Reaches(c, fs, es, s, fs') && AllMatch(c, fs) && !c.plan.skipIdempotent && Undisturbed(fs, es)
    ensures fs' == fs && Hooks(es) == [] && SkipPath(c, s.pc)
  {
    hide Sibling, MadeBackup, MadeTemp, Step, Enabled, Effect, AllMatch, SkipPath, HookOf;
    if es == [] {
      assert SkipPath(c, Start().pc) by { SkipStart(c); }
    } else {
      var n := |es| - 1;
      var s1, fs1 := Run(c, es[..n]).value, Replay(c.env, fs, es[..n]).value;
      MatchingRunSkips(c, fs, es[..n], s1, fs1);
      SkipStep(c, fs, s1, es[n], s);
    }
  }

  lemma SkipStart(c: Ctx)
    ensures SkipPath(c, Start().pc)
  {
  }

  /** Idempotence: after a successful deployment, an undisturbed second one of the same plan reports
      SkippedAsIdempotent, calls no hook and leaves the tree exactly as it is. */
  lemma {:induction false} ReapplyIsNoop(c: Ctx, fs0: Fs, es: seq<Event>, s: St, fs: Fs, es': seq<Event>, s': St,
      fs': Fs)
    requires Reaches(c, fs0, es, s, fs) && s.pc.Done? && s.pc.out.error.None?
    requires s.pc.out == Skipped() || forall j | 0 <= j < c.N() :: Survives(c, j)
    requires !c.plan.skipIdempotent && Reaches(c, fs, es', s', fs') && Undisturbed(fs, es')
    ensures fs' == fs && Hooks(es') == []
    ensures s'.pc.Done? ==> s'.pc.out == Skipped()
  {
    hide Sibling, MadeBackup, MadeTemp, Step, Shape, Enabled, Effect, Resolve, Run, Replay, Survives;
    forall j | 0 <= j < c.N() ensures IsMatch(c, fs, c.targets[j], c.plan.files[j]) {
      HoldingReached(c, fs0, es, s, fs, j);
    }
    MatchingRunSkips(c, fs, es', s', fs');
  }

  // ----- success without faults -----

  /** The call was answered as a healthy system answers it. */
  ghost predicate Flawless(e: Event, fs: Fs) {
    match e
    case ReadFile(p, got) => got.Some? <==> p in fs
    case Stat(p, meta) => meta.Some? <==> p in fs
    case Lock(_) => true
    case Unlock(_) => true
    case Internal => true
    case Context(live) => live
    case Remove(_, r) => !r.Refused?
    case ListBackups(_, names) => names.Some?
    case _ => e.ok
  }

  /** Every named user and group exists. */
  ghost predicate NamesResolve(c: Ctx) {
    forall f, meta | f in c.plan.files :: Resolve(c.env, f, c.plan.defaults, meta).Some?
  }

  predicate HappyPath(pc: Pc) {
    match pc
    case DroppingBackups(_) => false
    case DroppingTemps(_, _) => false
    case Restoring(_, _, _, _, _) => false
    case ReloadingOld => false
    case StagingFile(_, stage) => !stage.Discarding?
    case Unlocking(_, out) => out.error.None?
    case Done(out) => out.error.None?
    case _ => true
  }

  lemma HappyEarly(c: Ctx, fs: Fs, s: St, e: Event, s': St)
    requires c.Valid() && Step(c, s, e) == Some(s') && Flawless(e, fs) && NamesResolve(c)
    requires s.pc.Locking? || s.pc.Checking? || s.pc.Comparing? || s.pc.Statting? || s.pc.BackupHead?
    ensures HappyPath(s'.pc)
  {
    hide Sibling, MadeBackup, MadeTemp, Resolve, Sort, BackupMap, Targets, SameDigest;
    if s.pc.Statting? { assert c.plan.files[s.pc.i] in c.plan.files; }
  }

  lemma HappyLate(c: Ctx, fs: Fs, s: St, e: Event, s': St)
    requires c.Valid() && Step(c, s, e) == Some(s') && Flawless(e, fs) && HappyPath(s.pc)
    requires s.pc.Validating? || s.pc.Renaming? || s.pc.Reloading? || s.pc.Listing? || s.pc.Pruning? || s.pc.Unlocking?
    ensures HappyPath(s'.pc)
  {
    hide Sibling, MadeBackup, MadeTemp, Sort, BackupMap, TempMap, Targets, Doomed;
  }

  /** Until the first temp file is made nothing has been removed. */
  predicate Gathering(pc: Pc) {
    Preparing(pc) || pc.BackupHead? || pc.BackingUp?
  }

  lemma GatheringIsFirst(c: Ctx, s: St, e: Event, s': St)
    requires c.Valid() && Step(c, s, e) == Some(s') && Gathering(s'.pc)
    ensures Gathering(s.pc)
  {
    hide Step, Targets;
    if s.pc.Restoring? { AsksRestoring(c, s, e, s'); }
    else if Gathering(s.pc) || s.pc.DroppingBackups? || s.pc.StagingFile? { AsksEarly(c, s, e, s'); }
    else { AsksLate(c, s, e, s'); }
  }

  lemma GatheringRemovesNothing(c: Ctx, s: St, e: Event, s': St)
    requires c.Valid() && Step(c, s, e) == Some(s') && Gathering(s.pc)
    ensures !e.Remove? && !e.Rename?
  {
    hide Resolve, SameDigest, Sort, Targets, BackupMap, StageStep, StepRestoring;
  }

  lemma {:induction false} GatheredReached(c: Ctx, fs0: Fs, es: seq<Event>, s: St, fs: Fs)
    requires Reaches(c, fs0, es, s, fs) && Gathering(s.pc)
    ensures forall x | x in fs0 :: x in fs
  {
    hide Step, Gathering;
    if es != [] {
      var n := |es| - 1;
      var s1, fs1 := Run(c, es[..n]).value, Replay(c.env, fs0, es[..n]).value;
      GatheringIsFirst(c, s1, es[n], s);
      GatheringRemovesNothing(c, s1, es[n], s);
      GatheredReached(c, fs0, es[..n], s1, fs1);
    }
  }

  lemma HappyBackup(c: Ctx, fs: Fs, s: St, e: Event, s': St)
    requires c.Valid() && Step(c, s, e) == Some(s') && Flawless(e, fs) && s.pc.BackingUp?
    requires s.pc.i < c.N() && c.targets[s.pc.i] in fs
    ensures HappyPath(s'.pc)
  {
    hide Targets, Resolve, StageStep, StepRestoring, BackupPath;
  }

  lemma HappyStage(c: Ctx, fs: Fs, s: St, e: Event, s': St)
    requires c.Valid() && Step(c, s, e) == Some(s') && Flawless(e, fs) && s.pc.StagingFile? && HappyPath(s.pc)
    ensures HappyPath(s'.pc)
  {
    hide Targets, Resolve, CopyStep, StepRestoring, TempPath;
  }

  lemma {:induction false} HappyReached(c: Ctx, fs0: Fs, es: seq<Event>, s: St, fs: Fs)
    requires Reaches(c, fs0, es, s, fs) && NamesResolve(c)
    requires forall n | 0 <= n < |es| ::
      Replay(c.env, fs0, es[..n]).Some? && Flawless(es[n], Replay(c.env, fs0, es[..n]).value)
    ensures HappyPath(s.pc)
  {
    hide Step, Enabled, Effect, Flawless, NamesResolve, HappyPath, Resolve;
    if es == [] {
      HappyStart();
    } else {
      var n := |es| - 1;
      var s1, fs1 := Run(c, es[..n]).value, Replay(c.env, fs0, es[..n]).value;
      forall k | 0 <= k < n
        ensures Replay(c.env, fs0, es[..n][..k]).Some? && Flawless(es[..n][k], Replay(c.env, fs0, es[..n][..k]).value)
      {
        assert es[..n][..k] == es[..k];
      }
      HappyReached(c, fs0, es[..n], s1, fs1);
      if s1.pc.BackingUp? {
        SeenReached(c, fs0, es[..n], s1, fs1);
        ResolvedReached(c, fs0, es[..n], s1, fs1);
        GatheredReached(c, fs0, es[..n], s1, fs1);
        HappyBackup(c, fs1, s1, es[n], s);
      } else {
        HappyStep(c, fs1, s1, es[n], s);
      }
    }
  }

  lemma HappyStart()
    ensures HappyPath(Start().pc)
  {
  }

  lemma HappyStep(c: Ctx, fs: Fs, s: St, e: Event, s': St)
    requires c.Valid() && Step(c, s, e) == Some(s') && Flawless(e, fs) && HappyPath(s.pc) && NamesResolve(c)
    requires !s.pc.BackingUp?
    ensures HappyPath(s'.pc)
  {
    hide Flawless, NamesResolve;
    if s.pc.StagingFile? { HappyStage(c, fs, s, e, s'); }
    else if Preparing(s.pc) || s.pc.BackupHead? { HappyEarly(c, fs, s, e, s'); }
    else { HappyLate(c, fs, s, e, s'); }
  }

  /** Completeness: when nothing fails, both hooks pass and all names resolve, Apply returns no error,
      and every destination is deployed or already matched. */
  lemma {:induction false} FaultFreeSucceeds(c: Ctx, fs0: Fs, es: seq<Event>, s: St, fs: Fs, j: nat)
    requires Reaches(c, fs0, es, s, fs) && NamesResolve(c) && s.pc.Done? && j < c.N()
    requires forall n | 0 <= n < |es| ::
      Replay(c.env, fs0, es[..n]).Some? && Flawless(es[n], Replay(c.env, fs0, es[..n]).value)
    ensures s.pc.out.error.None?
    ensures s.pc.out == Skipped() ==> IsMatch(c, fs, c.targets[j], c.plan.files[j])
    ensures s.pc.out != Skipped() && Survives(c, j) ==>
      c.targets[j] in fs && fs[c.targets[j]].bytes == c.plan.files[j].bytes
  {
    hide Sibling, MadeBackup, MadeTemp, Step, Enabled, Effect, Flawless, NamesResolve, Shape, Resolve, Replay, Run,
      Survives, Clear;
    HappyReached(c, fs0, es, s, fs);
    HoldingReached(c, fs0, es, s, fs, j);
  }
}
