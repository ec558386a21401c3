/** The promises of Apply, each with the plans it is true of: in both directions, over every tree
    and every run. */
module Exactness {
  import opened Paths
  import opened Data
  import opened Os
  import opened Ownership
  import opened ApplyProtocol
  import opened ApplySafety
  import opened ApplyTheorems
  import opened ApplyHooks
  import opened ApplyOutcomes
  import opened ApplyAborts
  import opened ApplySuccess
  import opened Runs
  import opened Lookalikes

  ghost predicate AllSurvive(c: Ctx) {
    forall j | 0 <= j < |c.targets| :: Survives(c, j)
  }

  ghost predicate AllSpared(c: Ctx) {
    forall j | 0 <= j < |c.targets| :: Spared(c, j)
  }

  // ----- success -----

  /** A nil error from a deployment that was not skipped. */
  ghost predicate Succeeded(c: Ctx, fs0: Fs, es: seq<Event>, s: St, fs: Fs) {
    Reaches(c, fs0, es, s, fs) && s.pc.Done? && s.pc.out.error.None? && s.pc.out != Skipped()
  }

  ghost predicate HoldsPlan(c: Ctx, fs: Fs)
    requires c.Valid()
  {
    forall j | 0 <= j < c.N() :: c.targets[j] in fs && fs[c.targets[j]].bytes == c.plan.files[j].bytes
  }

  /** A plan with a name that does not survive has a successful run that loses a destination. */
  lemma {:induction false} LosesOne(c: Ctx) returns (fs0: Fs, es: seq<Event>, s: St, fs: Fs)
    requires c.Valid() && NamesResolve(c) && !AllSurvive(c)
    ensures Succeeded(c, fs0, es, s, fs) && !HoldsPlan(c, fs) && AllBut(es, Absences(c, fs0))
  {
    hide Sibling, MadeBackup, Reaches, Targets, TempPath, Absences, Granted, Strangers;
    if i, j :| 0 <= i < j < c.N() && MadeTemp(c.targets[j], c.targets[i]) {
      var at: Nanos :| c.targets[i] == TempPath(c.targets[j], at);
      fs0 := map[];
      es, s, fs := TempLookalikeLost(c, i, j, at);
    } else {
      var i, j :| 0 <= i < c.N() && 0 <= j < c.N() && i != j && c.Keep() > 0 && IsBackupOf(c.targets[i], c.targets[j]);
      var q;
      q, es, s, fs := BackupLookalikeLost(c, i, j);
      fs0 := Strangers(c, q);
    }
  }

  /** Success, exactly: a nil error means that every destination holds its planned bytes if and only
      if no destination has a temp name of a later one and none, with pruning on, a name that the
      backup prefix of another one matches. */
  lemma SuccessIff(c: Ctx)
    requires c.Valid() && NamesResolve(c)
    ensures (forall fs0, es, s, fs | Succeeded(c, fs0, es, s, fs) :: HoldsPlan(c, fs)) <==> AllSurvive(c)
  {
    hide Survives, Reaches, Targets, NamesResolve, Absences, AllBut;
    if AllSurvive(c) {
      forall fs0: Fs, es: seq<Event>, s: St, fs: Fs | Succeeded(c, fs0, es, s, fs) ensures HoldsPlan(c, fs) {
        forall j | 0 <= j < c.N() ensures c.targets[j] in fs && fs[c.targets[j]].bytes == c.plan.files[j].bytes {
          SuccessDeploys(c, fs0, es, s, fs, j);
        }
      }
    } else {
      var fs0, es, s, fs := LosesOne(c);
    }
  }

  // ----- failure -----

  /** What a run leaves of a destination that did not exist before. */
  ghost predicate Appeared(c: Ctx, fs0: Fs, fs: Fs) {
    exists j | 0 <= j < |c.targets| :: c.targets[j] !in fs0 && c.targets[j] in fs
  }

  lemma HonestBut(c: Ctx, fs0: Fs, es: seq<Event>, faults: set<Event>)
    requires AllBut(es, Absences(c, fs0) + faults) && forall e | e in faults :: !e.Stat?
    ensures HonestStats(fs0, es)
  {
  }

  lemma FindHandled(c: Ctx) returns (i: nat, j: nat)
    requires c.Valid() && !AllClear(c)
    ensures i < c.N() && j < c.N() && i != j
    ensures MadeTemp(c.targets[i], c.targets[j])
         || (c.plan.retention != NO_BACKUPS && MadeBackup(c.targets[i], c.targets[j]))
  {
    hide Targets, MadeTemp, MadeBackup;
    TargetsIff(c.env, c.plan.files);
    var k: nat :| k < c.N() && !Clear(c, k);
    if m: nat :| m < c.N() && m != k && Handles(c, c.targets[m], c.targets[k]) {
      i, j := m, k;
    } else {
      var m: nat :| m < c.N() && m != k && Handles(c, c.targets[k], c.targets[m]);
      i, j := k, m;
    }
  }

  /** A plan in which one destination has a temp or backup name of another has a run that stops
      before the first rename, or ends in ErrTempFailed, and has made a destination appear. */
  lemma {:induction false} MakesAppear(c: Ctx)
      returns (fs0: Fs, es: seq<Event>, s: St, fs: Fs, es': seq<Event>, s': St, fs': Fs)
    requires c.Valid() && NamesResolve(c) && !AllClear(c)
    ensures Reaches(c, fs0, es, s, fs) && s.pc == DroppingTemps(0, Abort(TempFailed))
    ensures Appeared(c, fs0, fs) && HonestStats(fs0, es)
    ensures Reaches(c, fs0, es', s', fs') && s'.pc == Done(Fail(TempFailed))
    ensures Appeared(c, fs0, fs') && HonestStats(fs0, es')
  {
    hide Sibling, Reaches, Targets, TempPath, BackupPath, Absences, Granted, HonestStats;
    TargetsIff(c.env, c.plan.files);
    var i, j := FindHandled(c);
    var ps, n, at: Nanos, faults := [], 0, 0, {};
    if MadeTemp(c.targets[i], c.targets[j]) {
      at :| c.targets[j] == TempPath(c.targets[i], at);
      fs0, n, faults := map[], i, StagingFaults(c, i, at);
      es, ps, fs := TempLeftBehind(c, i, at);
      forall k | 0 <= k < n ensures c.targets[j] != TempPath(c.targets[k], at) { TempsDiffer(c, k, i, at, at); }
    } else {
      at :| c.targets[j] == BackupPath(c.targets[i], at);
      fs0, faults := Old(c, i), {CreateTemp(c.targets[0], at, false)};
      es, ps, fs := BackupLeftBehind(c, i, at);
    }
    s, s' := St(DroppingTemps(0, Abort(TempFailed)), ps), St(Done(Fail(TempFailed)), ps);
    es', fs' := Withdraws(c, fs0, es, ps, fs, 0, n, at, Absences(c, fs0) + faults);
    HonestBut(c, fs0, es, faults);
    HonestBut(c, fs0, es', faults);
  }

  ghost predicate Untouched(c: Ctx, fs0: Fs, fs: Fs) {
    forall j | 0 <= j < |c.targets| :: Same(fs0, fs, c.targets[j])
  }

  /** Before the first rename, exactly: no destination has changed, in whatever state a run stops,
      if and only if no destination has a temp or backup name of another. */
  lemma UntouchedIff(c: Ctx)
    requires c.Valid() && NamesResolve(c)
    ensures (forall fs0, es, s, fs | Reaches(c, fs0, es, s, fs) && Uncommitted(s.pc) :: Untouched(c, fs0, fs)) <==>
        AllClear(c)
  {
    hide Clear, Reaches, Targets, NamesResolve, HonestStats;
    if AllClear(c) {
      forall fs0: Fs, es: seq<Event>, s: St, fs: Fs | Reaches(c, fs0, es, s, fs) && Uncommitted(s.pc)
        ensures Untouched(c, fs0, fs)
      {
        forall j | 0 <= j < c.N() ensures Same(fs0, fs, c.targets[j]) { BeforeRenames(c, fs0, es, s, fs, j); }
      }
    } else {
      var fs0, es, s, fs, es', s', fs' := MakesAppear(c);
    }
  }

  lemma BeforeRenames(c: Ctx, fs0: Fs, es: seq<Event>, s: St, fs: Fs, j: nat)
    requires Reaches(c, fs0, es, s, fs) && Uncommitted(s.pc) && j < c.N() && Clear(c, j)
    ensures Same(fs0, fs, c.targets[j])
  {
    hide Sibling, MadeBackup, MadeTemp, Shape, Resolve, Step, Clear, Spared, Run, Replay;
    Claims(c, fs0, es, s, fs, j);
  }

  ghost predicate AllConsistent(c: Ctx, fs0: Fs, fs: Fs, pc: Pc)
    requires c.Valid()
  {
    forall j | 0 <= j < c.N() :: Consistent(c, fs0, fs, pc, c.targets[j], c.plan.files[j], j)
  }

  /** Crash consistency, exactly: with backups on and a truthful Stat, every destination is consistent
      wherever a run stops before pruning if and only if no destination has a temp or backup name of
      another. */
  lemma CrashConsistencyIff(c: Ctx)
    requires c.Valid() && NamesResolve(c) && c.plan.retention != NO_BACKUPS
    ensures (forall fs0, es, s, fs | Reaches(c, fs0, es, s, fs) && HonestStats(fs0, es) && !PruningBegan(s.pc) ::
               AllConsistent(c, fs0, fs, s.pc)) <==> AllClear(c)
  {
    hide Clear, Reaches, Targets, NamesResolve, HonestStats, Deployed, Recoverable, Original;
    if AllClear(c) {
      forall fs0: Fs, es: seq<Event>, s: St, fs: Fs
        | Reaches(c, fs0, es, s, fs) && HonestStats(fs0, es) && !PruningBegan(s.pc)
        ensures AllConsistent(c, fs0, fs, s.pc)
      {
        forall j | 0 <= j < c.N() ensures Consistent(c, fs0, fs, s.pc, c.targets[j], c.plan.files[j], j) {
          CrashConsistency(c, fs0, es, s, fs, j);
        }
      }
    } else {
      var fs0, es, s, fs, es', s', fs' := MakesAppear(c);
      assert !AllConsistent(c, fs0, fs, s.pc);
    }
  }

  /** Nothing exposed unvalidated, exactly. */
  lemma OldUntilValidatedIff(c: Ctx)
    requires c.Valid() && NamesResolve(c) && c.plan.hasPre
    ensures (forall fs0, es, s, fs | Reaches(c, fs0, es, s, fs) && Validate(true) !in Hooks(es) ::
        Untouched(c, fs0, fs))
            <==> AllClear(c)
  {
    hide Clear, Reaches, Targets, NamesResolve, HonestStats, Shape;
    if AllClear(c) {
      forall fs0: Fs, es: seq<Event>, s: St, fs: Fs | Reaches(c, fs0, es, s, fs) && Validate(true) !in Hooks(es)
        ensures Untouched(c, fs0, fs)
      {
        forall j | 0 <= j < c.N() ensures Same(fs0, fs, c.targets[j]) { OldUntilValidated(c, fs0, es, s, fs, j); }
      }
    } else {
      var fs0, es, s, fs, es', s', fs' := MakesAppear(c);
      HooksReached(c, fs0, es, s, fs);
    }
  }

  /** An error other than ErrRollbackFailed. */
  ghost predicate Aborted(c: Ctx, fs0: Fs, es: seq<Event>, s: St, fs: Fs) {
    Reaches(c, fs0, es, s, fs) && s.pc.Done? && s.pc.out.error.Some? && s.pc.out.error.value != RollbackFailed
  }

  ghost predicate BackAsTold(c: Ctx, fs0: Fs, es: seq<Event>, fs: Fs) {
    forall j | 0 <= j < |c.targets| :: BackIff(c, fs0, es, fs, c.targets[j])
  }

  ghost predicate AllOriginal(c: Ctx, fs0: Fs, fs: Fs) {
    forall j | 0 <= j < |c.targets| :: Original(fs0, fs, c.targets[j])
  }

  /** Failure, exactly: what AbortIff tells of an aborted deployment is true of every run if and only
      if no destination has a temp or backup name of another. */
  lemma AbortExactIff(c: Ctx)
    requires c.Valid() && NamesResolve(c)
    ensures (forall fs0, es, s, fs | Aborted(c, fs0, es, s, fs) :: BackAsTold(c, fs0, es, fs)) <==> AllClear(c)
  {
    hide Clear, Reaches, Targets, NamesResolve, HonestStats, Renamed, Seen;
    if AllClear(c) {
      forall fs0: Fs, es: seq<Event>, s: St, fs: Fs | Aborted(c, fs0, es, s, fs) ensures BackAsTold(c, fs0, es, fs) {
        forall j | 0 <= j < c.N() ensures BackIff(c, fs0, es, fs, c.targets[j]) { AbortIff(c, fs0, es, s, fs, j); }
      }
    } else {
      var fs0, es, s, fs, es', s', fs' := MakesAppear(c);
      assert Aborted(c, fs0, es', s', fs') && !BackAsTold(c, fs0, es', fs');
    }
  }

  /** Both outcomes of a run in which Stat told the truth. */
  ghost predicate AllOrNone(c: Ctx, fs0: Fs, es: seq<Event>, s: St, fs: Fs)
    requires c.Valid()
  {
    && (Succeeded(c, fs0, es, s, fs) ==> HoldsPlan(c, fs))
    && (Aborted(c, fs0, es, s, fs) ==> AllOriginal(c, fs0, fs))
  }

  /** All or nothing, exactly: with backups on and a truthful Stat, every success has deployed every
      file and every error but ErrRollbackFailed has left every file as it was, if and only if no
      destination has a temp or backup name of another and pruning takes none for a backup. */
  lemma AllOrNothingIff(c: Ctx)
    requires c.Valid() && NamesResolve(c) && c.plan.retention != NO_BACKUPS
    ensures (forall fs0, es, s, fs | Reaches(c, fs0, es, s, fs) && HonestStats(fs0, es) :: AllOrNone(c, fs0, es, s, fs))
            <==> AllClear(c) && AllSpared(c)
  {
    hide Reaches, Targets, NamesResolve, HonestStats, Sibling, MadeTemp, MadeBackup, Absences, Granted;
    if AllClear(c) && AllSpared(c) {
      forall fs0: Fs, es: seq<Event>, s: St, fs: Fs | Reaches(c, fs0, es, s, fs) && HonestStats(fs0, es)
        ensures AllOrNone(c, fs0, es, s, fs)
      {
        BothWays(c, fs0, es, s, fs);
      }
    } else if !AllClear(c) {
      var fs0, es, s, fs, es', s', fs' := MakesAppear(c);
    } else {
      SparedOnly(c);
      var fs0, es, s, fs := LosesOne(c);
      HonestBut(c, fs0, es, {});
      assert Absences(c, fs0) + {} == Absences(c, fs0);
    }
  }

  lemma SparedOnly(c: Ctx)
    requires !AllSpared(c)
    ensures !AllSurvive(c)
  {
    hide Spared;
    var j :| 0 <= j < |c.targets| && !Spared(c, j);
    assert !Survives(c, j);
  }

  lemma BothWays(c: Ctx, fs0: Fs, es: seq<Event>, s: St, fs: Fs)
    requires c.Valid() && Reaches(c, fs0, es, s, fs) && HonestStats(fs0, es) && c.plan.retention != NO_BACKUPS
    requires AllClear(c) && AllSpared(c)
    ensures AllOrNone(c, fs0, es, s, fs)
  {
    hide Clear, Spared, Reaches, Targets, HonestStats, Deployed;
    forall j | 0 <= j < c.N() && s.pc.Done?
      ensures Aborted(c, fs0, es, s, fs) ==> Original(fs0, fs, c.targets[j])
      ensures Succeeded(c, fs0, es, s, fs) ==> c.targets[j] in fs && fs[c.targets[j]].bytes == c.plan.files[j].bytes
    {
      AllOrNothing(c, fs0, es, s, fs, j);
      DeployedBytes(c, fs0, fs, c.targets[j], c.plan.files[j]);
    }
  }

  lemma DeployedBytes(c: Ctx, fs0: Fs, fs: Fs, d: Path, f: File)
    ensures Deployed(c, fs0, fs, d, f) ==> d in fs && fs[d].bytes == f.bytes
  {
  }
}
