/** `Apply` as a program: it makes exactly the calls of its protocol, so everything proved about the
    protocol holds of every run of the program. */
module Deploy {
  import opened Text
  import opened Paths
  import opened Data
  import opened Os
  import opened Ownership
  import opened FileOps
  import opened ApplyProtocol
  import opened ApplySafety
  import opened ApplyTheorems
  import opened ApplyAborts
  import opened ApplySuccess
  import opened ApplyHygiene
  import opened ApplyCauses
  import opened ApplyRestores
  import opened Host
  import opened FileProcs

  /** One call of Apply: the log before it, its context and the tree it found. */
  datatype Session = Session(log0: seq<Event>, c: Ctx, fs0: Fs)

  /** The host has made the calls `es` of this session and the protocol is in state `s`. */
  ghost predicate At(h: Host, g: Session, es: seq<Event>, s: St)
    reads h
  {
    h.env == g.c.env && h.log == g.log0 + es && Reaches(g.c, g.fs0, es, s, h.fs)
  }

  /** The protocol follows the last call. */
  lemma Follow(h: Host, g: Session, es: seq<Event>, s: St, e: Event, s': St) returns (es': seq<Event>)
    requires h.Last(e) && h.env == g.c.env && h.log == (g.log0 + es) + [e]
    requires Reaches(g.c, g.fs0, es, s, h.prev) && Step(g.c, s, e) == Some(s')
    ensures es' == es + [e] && At(h, g, es', s')
  {
    hide Step, Effect, Enabled;
    es' := es + [e];
    RunSnoc(g.c, es, e);
    ReplaySnoc(g.c.env, g.fs0, es, e);
    assert g.log0 + es' == (g.log0 + es) + [e];
  }

  // ----- validatePlan -----

  method ValidatePlan(env: Env, plan: Plan) returns (abs: Option<seq<Path>>)
    ensures abs == (if plan.files == [] then None else Targets(env, plan.files))
  {
    if plan.files == [] { return None; }
    var seen: set<Path> := {};
    var paths: seq<Path> := [];
    for i := 0 to |plan.files|
      invariant Targets(env, plan.files[..i]) == Some(paths)
      invariant forall x :: x in seen <==> x in paths
    {
      var f := plan.files[i];
      assert plan.files[..i + 1][..i] == plan.files[..i];
      if f.path == "" { FailsEarly(env, plan.files, i + 1); return None; }
      var p := env.abs(f.path);
      if p.None? || p.value in seen { FailsEarly(env, plan.files, i + 1); return None; }
      seen, paths := seen + {p.value}, paths + [p.value];
    }
    assert plan.files[..|plan.files|] == plan.files;
    return Some(paths);
  }

  lemma {:induction false} FailsEarly(env: Env, files: seq<File>, i: nat)
    requires i <= |files| && Targets(env, files[..i]).None?
    ensures Targets(env, files).None?
    decreases |files| - i
  {
    if i == |files| { assert files[..i] == files; } else {
      assert files[..i + 1][..i] == files[..i];
      FailsEarly(env, files, i + 1);
    }
  }

  // ----- the phases under the locks -----

  method CompareAll(h: Host, plan: Plan, abs: seq<Path>, ghost g: Session, ghost before: seq<Event>)
      returns (allMatch: bool, ghost es: seq<Event>)
    requires g.c == Ctx(h.env, plan, abs) && At(h, g, before, St(Comparing(0), []))
    modifies h
    ensures At(h, g, es, if allMatch then St(Unlocking(g.c.N(), Skipped()), []) else St(Statting(0), []))
  {
    hide Effect, Enabled, Run, Replay, Targets, Sort, SameDigest, Resolve;
    es := before;
    for i := 0 to |abs|
      invariant At(h, g, es, if i < |abs| then St(Comparing(i), []) else St(Unlocking(g.c.N(), Skipped()), []))
    {
      var existing := h.ReadFile(abs[i]);
      var same := existing.Some? && SameDigest(h.env, existing.value, plan.files[i].bytes);
      es := Follow(h, g, es, St(Comparing(i), []), Event.ReadFile(abs[i], existing),
                   if !same then St(Statting(0), [])
                   else if i + 1 < |abs| then St(Comparing(i + 1), []) else St(Unlocking(g.c.N(), Skipped()), []));
      if !same { return false, es; }
    }
    return true, es;
  }

  method PrepareAll(h: Host, plan: Plan, abs: seq<Path>, ghost g: Session, ghost before: seq<Event>)
      returns (resolved: bool, preps: seq<Prep>, ghost es: seq<Event>)
    requires g.c == Ctx(h.env, plan, abs) && At(h, g, before, St(Statting(0), []))
    modifies h
    ensures At(h, g, es, St(if resolved then BackupHead(0) else Unlocking(g.c.N(), Fail(OwnershipUnresolved)), preps))
    ensures resolved ==> |preps| == |abs|
  {
    hide Effect, Enabled, Run, Replay, Targets, Sort, SameDigest, Resolve;
    es, preps := before, [];
    for i := 0 to |abs|
      invariant |preps| == i && At(h, g, es, St(if i < |abs| then Statting(i) else BackupHead(0), preps))
    {
      var stat := h.Stat(abs[i]);
      var owner := Resolve(h.env, plan.files[i], plan.defaults, stat);
      if owner.None? {
        es := Follow(h, g, es, St(Statting(i), preps), Event.Stat(abs[i], stat),
                     St(Unlocking(g.c.N(), Fail(OwnershipUnresolved)), preps));
        return false, preps, es;
      }
      var more := preps + [Prep(owner.value, stat.Some?, None, None)];
      es := Follow(h, g, es, St(Statting(i), preps), Event.Stat(abs[i], stat),
                   St(if i + 1 < |abs| then Statting(i + 1) else BackupHead(0), more));
      preps := more;
    }
    return true, preps, es;
  }

  // ----- whole procedures as steps of the protocol -----

  /** The last call of a run and the tree before it. */
  lemma LastCall(env: Env, fs1: Fs, sub: seq<Event>, fs2: Fs) returns (fs3: Fs)
    requires sub != [] && Replay(env, fs1, sub) == Some(fs2)
    ensures var n := |sub| - 1;
      Replay(env, fs1, sub[..n]) == Some(fs3) && Enabled(sub[n], fs3) && fs2 == Effect(env, sub[n], fs3)
  {
    hide Effect, Enabled;
    fs3 := Replay(env, fs1, sub[..|sub| - 1]).value;
  }

  lemma {:induction false} FirstCall(env: Env, fs1: Fs, sub: seq<Event>, fs2: Fs)
    requires sub != [] && Replay(env, fs1, sub) == Some(fs2)
    ensures Enabled(sub[0], fs1) && Replay(env, Effect(env, sub[0], fs1), sub[1..]) == Some(fs2)
  {
    hide Effect, Enabled;
    assert sub == [sub[0]] + sub[1..];
    ReplayConcat(env, fs1, [sub[0]], sub[1..]);
    ReplaySnoc(env, fs1, [], sub[0]);
    assert [] + [sub[0]] == [sub[0]];
  }

  lemma {:induction false} LiftCopy(c: Ctx, fs0: Fs, es: seq<Event>, s: St, fs1: Fs, i: nat, sub: seq<Event>, fs2: Fs)
    requires Reaches(c, fs0, es, s, fs1) && s.pc == BackingUp(i, Reading) && i < c.N() && |s.preps| == c.N()
    requires Replay(c.env, fs1, sub) == Some(fs2) && !CopyRun(c.targets[i], sub).BadCall?
    ensures var r := AfterCopy(c, s, i, CopyRun(c.targets[i], sub));
      r.Some? && Reaches(c, fs0, es + sub, r.value, fs2)
  {
    hide Effect, Enabled, CopyStep, Targets, Taken, Run, Replay;
    if sub == [] {
      assert es + sub == es;
      ReplayNothing(c.env, fs1);
    } else {
      var n := |sub| - 1;
      var fs3 := LastCall(c.env, fs1, sub, fs2);
      LiftCopy(c, fs0, es, s, fs1, i, sub[..n], fs3);
      assert es + sub == (es + sub[..n]) + [sub[n]];
      var s1 := AfterCopy(c, s, i, CopyRun(c.targets[i], sub[..n])).value;
      Extend(c, fs0, es + sub[..n], s1, fs3, sub[n], AfterCopy(c, s, i, CopyRun(c.targets[i], sub)).value);
    }
  }

  lemma StagingSteps(c: Ctx, s: St, i: nat, stage: Stage, e: Event)
    requires c.Valid() && i < c.N() && |s.preps| == c.N()
    ensures Step(c, s.(pc := StagingFile(i, stage)), e) ==
            AfterStage(c, s, i, StageStep(c.env, c.targets[i], c.plan.files[i].bytes, s.preps[i].owner, stage, e))
  {
    hide StageStep, Targets;
  }

  lemma {:induction false} LiftStage(c: Ctx, fs0: Fs, es: seq<Event>, s: St, fs1: Fs, i: nat, sub: seq<Event>, fs2: Fs)
    requires Reaches(c, fs0, es, s, fs1) && s.pc == StagingFile(i, Opening) && i < c.N() && |s.preps| == c.N()
    requires Replay(c.env, fs1, sub) == Some(fs2)
    requires !StageRun(c.env, c.targets[i], c.plan.files[i].bytes, s.preps[i].owner, sub).Wrong?
    ensures var r := AfterStage(c, s, i, StageRun(c.env, c.targets[i], c.plan.files[i].bytes, s.preps[i].owner, sub));
      r.Some? && Reaches(c, fs0, es + sub, r.value, fs2)
  {
    hide Effect, Enabled, StageStep, Targets, Run, Replay, Step;
    var d, data, o := c.targets[i], c.plan.files[i].bytes, s.preps[i].owner;
    if sub == [] {
      assert es + sub == es;
      ReplayNothing(c.env, fs1);
    } else {
      var n := |sub| - 1;
      var fs3 := LastCall(c.env, fs1, sub, fs2);
      LiftStage(c, fs0, es, s, fs1, i, sub[..n], fs3);
      assert es + sub == (es + sub[..n]) + [sub[n]];
      var r := StageRun(c.env, d, data, o, sub[..n]);
      StagingSteps(c, s, i, r.stage, sub[n]);
      Extend(c, fs0, es + sub[..n], s.(pc := StagingFile(i, r.stage)), fs3, sub[n],
             AfterStage(c, s, i, StageRun(c.env, d, data, o, sub)).value);
    }
  }

  lemma RewritingSteps(c: Ctx, s: St, data: Bytes, stage: Stage, e: Event)
    requires c.Valid() && s.pc.Restoring? && s.pc.i < s.pc.upto <= c.N() && |s.preps| == c.N()
    ensures Step(c, s.(pc := s.pc.(undo := Rewriting(data, stage))), e) ==
            AfterRewrite(s, data, StageStep(c.env, c.targets[s.pc.i], data, s.preps[s.pc.i].owner, stage, e))
  {
    hide StageStep, Targets;
  }

  lemma {:induction false} LiftRewrite(c: Ctx, fs0: Fs, es: seq<Event>, s: St, fs1: Fs, data: Bytes, sub: seq<Event>,
      fs2: Fs)
    requires Reaches(c, fs0, es, s, fs1) && s.pc.Restoring? && s.pc.undo == Rewriting(data, Opening)
    requires s.pc.i < s.pc.upto <= c.N() && |s.preps| == c.N()
    requires Replay(c.env, fs1, sub) == Some(fs2)
    requires !StageRun(c.env, c.targets[s.pc.i], data, s.preps[s.pc.i].owner, sub).Wrong?
    ensures var r := AfterRewrite(s, data, StageRun(c.env, c.targets[s.pc.i], data, s.preps[s.pc.i].owner, sub));
      r.Some? && Reaches(c, fs0, es + sub, r.value, fs2)
  {
    hide Effect, Enabled, StageStep, Targets, Run, Replay, Step;
    var d, o := c.targets[s.pc.i], s.preps[s.pc.i].owner;
    if sub == [] {
      assert es + sub == es;
      ReplayNothing(c.env, fs1);
    } else {
      var n := |sub| - 1;
      var fs3 := LastCall(c.env, fs1, sub, fs2);
      LiftRewrite(c, fs0, es, s, fs1, data, sub[..n], fs3);
      assert es + sub == (es + sub[..n]) + [sub[n]];
      var r := StageRun(c.env, d, data, o, sub[..n]);
      RewritingSteps(c, s, data, r.stage, sub[n]);
      Extend(c, fs0, es + sub[..n], s.(pc := s.pc.(undo := Rewriting(data, r.stage))), fs3, sub[n],
             AfterRewrite(s, data, StageRun(c.env, d, data, o, sub)).value);
    }
  }

  lemma {:induction false} LiftRemovals(c: Ctx, fs0: Fs, es: seq<Event>, s: St, fs1: Fs, i: nat, todo: seq<Path>,
      sub: seq<Event>, fs2: Fs)
    requires Reaches(c, fs0, es, PruneRest(c, s, i, todo).value, fs1)
    requires Replay(c.env, fs1, sub) == Some(fs2) && Removals(todo, sub)
    ensures Reaches(c, fs0, es + sub, PruneNext(c, s, i).value, fs2)
    decreases |todo|
  {
    hide Effect, Enabled, Targets, BackupMap, Run, Replay;
    if todo == [] {
      assert es + sub == es;
      ReplayNothing(c.env, fs1);
    } else {
      var e := sub[0];
      FirstCall(c.env, fs1, sub, fs2);
      Extend(c, fs0, es, PruneRest(c, s, i, todo).value, fs1, e, PruneRest(c, s, i, todo[1..]).value);
      assert es + sub == (es + [e]) + sub[1..];
      LiftRemovals(c, fs0, es + [e], s, Effect(c.env, e, fs1), i, todo[1..], sub[1..], fs2);
    }
  }

  lemma {:induction false} LiftPrune(c: Ctx, fs0: Fs, es: seq<Event>, s: St, fs1: Fs, i: nat, sub: seq<Event>, fs2: Fs)
    requires Reaches(c, fs0, es, s, fs1) && s.pc == Pc.Listing(i) && i < c.N() && c.Keep() > 0
    requires Replay(c.env, fs1, sub) == Some(fs2) && Prunes(c.targets[i], c.Keep(), sub)
    ensures Reaches(c, fs0, es + sub, PruneNext(c, s, i).value, fs2)
  {
    hide Effect, Enabled, Targets, BackupMap, Doomed, Removals, Run, Replay;
    var e := sub[0];
    FirstCall(c.env, fs1, sub, fs2);
    var todo := if e.names.None? then [] else Doomed(e.names.value, c.Keep());
    Extend(c, fs0, es, s, fs1, e, PruneRest(c, s, i, todo).value);
    assert es + sub == (es + [e]) + sub[1..];
    LiftRemovals(c, fs0, es + [e], s, Effect(c.env, e, fs1), i, todo, sub[1..], fs2);
  }

  // ----- backups -----

  method CleanupBackups(h: Host, taken: set<Path>, ghost preps: seq<Prep>, ghost g: Session, ghost before: seq<Event>)
      returns (ghost es: seq<Event>)
    requires At(h, g, before, St(DroppingBackups(taken), preps))
    modifies h
    ensures At(h, g, es, St(Unlocking(g.c.N(), Fail(BackupFailed)), preps))
  {
    hide Effect, Enabled, Run, Replay, Targets;
    es := before;
    var todo := taken;
    while todo != {}
      invariant At(h, g, es, St(DroppingBackups(todo), preps))
      decreases todo
    {
      var b :| b in todo;
      var r := h.Remove(b);
      es := Follow(h, g, es, St(DroppingBackups(todo), preps), Event.Remove(b, r),
        St(DroppingBackups(todo - {b}), preps));
      todo := todo - {b};
    }
    h.Decide();
    es := Follow(h, g, es, St(DroppingBackups({}), preps), Internal, St(Unlocking(g.c.N(), Fail(BackupFailed)), preps));
  }

  method BackupOne(h: Host, d: Path, i: nat, ghost preps: seq<Prep>, ghost g: Session, ghost before: seq<Event>)
      returns (backup: Option<Path>, ghost es: seq<Event>)
    requires At(h, g, before, St(BackupHead(i), preps)) && i < g.c.N() == |preps| && d == g.c.targets[i]
    requires preps[i].hadOrig && g.c.plan.retention != NO_BACKUPS
    modifies h
    ensures At(h, g, es,
      if backup.Some? then St(BackupHead(i + 1), preps[i := preps[i].(backup := backup)])
      else St(DroppingBackups(Taken(preps)), preps))
  {
    hide Effect, Enabled, Run, Replay, Targets, Taken, CopyRun;
    h.Decide();
    es := Follow(h, g, before, St(BackupHead(i), preps), Internal, St(BackingUp(i, Reading), preps));
    ghost var fs1 := h.fs;
    ghost var sub;
    backup, sub := BackupFile(h, d);
    LiftCopy(g.c, g.fs0, es, St(BackingUp(i, Reading), preps), fs1, i, sub, h.fs);
    assert g.log0 + (es + sub) == (g.log0 + es) + sub;
    es := es + sub;
  }

  method BackupAll(h: Host, plan: Plan, abs: seq<Path>, preps0: seq<Prep>, ghost g: Session, ghost before: seq<Event>)
      returns (done: bool, preps: seq<Prep>, ghost es: seq<Event>)
    requires g.c == Ctx(h.env, plan, abs) && |preps0| == |abs| && At(h, g, before, St(BackupHead(0), preps0))
    modifies h
    ensures |preps| == |abs|
    ensures At(h, g, es, St(if done then StagingFile(0, Opening) else Unlocking(g.c.N(), Fail(BackupFailed)), preps))
  {
    hide Effect, Enabled, Run, Replay, Targets, Taken;
    es, preps := before, preps0;
    if plan.retention != NO_BACKUPS {
      for i := 0 to |abs|
        invariant |preps| == |abs| && At(h, g, es, St(BackupHead(i), preps))
      {
        if !preps[i].hadOrig {
          h.Decide();
          es := Follow(h, g, es, St(BackupHead(i), preps), Internal, St(BackupHead(i + 1), preps));
        } else {
          var backup;
          backup, es := BackupOne(h, abs[i], i, preps, g, es);
          if backup.None? {
            es := CleanupBackups(h, Taken(preps), preps, g, es);
            return false, preps, es;
          }
          preps := preps[i := preps[i].(backup := backup)];
        }
      }
    }
    h.Decide();
    ghost var at := if plan.retention != NO_BACKUPS then |abs| else 0;
    es := Follow(h, g, es, St(BackupHead(at), preps), Internal, St(StagingFile(0, Opening), preps));
    return true, preps, es;
  }

  // ----- temp files -----

  function CauseOutcome(c: Ctx, preps: seq<Prep>, cause: Cause): Outcome {
    match cause
    case Abort(error) => Fail(error)
    case Partial(_, failed) => Report(c, preps, Some(if failed then RollbackFailed else RenameFailed), false, false)
  }

  method CleanupTemps(h: Host, preps: seq<Prep>, ghost cause: Cause, ghost g: Session, ghost before: seq<Event>)
      returns (ghost es: seq<Event>)
    requires At(h, g, before, St(DroppingTemps(0, cause), preps))
    modifies h
    ensures At(h, g, es, St(Unlocking(g.c.N(), CauseOutcome(g.c, preps, cause)), preps))
  {
    hide Effect, Enabled, Run, Replay, Targets, Report;
    es := before;
    for i := 0 to |preps|
      invariant At(h, g, es, St(DroppingTemps(i, cause), preps))
    {
      if preps[i].temp.Some? {
        var r := h.Remove(preps[i].temp.value);
        es := Follow(h, g, es, St(DroppingTemps(i, cause), preps), Event.Remove(preps[i].temp.value, r),
          St(DroppingTemps(i + 1, cause), preps));
      } else {
        h.Decide();
        es := Follow(h, g, es, St(DroppingTemps(i, cause), preps), Internal, St(DroppingTemps(i + 1, cause), preps));
      }
    }
    h.Decide();
    es := Follow(h, g, es, St(DroppingTemps(|preps|, cause), preps), Internal,
                 St(Unlocking(g.c.N(), CauseOutcome(g.c, preps, cause)), preps));
  }

  /** Writes one temp file; `made` names it as soon as it exists, `ready` says it is complete. */
  method StageOne(h: Host, f: File, d: Path, o: Resolved, i: nat, ghost preps: seq<Prep>, ghost g: Session,
      ghost before: seq<Event>)
      returns (made: Option<Path>, ready: bool, ghost es: seq<Event>)
    requires At(h, g, before, St(StagingFile(i, Opening), preps)) && i < g.c.N() == |preps| == |g.c.plan.files|
    requires d == g.c.targets[i] && f == g.c.plan.files[i] && o == preps[i].owner
    modifies h
    ensures ready ==> made.Some?
    ensures At(h, g, es,
      if made.None? then St(DroppingTemps(0, Abort(TempFailed)), preps)
      else St(if !ready then DroppingTemps(0, Abort(TempFailed))
              else if i + 1 == g.c.N() then StartCommit(g.c) else StagingFile(i + 1, Opening),
              preps[i := preps[i].(temp := made)]))
  {
    hide Effect, Enabled, Run, Replay, Targets, StageRun;
    ghost var fs1 := h.fs;
    ghost var sub, more;
    ready := false;
    made, sub := WriteTempFile(h, d, f.bytes, o);
    if made.Some? {
      ready, more := ApplyOwnership(h, made.value, o, d, f.bytes, sub);
      ReplayConcat(h.env, fs1, sub, more);
      sub := sub + more;
    }
    LiftStage(g.c, g.fs0, before, St(StagingFile(i, Opening), preps), fs1, i, sub, h.fs);
    assert g.log0 + (before + sub) == (g.log0 + before) + sub;
    es := before + sub;
  }

  method StageAll(h: Host, plan: Plan, abs: seq<Path>, preps0: seq<Prep>, ghost g: Session, ghost before: seq<Event>)
      returns (done: bool, preps: seq<Prep>, tempPaths: map<Path, Path>, ghost es: seq<Event>)
    requires g.c == Ctx(h.env, plan, abs) && |preps0| == |abs| && At(h, g, before, St(StagingFile(0, Opening), preps0))
    modifies h
    ensures |preps| == |abs|
    ensures At(h, g, es, St(if done then StartCommit(g.c) else Unlocking(g.c.N(), Fail(TempFailed)), preps))
    ensures done ==> tempPaths == TempMap(abs, preps) && forall j | 0 <= j < |preps| :: preps[j].temp.Some?
  {
    hide Effect, Enabled, Run, Replay, Targets, StageRun, Step;
    es, preps, tempPaths := before, preps0, map[];
    for i := 0 to |abs|
      invariant |preps| == |abs| && At(h, g, es, St(if i < |abs| then StagingFile(i, Opening)
          else StartCommit(g.c), preps))
      invariant tempPaths == TempMap(abs, preps[..i]) && forall j | 0 <= j < i :: preps[j].temp.Some?
    {
      var made, ready;
      made, ready, es := StageOne(h, plan.files[i], abs[i], preps[i].owner, i, preps, g, es);
      ghost var known := preps[..i];
      if made.Some? { preps := preps[i := preps[i].(temp := made)]; }
      if !ready {
        es := CleanupTemps(h, preps, Abort(TempFailed), g, es);
        return false, preps, tempPaths, es;
      }
      assert preps[..i + 1][..i] == known;
      tempPaths := tempPaths[abs[i] := made.value];
    }
    assert preps[..|abs|] == preps;
    return true, preps, tempPaths, es;
  }

  // ----- rollback -----

  /** Rewrites one destination from its backup; reports whether it failed. */
  method RestoreOne(h: Host, d: Path, b: Path, o: Resolved, ghost s: St, ghost g: Session, ghost before: seq<Event>)
      returns (failed: bool, ghost es: seq<Event>)
    requires At(h, g, before, s) && s.pc.Restoring? && s.pc.undo == Fetching
    requires s.pc.i < s.pc.upto <= g.c.N() == |s.preps|
    requires d == g.c.targets[s.pc.i] && s.preps[s.pc.i].backup == Some(b) && o == s.preps[s.pc.i].owner
    modifies h
    ensures At(h, g, es, AfterUndo(s, failed).value)
  {
    hide Effect, Enabled, Run, Replay, Targets, StageRun, StageStep;
    var bytes := h.ReadFile(b);
    if bytes.None? {
      es := Follow(h, g, before, s, Event.ReadFile(b, bytes), AfterUndo(s, true).value);
      return true, es;
    }
    ghost var s1 := s.(pc := s.pc.(undo := Rewriting(bytes.value, Opening)));
    es := Follow(h, g, before, s, Event.ReadFile(b, bytes), s1);
    failed, es := RewriteOne(h, d, bytes.value, o, s1, g, es);
  }

  method RewriteOne(h: Host, d: Path, data: Bytes, o: Resolved, ghost s: St, ghost g: Session, ghost before: seq<Event>)
      returns (failed: bool, ghost es: seq<Event>)
    requires At(h, g, before, s) && s.pc.Restoring? && s.pc.undo == Rewriting(data, Opening)
    requires s.pc.i < s.pc.upto <= g.c.N() == |s.preps| && d == g.c.targets[s.pc.i] && o == s.preps[s.pc.i].owner
    modifies h
    ensures At(h, g, es, AfterUndo(s, failed).value)
  {
    hide Effect, Enabled, Run, Replay, Targets, StageRun, StageStep;
    ghost var fs1 := h.fs;
    var temp, owned := None, false;
    ghost var sub, more;
    temp, sub := WriteTempFile(h, d, data, o);
    if temp.Some? {
      owned, more := ApplyOwnership(h, temp.value, o, d, data, sub);
      ReplayConcat(h.env, fs1, sub, more);
      sub := sub + more;
    }
    LiftRewrite(g.c, g.fs0, before, s, fs1, data, sub, h.fs);
    assert g.log0 + (before + sub) == (g.log0 + before) + sub;
    es := before + sub;
    if temp.None? { return true, es; }
    failed, es := SwapBack(h, temp.value, d, owned, s, g, es);
  }

  /** The rename of a restore, or the removal of its temp file when it cannot be used. */
  method SwapBack(h: Host, t: Path, d: Path, owned: bool, ghost s: St, ghost g: Session, ghost before: seq<Event>)
      returns (failed: bool, ghost es: seq<Event>)
    requires s.pc.Restoring? && s.pc.i < s.pc.upto <= g.c.N() == |s.preps| && d == g.c.targets[s.pc.i]
    requires At(h, g, before, s.(pc := s.pc.(undo := if owned then Swapping(t) else Scrapping(t))))
    modifies h
    ensures At(h, g, es, AfterUndo(s, failed).value)
  {
    hide Effect, Enabled, Run, Replay, Targets, StageStep;
    es := before;
    if owned {
      var ok := h.Rename(t, d);
      ghost var s2 := s.(pc := s.pc.(undo := Swapping(t)));
      if ok {
        es := Follow(h, g, es, s2, Event.Rename(t, d, ok), AfterUndo(s, false).value);
        return false, es;
      }
      es := Follow(h, g, es, s2, Event.Rename(t, d, ok), s.(pc := s.pc.(undo := Scrapping(t))));
    }
    var r := h.Remove(t);
    es := Follow(h, g, es, s.(pc := s.pc.(undo := Scrapping(t))), Event.Remove(t, r), AfterUndo(s, true).value);
    return true, es;
  }

  /** restoreFromBackups: it reports a failure if and only if one of its calls failed. */
  method RestoreFromBackups(h: Host, abs: seq<Path>, preps: seq<Prep>, upto: nat, ghost reload: bool, ghost g: Session,
      ghost before: seq<Event>)
      returns (failed: bool, ghost es: seq<Event>)
    requires g.c.targets == abs && upto <= |abs| == |preps|
    requires At(h, g, before, St(Restoring(0, Choosing, upto, false, reload), preps))
    modifies h
    ensures At(h, g, es, AfterRestore(g.c, St(Restoring(upto, Choosing, upto, failed, reload), preps)).value)
    ensures failed <==> RestoreFailed(g.c, es)
  {
    hide Effect, Enabled, Run, Replay, Targets, StageStep, CopyStep, Report, Sort, Resolve, TempMap, RestoreFailed;
    es, failed := before, false;
    for i := 0 to upto
      invariant At(h, g, es, St(Restoring(i, Choosing, upto, failed, reload), preps))
    {
      ghost var s := St(Restoring(i, Choosing, upto, failed, reload), preps);
      h.Decide();
      if preps[i].backup.None? {
        ghost var s1 := s.(pc := s.pc.(undo := Deleting));
        es := Follow(h, g, es, s, Internal, s1);
        var r := h.Remove(abs[i]);
        es := Follow(h, g, es, s1, Event.Remove(abs[i], r), AfterUndo(s1, r.Refused?).value);
        failed := failed || r.Refused?;
      } else {
        ghost var s1 := s.(pc := s.pc.(undo := Fetching));
        es := Follow(h, g, es, s, Internal, s1);
        var bad;
        bad, es := RestoreOne(h, abs[i], preps[i].backup.value, preps[i].owner, s1, g, es);
        failed := failed || bad;
      }
    }
    h.Decide();
    ghost var s := St(Restoring(upto, Choosing, upto, failed, reload), preps);
    RestoreFailedIff(g.c, g.fs0, es, s, h.fs);
    es := Follow(h, g, es, s, Internal, AfterRestore(g.c, s).value);
  }

  // ----- commit -----

  /** After the last rename comes the reload hook, if there is one, or pruning. */
  function Committed(c: Ctx, preps: seq<Prep>): St {
    if c.plan.hasPost then St(Reloading, preps) else StartPrune(c, St(Reloading, preps)).value
  }

  method RenameAll(h: Host, abs: seq<Path>, preps: seq<Prep>, ghost g: Session, ghost before: seq<Event>)
      returns (done: bool, error: Error, ghost es: seq<Event>)
    requires g.c.targets == abs && |abs| == |preps| && forall j | 0 <= j < |preps| :: preps[j].temp.Some?
    requires At(h, g, before, St(Renaming(0), preps))
    modifies h
    ensures done ==> At(h, g, es, Committed(g.c, preps))
    ensures !done ==> At(h, g, es, St(Unlocking(g.c.N(), Report(g.c, preps, Some(error), false, false)), preps))
  {
    hide Effect, Enabled, Run, Replay, Targets, Report;
    es := before;
    for i := 0 to |abs|
      invariant At(h, g, es, if i < |abs| then St(Renaming(i), preps) else Committed(g.c, preps))
    {
      var temp := preps[i].temp.value;
      var ok := h.Rename(temp, abs[i]);
      if !ok {
        es := Follow(h, g, es, St(Renaming(i), preps), Event.Rename(temp, abs[i], ok),
          St(Restoring(0, Choosing, i, false, false), preps));
        var failed;
        failed, es := RestoreFromBackups(h, abs, preps, i, false, g, es);
        es := CleanupTemps(h, preps, Partial(i, failed), g, es);
        return false, if failed then RollbackFailed else RenameFailed, es;
      }
      es := Follow(h, g, es, St(Renaming(i), preps), Event.Rename(temp, abs[i], ok),
                   if i + 1 < |abs| then St(Renaming(i + 1), preps) else Committed(g.c, preps));
    }
    return true, RenameFailed, es;
  }

  method Reload(h: Host, abs: seq<Path>, preps: seq<Prep>, ghost g: Session, ghost before: seq<Event>)
      returns (error: Option<Error>, ghost es: seq<Event>)
    requires g.c.targets == abs && |abs| == |preps| && At(h, g, before, St(Reloading, preps))
    modifies h
    ensures error.None? ==> At(h, g, es, StartPrune(g.c, St(Reloading, preps)).value)
    ensures error.Some? ==> At(h, g, es, St(Unlocking(g.c.N(),
        Report(g.c, preps, error, false, error == Some(ReloadFailed))), preps))
  {
    hide Effect, Enabled, Run, Replay, Targets, Report, StageStep, CopyStep, Sort, Resolve, TempMap;
    var ok := h.PostCommit();
    if ok {
      es := Follow(h, g, before, St(Reloading, preps), Event.PostCommit(ok),
        StartPrune(g.c, St(Reloading, preps)).value);
      return None, es;
    }
    es := Follow(h, g, before, St(Reloading, preps), Event.PostCommit(ok),
      St(Restoring(0, Choosing, |abs|, false, true), preps));
    var failed;
    failed, es := RestoreFromBackups(h, abs, preps, |abs|, true, g, es);
    if failed { return Some(RollbackFailed), es; }
    var again := h.PostCommit();
    error := Some(if again then ReloadFailed else RollbackFailed);
    es := Follow(h, g, es, St(ReloadingOld, preps), Event.PostCommit(again),
                 St(Unlocking(g.c.N(), Report(g.c, preps, error, false, again)), preps));
  }

  method PruneAll(h: Host, abs: seq<Path>, keep: int, ghost preps: seq<Prep>, ghost s0: St, ghost g: Session,
      ghost before: seq<Event>)
      returns (ghost es: seq<Event>)
    requires g.c.targets == abs && abs != [] && keep == g.c.Keep() && s0.preps == preps
    requires At(h, g, before, StartPrune(g.c, s0).value)
    modifies h
    ensures At(h, g, es, St(Unlocking(g.c.N(), Report(g.c, preps, None, true, false)), preps))
  {
    hide Effect, Enabled, Run, Replay, Targets, Report, Prunes, Step;
    es := before;
    if keep > 0 {
      for i := 0 to |abs|
        invariant At(h, g, es, St(
          if i < |abs| then Pc.Listing(i) else Unlocking(g.c.N(), Report(g.c, preps, None, true, false)), preps))
      {
        ghost var fs1 := h.fs;
        ghost var sub := PruneBackups(h, abs[i], keep);
        LiftPrune(g.c, g.fs0, es, St(Pc.Listing(i), preps), fs1, i, sub, h.fs);
        assert g.log0 + (es + sub) == (g.log0 + es) + sub;
        es := es + sub;
      }
    }
  }

  // ----- Apply -----

  /** Everything between the last lock and the first unlock. */
  method ApplyLocked(h: Host, plan: Plan, abs: seq<Path>, ghost g: Session, ghost before: seq<Event>)
      returns (out: Outcome, ghost preps': seq<Prep>, ghost es: seq<Event>)
    requires g.c == Ctx(h.env, plan, abs) && At(h, g, before, St(Checking, []))
    modifies h
    ensures At(h, g, es, St(Unlocking(g.c.N(), out), preps'))
  {
    hide Effect, Enabled, Run, Replay, Targets;
    var live := h.ContextLive();
    if !live {
      es := Follow(h, g, before, St(Checking, []), Context(live), St(Unlocking(g.c.N(), Fail(Canceled)), []));
      return Fail(Canceled), [], es;
    }
    es := Follow(h, g, before, St(Checking, []), Context(live),
      St(if plan.skipIdempotent then Statting(0) else Comparing(0), []));
    if !plan.skipIdempotent {
      var allMatch;
      allMatch, es := CompareAll(h, plan, abs, g, es);
      if allMatch { return Skipped(), [], es; }
    }
    var resolved, preps;
    resolved, preps, es := PrepareAll(h, plan, abs, g, es);
    if !resolved { return Fail(OwnershipUnresolved), preps, es; }
    var backedUp;
    backedUp, preps, es := BackupAll(h, plan, abs, preps, g, es);
    if !backedUp { return Fail(BackupFailed), preps, es; }
    var staged, tempPaths;
    staged, preps, tempPaths, es := StageAll(h, plan, abs, preps, g, es);
    if !staged { return Fail(TempFailed), preps, es; }
    out, es := Commit(h, plan, abs, preps, tempPaths, g, es);
    return out, preps, es;
  }

  /** Validate, rename, reload, prune. */
  method Commit(h: Host, plan: Plan, abs: seq<Path>, preps: seq<Prep>, tempPaths: map<Path, Path>, ghost g: Session,
      ghost before: seq<Event>)
      returns (out: Outcome, ghost es: seq<Event>)
    requires g.c == Ctx(h.env, plan, abs) && |preps| == |abs| && At(h, g, before, St(StartCommit(g.c), preps))
    requires tempPaths == TempMap(abs, preps) && forall j | 0 <= j < |preps| :: preps[j].temp.Some?
    modifies h
    ensures At(h, g, es, St(Unlocking(g.c.N(), out), preps))
  {
    hide Effect, Enabled, Run, Replay, Targets, BackupMap, TempMap;
    es := before;
    if plan.hasPre {
      var ok := h.PreCommit(tempPaths);
      es := Follow(h, g, es, St(Validating, preps), Event.PreCommit(tempPaths, ok),
                   St(if ok then Renaming(0) else DroppingTemps(0, Abort(ValidateFailed)), preps));
      if !ok {
        es := CleanupTemps(h, preps, Abort(ValidateFailed), g, es);
        return Fail(ValidateFailed), es;
      }
    }
    var backups := if plan.retention == NO_BACKUPS then map[] else BackupMap(abs, preps);
    var renamed, error;
    renamed, error, es := RenameAll(h, abs, preps, g, es);
    if !renamed { return Outcome(Some(error), Some(Result(false, backups, true, false, false))), es; }
    if plan.hasPost {
      var failure;
      failure, es := Reload(h, abs, preps, g, es);
      if failure.Some? {
        return Outcome(failure, Some(Result(false, backups, true, false, failure == Some(ReloadFailed)))), es;
      }
    }
    var keep := if plan.retention == 0 then DEFAULT_RETENTION else plan.retention;
    es := PruneAll(h, abs, keep, preps, St(Reloading, preps), g, es);
    return Outcome(None, Some(Result(false, backups, true, true, false))), es;
  }

  /** Apply. The calls it makes are one complete run of the protocol; the promises that follow from
      that are repeated here: all or nothing, and no temp file of its own left behind. */
  method Apply(h: Host, plan: Plan) returns (out: Outcome, ghost es: seq<Event>, ghost s: St)
    modifies h
    ensures h.log == old(h.log) + es
    ensures plan.files == [] || Targets(h.env, plan.files).None? ==>
      out == Fail(PlanInvalid) && es == [] && h.fs == old(h.fs)
    ensures plan.files != [] && Targets(h.env, plan.files).Some? ==>
      var c := Ctx(h.env, plan, Targets(h.env, plan.files).value);
      s.pc == Done(out) && Reaches(c, old(h.fs), es, s, h.fs)
    ensures plan.files != [] && Targets(h.env, plan.files).Some? ==>
      var abs := Targets(h.env, plan.files).value;
      && |abs| == |plan.files|
      && (out.error.None? ==>
          forall j | 0 <= j < |abs|
                && (if out == Skipped() then CollisionFree(h.env) else Survives(Ctx(h.env, plan, abs), j)) ::
            abs[j] in h.fs && h.fs[abs[j]].bytes == plan.files[j].bytes)
      && (out.error.Some? ==>
          forall j | 0 <= j < |abs| && Clear(Ctx(h.env, plan, abs), j)
                && (out.error.value == RollbackFailed ==> !OwnFailed(h.env, es, abs[j])) ::
            && BackIff(Ctx(h.env, plan, abs), old(h.fs), es, h.fs, abs[j])
            && (HonestStats(old(h.fs), es) && plan.retention != NO_BACKUPS ==> Original(old(h.fs), h.fs, abs[j])))
      && (forall x | x in h.fs ::
            || x in old(h.fs) || x in abs || (exists j | 0 <= j < |abs| :: IsBackupOf(abs[j], x))
            || Event.Remove(x, Refused) in es)
    ensures plan.files != [] && Targets(h.env, plan.files).Some? ==>
      var c := Ctx(h.env, plan, Targets(h.env, plan.files).value);
      && Explained(c, es, out.error)
      && (out.error == Some(Canceled) || out.error == Some(OwnershipUnresolved) ==> h.fs == old(h.fs))
  {
    hide Effect, Enabled, Run, Replay, Sibling, Shape, CollisionFree, Clear, Survives, BackIff, HonestStats, MadeBackup,
      MadeTemp, OwnFailed, OwnerUnknown, CopyFailed, StagingFailed, RestoreFailed, Rejected, RenameRefused;
    ghost var fs0 := h.fs;
    s := Start();
    var valid := ValidatePlan(h.env, plan);
    if valid.None? { return Fail(PlanInvalid), [], s; }
    var abs := valid.value;
    TargetsIff(h.env, plan.files);
    ghost var g := Session(h.log, Ctx(h.env, plan, abs), h.fs);
    es := LockAll(h, abs, g);
    out, s, es := RunLocked(h, plan, abs, g, es);
    forall j | 0 <= j < |abs| && out.error.None?
      && (if out == Skipped() then CollisionFree(h.env) else Survives(g.c, j))
      ensures abs[j] in h.fs && h.fs[abs[j]].bytes == plan.files[j].bytes
    {
      SuccessDeploys(g.c, fs0, es, s, h.fs, j);
    }
    forall j | 0 <= j < |abs| && Clear(g.c, j) && out.error.Some?
      && (out.error.value == RollbackFailed ==> !OwnFailed(h.env, es, abs[j]))
      ensures BackIff(g.c, fs0, es, h.fs, abs[j])
      ensures HonestStats(fs0, es) && plan.retention != NO_BACKUPS ==> Original(fs0, h.fs, abs[j])
    {
      RestoredIff(g.c, fs0, es, s, h.fs, j);
    }
    ErrorsIff(g.c, fs0, es, s, h.fs);
    EarlyErrorsChangeNothing(g.c, fs0, es, s, h.fs);
    forall x | x in h.fs
      ensures || x in fs0 || x in abs || (exists j | 0 <= j < |abs| :: IsBackupOf(abs[j], x))
          || Event.Remove(x, Refused) in es
    {
      TempHygiene(g.c, fs0, es, s, h.fs, x);
    }
  }

  method LockAll(h: Host, abs: seq<Path>, ghost g: Session) returns (ghost es: seq<Event>)
    requires g.c.Valid() && g.c.targets == abs && g.fs0 == h.fs && g.log0 == h.log && g.c.env == h.env
    modifies h
    ensures At(h, g, es, St(Checking, [])) && h.fs == old(h.fs)
  {
    hide Effect, Run, Replay, Targets, Sort;
    es := [];
    RunNothing(g.c);
    ReplayNothing(g.c.env, g.fs0);
    assert g.log0 + [] == g.log0;
    var sorted := Sort(abs);
    for i := 0 to |sorted|
      invariant At(h, g, es, St(if i < |sorted| then Locking(i) else Checking, []))
      invariant h.fs == old(h.fs)
    {
      h.Lock(sorted[i]);
      LocksChangeNothing(h.env, Event.Lock(FileLock(sorted[i])), h.prev);
      es := Follow(h, g, es, St(Locking(i), []), Event.Lock(FileLock(sorted[i])),
        St(if i + 1 < |sorted| then Locking(i + 1) else Checking, []));
    }
  }

  lemma {:induction false} RunNothing(c: Ctx)
    requires c.Valid()
    ensures Run(c, []) == Some(Start())
  {
  }

  /** The locked part and the release of the locks in reverse order. */
  method RunLocked(h: Host, plan: Plan, abs: seq<Path>, ghost g: Session, ghost before: seq<Event>)
      returns (out: Outcome, ghost s: St, ghost es: seq<Event>)
    requires g.c == Ctx(h.env, plan, abs) && At(h, g, before, St(Checking, []))
    modifies h
    ensures s.pc == Done(out) && At(h, g, es, s)
  {
    hide Effect, Enabled, Run, Replay, Targets, Sort;
    ghost var preps;
    out, preps, es := ApplyLocked(h, plan, abs, g, before);
    var sorted := Sort(abs);
    var k := |sorted|;
    while k > 0
      invariant 0 <= k <= |sorted|
      invariant At(h, g, es, St(if k > 0 then Unlocking(k, out) else Done(out), preps))
    {
      h.Unlock(sorted[k - 1]);
      es := Follow(h, g, es, St(Unlocking(k, out), preps), Event.Unlock(FileLock(sorted[k - 1])),
                   St(if k > 1 then Unlocking(k - 1, out) else Done(out), preps));
      k := k - 1;
    }
    s := St(Done(out), preps);
  }
}
