/** `AtomicWriteFile` as a program, proved against its protocol. */
module AtomicWrite {
  import opened Paths
  import opened Data
  import opened Os
  import opened Ownership
  import opened FileOps
  import opened ApplyProtocol
  import opened ApplySafety
  import opened ApplyTheorems
  import opened WriteProtocol
  import opened ApplyCauses
  import opened WriteCauses
  import opened Host
  import opened FileProcs
  import opened Deploy

  ghost predicate AtWrite(h: Host, g: Session, es: seq<Event>, s: WriteSt)
    reads h
  {
    h.env == g.c.env && h.log == g.log0 + es && WriteReaches(g.c, g.fs0, es, s, h.fs)
  }

  lemma FollowWrite(h: Host, g: Session, es: seq<Event>, s: WriteSt, e: Event, s': WriteSt) returns (es': seq<Event>)
    requires h.Last(e) && h.env == g.c.env && h.log == (g.log0 + es) + [e]
    requires WriteReaches(g.c, g.fs0, es, s, h.prev) && WriteStep(g.c, s, e) == Some(s')
    ensures es' == es + [e] && AtWrite(h, g, es', s')
  {
    hide WriteStep, Effect, Enabled;
    es' := es + [e];
    WriteRunSnoc(g.c, es, e);
    ReplaySnoc(g.c.env, g.fs0, es, e);
    assert g.log0 + es' == (g.log0 + es) + [e];
  }

  lemma {:induction false} LiftWriteStage(c: Ctx, fs0: Fs, es: seq<Event>, s: WriteSt, fs1: Fs, p: Prep,
      sub: seq<Event>, fs2: Fs)
    requires WriteReaches(c, fs0, es, s, fs1) && s == WriteSt(StagingData(Opening), Some(p))
    requires Replay(c.env, fs1, sub) == Some(fs2)
    requires !StageRun(c.env, c.targets[0], c.plan.files[0].bytes, p.owner, sub).Wrong?
    ensures var r := AfterWriteStage(c, s, p, StageRun(c.env, c.targets[0], c.plan.files[0].bytes, p.owner, sub));
      r.Some? && WriteReaches(c, fs0, es + sub, r.value, fs2)
  {
    hide Effect, Enabled, StageStep, Targets, WriteRun, Replay;
    var d, data := c.targets[0], c.plan.files[0].bytes;
    if sub == [] {
      assert es + sub == es;
      ReplayNothing(c.env, fs1);
    } else {
      var n := |sub| - 1;
      var fs3 := LastCall(c.env, fs1, sub, fs2);
      LiftWriteStage(c, fs0, es, s, fs1, p, sub[..n], fs3);
      assert es + sub == (es + sub[..n]) + [sub[n]];
      var r := StageRun(c.env, d, data, p.owner, sub[..n]);
      ExtendWrite(c, fs0, es + sub[..n], WriteSt(StagingData(r.stage), Some(p)), fs3, sub[n],
                  AfterWriteStage(c, s, p, StageRun(c.env, d, data, p.owner, sub)).value);
    }
  }

  lemma {:induction false} LiftWriteCopy(c: Ctx, fs0: Fs, es: seq<Event>, s: WriteSt, fs1: Fs, p: Prep,
      sub: seq<Event>, fs2: Fs)
    requires WriteReaches(c, fs0, es, s, fs1) && s == WriteSt(CopyingOld(Reading), Some(p))
    requires Replay(c.env, fs1, sub) == Some(fs2) && !CopyRun(c.targets[0], sub).BadCall?
    ensures var r := AfterWriteCopy(s, p, CopyRun(c.targets[0], sub));
      r.Some? && WriteReaches(c, fs0, es + sub, r.value, fs2)
  {
    hide Effect, Enabled, CopyStep, Targets, WriteRun, Replay;
    if sub == [] {
      assert es + sub == es;
      ReplayNothing(c.env, fs1);
    } else {
      var n := |sub| - 1;
      var fs3 := LastCall(c.env, fs1, sub, fs2);
      LiftWriteCopy(c, fs0, es, s, fs1, p, sub[..n], fs3);
      assert es + sub == (es + sub[..n]) + [sub[n]];
      var r := CopyRun(c.targets[0], sub[..n]);
      ExtendWrite(c, fs0, es + sub[..n], WriteSt(CopyingOld(r.copy), Some(p)), fs3, sub[n],
                  AfterWriteCopy(s, p, CopyRun(c.targets[0], sub)).value);
    }
  }

  lemma {:induction false} LiftWriteRemovals(c: Ctx, fs0: Fs, es: seq<Event>, s: WriteSt, p: Prep, fs1: Fs,
      todo: seq<Path>, sub: seq<Event>, fs2: Fs)
    requires s.prep == Some(p) && WriteReaches(c, fs0, es, WritePruneRest(s, p, todo).value, fs1)
    requires Replay(c.env, fs1, sub) == Some(fs2) && Removals(todo, sub)
    ensures WriteReaches(c, fs0, es + sub, WriteSt(DroppingTemp(Wrote(p)), Some(p)), fs2)
    decreases |todo|
  {
    hide Effect, Enabled, Targets, WriteRun, Replay;
    if todo == [] {
      assert es + sub == es;
      ReplayNothing(c.env, fs1);
    } else {
      var e := sub[0];
      FirstCall(c.env, fs1, sub, fs2);
      ExtendWrite(c, fs0, es, WritePruneRest(s, p, todo).value, fs1, e, WritePruneRest(s, p, todo[1..]).value);
      assert es + sub == (es + [e]) + sub[1..];
      LiftWriteRemovals(c, fs0, es + [e], s, p, Effect(c.env, e, fs1), todo[1..], sub[1..], fs2);
    }
  }

  lemma {:induction false} LiftWritePrune(c: Ctx, fs0: Fs, es: seq<Event>, p: Prep, fs1: Fs, sub: seq<Event>, fs2: Fs)
    requires WriteReaches(c, fs0, es, WriteSt(ScanningBackups, Some(p)), fs1) && c.Keep() > 0
    requires Replay(c.env, fs1, sub) == Some(fs2) && Prunes(c.targets[0], c.Keep(), sub)
    ensures WriteReaches(c, fs0, es + sub, WriteSt(DroppingTemp(Wrote(p)), Some(p)), fs2)
  {
    hide Effect, Enabled, Targets, Doomed, Removals, WriteRun, Replay;
    var e, s := sub[0], WriteSt(ScanningBackups, Some(p));
    FirstCall(c.env, fs1, sub, fs2);
    var todo := if e.names.None? then [] else Doomed(e.names.value, c.Keep());
    ExtendWrite(c, fs0, es, s, fs1, e, WritePruneRest(s, p, todo).value);
    assert es + sub == (es + [e]) + sub[1..];
    LiftWriteRemovals(c, fs0, es + [e], s, p, Effect(c.env, e, fs1), todo, sub[1..], fs2);
  }

  // ----- the program -----

  datatype WriteOptions = WriteOptions(mode: nat, defaultMode: nat, owner: string, group: string,
    defaultOwner: string, defaultGroup: string, skipIdempotent: bool, retention: int)

  /** The plan that says the same. */
  function PlanOf(path: string, data: Bytes, opts: WriteOptions): Plan {
    Plan([File(path, data, opts.mode, opts.owner, opts.group)],
         Defaults(opts.defaultMode, opts.defaultOwner, opts.defaultGroup),
         false, false, opts.retention, opts.skipIdempotent)
  }

  lemma PlanOfIsOneFile(env: Env, path: string, data: Bytes, opts: WriteOptions, abs: Path)
    requires path != "" && env.abs(path) == Some(abs)
    ensures OneFile(Ctx(env, PlanOf(path, data, opts), [abs]))
  {
    var files := PlanOf(path, data, opts).files;
    assert files[..0] == [];
    assert Targets(env, files[..0]) == Some([]);
    assert [] + [abs] == [abs];
  }

  method Copy(h: Host, p0: Prep, d: Path, ghost g: Session, ghost before: seq<Event>)
      returns (done: bool, p: Prep, ghost es: seq<Event>)
    requires OneFile(g.c) && d == g.c.targets[0] && AtWrite(h, g, before, WriteSt(CopyingOld(Reading), Some(p0)))
    modifies h
    ensures p.temp == p0.temp && p.hadOrig == p0.hadOrig
    ensures AtWrite(h, g, es, WriteSt(if done then SwappingIn else DroppingTemp(WriteFail(BackupFailed)), Some(p)))
  {
    hide Effect, Enabled, WriteRun, Replay, Targets, CopyRun, WriteStep;
    ghost var fs1 := h.fs;
    var backup;
    ghost var sub;
    backup, sub := BackupFile(h, d);
    LiftWriteCopy(g.c, g.fs0, before, WriteSt(CopyingOld(Reading), Some(p0)), fs1, p0, sub, h.fs);
    assert g.log0 + (before + sub) == (g.log0 + before) + sub;
    es := before + sub;
    done := backup.Some?;
    p := if done then p0.(backup := backup) else p0;
  }

  /** Rename and prune. */
  method Swap(h: Host, p: Prep, d: Path, keep: int, ghost g: Session, ghost before: seq<Event>)
      returns (out: WriteOutcome, ghost es: seq<Event>)
    requires OneFile(g.c) && d == g.c.targets[0] && keep == g.c.Keep() && p.temp.Some?
    requires AtWrite(h, g, before, WriteSt(SwappingIn, Some(p)))
    modifies h
    ensures AtWrite(h, g, es, WriteSt(DroppingTemp(out), Some(p)))
  {
    hide Effect, Enabled, WriteRun, Replay, Targets, Prunes;
    var s := WriteSt(SwappingIn, Some(p));
    var ok := h.Rename(p.temp.value, d);
    if !ok {
      es := FollowWrite(h, g, before, s, Event.Rename(p.temp.value, d, ok),
        s.(pc := DroppingTemp(WriteFail(RenameFailed))));
      return WriteFail(RenameFailed), es;
    }
    es := FollowWrite(h, g, before, s, Event.Rename(p.temp.value, d, ok),
                      s.(pc := if keep > 0 then ScanningBackups else DroppingTemp(Wrote(p))));
    if keep > 0 {
      ghost var fs1 := h.fs;
      ghost var sub := PruneBackups(h, d, keep);
      LiftWritePrune(g.c, g.fs0, es, p, fs1, sub, h.fs);
      assert g.log0 + (es + sub) == (g.log0 + es) + sub;
      es := es + sub;
    }
    return Wrote(p), es;
  }

  /** Stage, back up, swap in; the deferred removal of the temp file comes last. */
  method Replace(h: Host, data: Bytes, owner: Resolved, existed: bool, retention: int, d: Path, ghost g: Session,
      ghost before: seq<Event>)
      returns (out: WriteOutcome, ghost p': Prep, ghost es: seq<Event>)
    requires OneFile(g.c) && d == g.c.targets[0] && data == g.c.plan.files[0].bytes && retention == g.c.plan.retention
    requires AtWrite(h, g, before, WriteSt(StagingData(Opening), Some(Prep(owner, existed, None, None))))
    modifies h
    ensures AtWrite(h, g, es, WriteSt(Releasing(out), Some(p')))
  {
    hide Effect, Enabled, WriteRun, Replay, Targets, StageRun, StageStep;
    ghost var fs1 := h.fs;
    var p := Prep(owner, existed, None, None);
    var made, owned := None, false;
    ghost var sub, more;
    made, sub := WriteTempFile(h, d, data, owner);
    if made.Some? {
      owned, more := ApplyOwnership(h, made.value, owner, d, data, sub);
      ReplayConcat(h.env, fs1, sub, more);
      sub := sub + more;
    }
    LiftWriteStage(g.c, g.fs0, before, WriteSt(StagingData(Opening), Some(p)), fs1, p, sub, h.fs);
    assert g.log0 + (before + sub) == (g.log0 + before) + sub;
    es := before + sub;
    if made.None? { return WriteFail(TempFailed), p, es; }
    p := p.(temp := made);
    out, p, es := Install(h, p, owned, retention, d, g, es);
    var r := h.Remove(made.value);
    es := FollowWrite(h, g, es, WriteSt(DroppingTemp(out), Some(p)), Event.Remove(made.value, r),
      WriteSt(Releasing(out), Some(p)));
    return out, p, es;
  }

  method Install(h: Host, p0: Prep, owned: bool, retention: int, d: Path, ghost g: Session, ghost before: seq<Event>)
      returns (out: WriteOutcome, p: Prep, ghost es: seq<Event>)
    requires OneFile(g.c) && d == g.c.targets[0] && retention == g.c.plan.retention && p0.temp.Some? && p0.backup.None?
    requires AtWrite(h, g, before, WriteSt(
      if !owned then DroppingTemp(WriteFail(TempFailed))
      else if p0.hadOrig && retention != NO_BACKUPS then CopyingOld(Reading) else SwappingIn, Some(p0)))
    modifies h
    ensures p.temp == p0.temp && AtWrite(h, g, es, WriteSt(DroppingTemp(out), Some(p)))
  {
    hide Effect, Enabled, WriteRun, Replay, Targets, WriteStep;
    es, p := before, p0;
    if !owned { return WriteFail(TempFailed), p, es; }
    if p.hadOrig && retention != NO_BACKUPS {
      var copied;
      copied, p, es := Copy(h, p, d, g, es);
      if !copied { return WriteFail(BackupFailed), p, es; }
    }
    var keep := if retention == 0 then DEFAULT_RETENTION else retention;
    out, es := Swap(h, p, d, keep, g, es);
  }

  /** AtomicWriteFile: a complete run of its protocol, so an error leaves the destination untouched
      and success means the new bytes, or that they were there already. Each error is returned exactly
      when a call went the way that calls for it. */
  method AtomicWriteFile(h: Host, path: string, data: Bytes, opts: WriteOptions)
      returns (out: WriteOutcome, ghost es: seq<Event>, ghost s: WriteSt)
    modifies h
    ensures h.log == old(h.log) + es
    ensures path == "" || h.env.abs(path).None? ==>
      out == WriteFail(if path == "" then PlanInvalid else PathUnresolved) && es == [] && h.fs == old(h.fs)
    ensures path != "" && h.env.abs(path).Some? ==>
      var c := Ctx(h.env, PlanOf(path, data, opts), [h.env.abs(path).value]);
      s.pc == Finished(out) && WriteReaches(c, old(h.fs), es, s, h.fs)
    ensures path != "" && h.env.abs(path).Some? ==>
      var d := h.env.abs(path).value;
      && (out.error.Some? ==> Same(old(h.fs), h.fs, d))
      && (out.error.None? && (out == Idempotent() ==> CollisionFree(h.env)) ==> d in h.fs && h.fs[d].bytes == data)
    ensures path != "" && h.env.abs(path).Some? ==>
      var c := Ctx(h.env, PlanOf(path, data, opts), [h.env.abs(path).value]);
      && OneFile(c) && WriteExplained(c, es, out)
      && (out.error == Some(Canceled) || out.error == Some(OwnershipUnresolved) || out == Idempotent() ==>
            h.fs == old(h.fs))
  {
    hide Effect, Enabled, WriteRun, Replay, CollisionFree, WriteStepLate, WriteExplained;
    s := WriteStart();
    if path == "" { return WriteFail(PlanInvalid), [], s; }
    if h.env.abs(path).None? { return WriteFail(PathUnresolved), [], s; }
    var d := h.env.abs(path).value;
    PlanOfIsOneFile(h.env, path, data, opts, d);
    ghost var g := Session(h.log, Ctx(h.env, PlanOf(path, data, opts), [d]), h.fs);
    h.Lock(d);
    WriteBegins(g.c, g.fs0);
    assert g.log0 + [] == g.log0;
    es := FollowWrite(h, g, [], s, Event.Lock(FileLock(d)), WriteSt(CheckingContext, None));
    ghost var p;
    out, p, es := WriteLocked(h, data, opts, PlanOf(path, data, opts), d, g, es);
    h.Unlock(d);
    s := WriteSt(Finished(out), p);
    es := FollowWrite(h, g, es, WriteSt(Releasing(out), p), Event.Unlock(FileLock(d)), s);
    Concludes(g.c, g.fs0, es, s, h.fs);
  }

  lemma WriteBegins(c: Ctx, fs0: Fs)
    requires OneFile(c)
    ensures WriteReaches(c, fs0, [], WriteStart(), fs0)
  {
  }

  lemma Concludes(c: Ctx, fs0: Fs, es: seq<Event>, s: WriteSt, fs: Fs)
    requires WriteReaches(c, fs0, es, s, fs) && s.pc.Finished?
    ensures s.pc.out.error.Some? ==> Same(fs0, fs, c.targets[0])
    ensures s.pc.out.error.None? && (s.pc.out == Idempotent() ==> CollisionFree(c.env)) ==>
      c.targets[0] in fs && fs[c.targets[0]].bytes == c.plan.files[0].bytes
    ensures WriteExplained(c, es, s.pc.out)
    ensures NothingDone(s.pc.out) ==> fs == fs0
  {
    hide WriteRun, Replay, Resolve, OwnerUnknown, BytesMatched, WriteTempFailed, WriteCopyFailed, RenameRefused;
    WriteAllOrNothing(c, fs0, es, s, fs);
    WriteErrorsIff(c, fs0, es, s, fs);
    WriteEarlyChangesNothing(c, fs0, es, s, fs);
  }

  method WriteLocked(h: Host, data: Bytes, opts: WriteOptions, plan: Plan, d: Path, ghost g: Session,
      ghost before: seq<Event>)
      returns (out: WriteOutcome, ghost p: Option<Prep>, ghost es: seq<Event>)
    requires g.c == Ctx(h.env, plan, [d]) && OneFile(g.c) && plan.files[0].bytes == data
    requires plan.retention == opts.retention && plan.skipIdempotent == opts.skipIdempotent
    requires AtWrite(h, g, before, WriteSt(CheckingContext, None))
    modifies h
    ensures AtWrite(h, g, es, WriteSt(Releasing(out), p))
  {
    hide Effect, Enabled, WriteRun, Replay, Targets, WriteStepLate, Resolve;
    var live := h.ContextLive();
    es := FollowWrite(h, g, before, WriteSt(CheckingContext, None), Context(live),
                      WriteSt(if live then ExaminingDest else Releasing(WriteFail(Canceled)), None));
    if !live { return WriteFail(Canceled), None, es; }
    var stat := h.Stat(d);
    var owner := Resolve(h.env, plan.files[0], plan.defaults, stat);
    ghost var prepared := Prepare(g.c, WriteSt(ExaminingDest, None), stat).value;
    if stat.Some? && !opts.skipIdempotent {
      var s1 := WriteSt(ComparingBytes(stat.value), None);
      es := FollowWrite(h, g, es, WriteSt(ExaminingDest, None), Event.Stat(d, stat), s1);
      var existing := h.ReadFile(d);
      if existing.Some? && SameDigest(h.env, existing.value, data) {
        es := FollowWrite(h, g, es, s1, Event.ReadFile(d, existing), WriteSt(Releasing(Idempotent()), None));
        return Idempotent(), None, es;
      }
      es := FollowWrite(h, g, es, s1, Event.ReadFile(d, existing), prepared);
    } else {
      es := FollowWrite(h, g, es, WriteSt(ExaminingDest, None), Event.Stat(d, stat), prepared);
    }
    if owner.None? { return WriteFail(OwnershipUnresolved), None, es; }
    ghost var q;
    out, q, es := Replace(h, data, owner.value, stat.Some?, opts.retention, d, g, es);
    p := Some(q);
  }
}
