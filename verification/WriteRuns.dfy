/** Runs of AtomicWriteFile put together call by call. */
module WriteRuns {
  import opened Text
  import opened Paths
  import opened Data
  import opened Os
  import opened Ownership
  import opened FileOps
  import opened ApplyProtocol
  import opened ApplySafety
  import opened Retention
  import opened WriteProtocol
  import opened Runs

  ghost predicate WriteGets(c: Ctx, fs0: Fs, es: seq<Event>, s: WriteSt, fs: Fs, odd: set<Event>) {
    WriteReaches(c, fs0, es, s, fs) && AllBut(es, odd)
  }

  lemma WriteThen(c: Ctx, fs0: Fs, es: seq<Event>, s: WriteSt, fs: Fs, odd: set<Event>, e: Event, s': WriteSt)
      returns (es': seq<Event>, fs': Fs)
    requires WriteGets(c, fs0, es, s, fs, odd) && WriteStep(c, s, e) == Some(s') && Enabled(e, fs)
    requires Granted(e) || e in odd
    ensures fs' == Effect(c.env, e, fs) && WriteGets(c, fs0, es', s', fs', odd)
  {
    hide WriteStep, WriteRun, Replay, Enabled, Effect, Granted;
    es', fs' := es + [e], Effect(c.env, e, fs);
    ExtendWrite(c, fs0, es, s, fs, e, s');
  }

  lemma {:induction false} WriteGetsNothing(c: Ctx, fs0: Fs, odd: set<Event>)
    requires OneFile(c)
    ensures WriteGets(c, fs0, [], WriteStart(), fs0, odd)
  {
  }

  lemma WriteBegins(c: Ctx, fs0: Fs, odd: set<Event>) returns (es: seq<Event>)
    requires OneFile(c) && PrepFor(c, 0, Truth(fs0, c.targets[0])).Some?
    requires c.plan.skipIdempotent || !IsMatch(c, fs0, c.targets[0], c.plan.files[0])
    requires c.targets[0] !in fs0 ==> Stat(c.targets[0], None) in odd
    ensures WriteGets(c, fs0, es, WriteSt(StagingData(Opening), PrepFor(c, 0, Truth(fs0, c.targets[0]))), fs0, odd)
  {
    hide Resolve, Targets, SameDigest, StageStep, CopyStep, WriteGets, Doomed;
    var d, fs := c.targets[0], fs0;
    var seen := Truth(fs0, d);
    var examine, ready := WriteSt(ExaminingDest, None), WriteSt(StagingData(Opening), PrepFor(c, 0, seen));
    WriteGetsNothing(c, fs0, odd);
    es, fs := WriteThen(c, fs0, [], WriteStart(), fs, odd, Lock(FileLock(d)), WriteSt(CheckingContext, None));
    es, fs := WriteThen(c, fs0, es, WriteSt(CheckingContext, None), fs, odd, Context(true), examine);
    if d in fs0 && !c.plan.skipIdempotent {
      var compare := WriteSt(ComparingBytes(seen.value), None);
      es, fs := WriteThen(c, fs0, es, examine, fs, odd, Stat(d, seen), compare);
      es, fs := WriteThen(c, fs0, es, compare, fs, odd, ReadFile(d, Read(fs0, d)), ready);
    } else {
      es, fs := WriteThen(c, fs0, es, examine, fs, odd, Stat(d, seen), ready);
    }
  }

  // ----- staging -----

  function WriteOwned(c: Ctx, p: Prep, t: Path): WriteSt {
    WriteSt(if Backed(c, p) then CopyingOld(Reading) else SwappingIn, Some(p.(temp := Some(t))))
  }

  function WriteToChown(c: Ctx, p: Prep, t: Path): WriteSt {
    if WantsChown(p.owner) then WriteSt(StagingData(Chowning(t, p.owner.uid, p.owner.gid)), Some(p))
    else WriteOwned(c, p, t)
  }

  function WriteToChmod(c: Ctx, p: Prep, t: Path): WriteSt {
    if p.owner.modeSet then WriteSt(StagingData(Chmodding(t)), Some(p)) else WriteToChown(c, p, t)
  }

  lemma WriteOwnershipSteps(c: Ctx, p: Prep, t: Path, granted: bool)
    requires OneFile(c) && (granted || !c.env.root)
    ensures var o := p.owner;
      && (o.modeSet ==> WriteStep(c, WriteToChmod(c, p, t), Chmod(t, o.mode, true)) == Some(WriteToChown(c, p, t)))
      && (!o.modeSet ==> WriteToChmod(c, p, t) == WriteToChown(c, p, t))
      && (WantsChown(o) ==>
            WriteStep(c, WriteToChown(c, p, t), Chown(t, o.uid, o.gid, granted)) == Some(WriteOwned(c, p, t)))
      && (!WantsChown(o) ==> WriteToChown(c, p, t) == WriteOwned(c, p, t))
  {
    hide Targets, CopyStep, Doomed;
  }

  lemma WriteStageSteps(c: Ctx, p: Prep, at: Nanos)
    requires OneFile(c)
    ensures var d, t, data := c.targets[0], TempPath(c.targets[0], at), c.plan.files[0].bytes;
      && WriteStep(c, WriteSt(StagingData(Opening), Some(p)), CreateTemp(d, at, true))
         == Some(WriteSt(StagingData(Writing(t)), Some(p)))
      && WriteStep(c, WriteSt(StagingData(Writing(t)), Some(p)), Write(t, data, |data|, true))
         == Some(WriteSt(StagingData(Syncing(t)), Some(p)))
      && WriteStep(c, WriteSt(StagingData(Syncing(t)), Some(p)), Sync(t, true))
         == Some(WriteSt(StagingData(Closing(t)), Some(p)))
      && WriteStep(c, WriteSt(StagingData(Closing(t)), Some(p)), Close(t, true)) == Some(WriteToChmod(c, p, t))
  {
    hide Targets, TempPath, CopyStep, Doomed;
  }

  lemma WriteFills(c: Ctx, fs0: Fs, es0: seq<Event>, p: Prep, at: Nanos, odd: set<Event>)
      returns (es: seq<Event>, fs: Fs)
    requires OneFile(c) && WriteGets(c, fs0, es0, WriteSt(StagingData(Opening), Some(p)), fs0, odd)
    requires TempPath(c.targets[0], at) !in fs0
    ensures var t := TempPath(c.targets[0], at);
      && WriteGets(c, fs0, es, WriteToChmod(c, p, t), fs, odd)
      && fs == fs0[t := Node(c.plan.files[0].bytes, Meta(c.env.masked(OWNER_RW), c.env.uid, c.env.gid))]
  {
    hide Targets, TempPath, WriteGets, WriteStep, WriteToChmod;
    var t, data := TempPath(c.targets[0], at), c.plan.files[0].bytes;
    WriteStageSteps(c, p, at);
    es, fs := WriteThen(c, fs0, es0, WriteSt(StagingData(Opening), Some(p)), fs0, odd,
                        CreateTemp(c.targets[0], at, true), WriteSt(StagingData(Writing(t)), Some(p)));
    es, fs := WriteThen(c, fs0, es, WriteSt(StagingData(Writing(t)), Some(p)), fs, odd,
                        Write(t, data, |data|, true), WriteSt(StagingData(Syncing(t)), Some(p)));
    assert data[..|data|] == data;
    es, fs := WriteThen(c, fs0, es, WriteSt(StagingData(Syncing(t)), Some(p)), fs, odd, Sync(t, true),
                        WriteSt(StagingData(Closing(t)), Some(p)));
    es, fs := WriteThen(c, fs0, es, WriteSt(StagingData(Closing(t)), Some(p)), fs, odd, Close(t, true),
                        WriteToChmod(c, p, t));
  }

  lemma WriteStages(c: Ctx, fs0: Fs, es0: seq<Event>, p: Prep, at: Nanos, granted: bool, odd: set<Event>)
      returns (es: seq<Event>, fs: Fs)
    requires OneFile(c) && WriteGets(c, fs0, es0, WriteSt(StagingData(Opening), Some(p)), fs0, odd)
    requires TempPath(c.targets[0], at) !in fs0
    requires granted || (!c.env.root && (WantsChown(p.owner) ==>
               Chown(TempPath(c.targets[0], at), p.owner.uid, p.owner.gid, false) in odd))
    ensures var t := TempPath(c.targets[0], at);
      && WriteGets(c, fs0, es, WriteOwned(c, p, t), fs, odd)
      && fs == fs0[t := Staged(c.env, c.plan.files[0].bytes, p.owner, granted)]
  {
    hide Targets, WriteStep, TempPath, WriteGets, WriteToChmod, WriteToChown, WriteOwned;
    var o, t := p.owner, TempPath(c.targets[0], at);
    WriteOwnershipSteps(c, p, t, granted);
    es, fs := WriteFills(c, fs0, es0, p, at, odd);
    if o.modeSet {
      es, fs := WriteThen(c, fs0, es, WriteToChmod(c, p, t), fs, odd, Chmod(t, o.mode, true), WriteToChown(c, p, t));
    }
    if WantsChown(o) {
      es, fs := WriteThen(c, fs0, es, WriteToChown(c, p, t), fs, odd, Chown(t, o.uid, o.gid, granted),
                          WriteOwned(c, p, t));
    }
  }

  // ----- the backup -----

  lemma WriteOpens(c: Ctx, fs0: Fs, es0: seq<Event>, p: Prep, fs1: Fs, bt: Nanos, odd: set<Event>)
      returns (es: seq<Event>, fs: Fs)
    requires OneFile(c) && WriteGets(c, fs0, es0, WriteSt(CopyingOld(Reading), Some(p)), fs1, odd)
    requires c.targets[0] in fs1
    ensures var b, n := BackupPath(c.targets[0], bt), fs1[c.targets[0]];
      && WriteGets(c, fs0, es, WriteSt(CopyingOld(Filling(n.bytes, n.meta, b)), Some(p)), fs, odd)
      && b in fs && OnlyAt(fs1, fs, b)
  {
    hide Resolve, Targets, BackupPath, WriteGets, StageStep, Doomed;
    var d, data, meta := c.targets[0], fs1[c.targets[0]].bytes, fs1[c.targets[0]].meta;
    es, fs := WriteThen(c, fs0, es0, WriteSt(CopyingOld(Reading), Some(p)), fs1, odd, ReadFile(d, Some(data)),
                        WriteSt(CopyingOld(Examining(data)), Some(p)));
    es, fs := WriteThen(c, fs0, es, WriteSt(CopyingOld(Examining(data)), Some(p)), fs, odd, Stat(d, Some(meta)),
                        WriteSt(CopyingOld(OpeningCopy(data, meta)), Some(p)));
    es, fs := WriteThen(c, fs0, es, WriteSt(CopyingOld(OpeningCopy(data, meta)), Some(p)), fs, odd,
                        OpenBackup(d, bt, Perm(meta.mode), true),
                        WriteSt(CopyingOld(Filling(data, meta, BackupPath(d, bt))), Some(p)));
  }

  lemma WriteCopies(c: Ctx, fs0: Fs, es0: seq<Event>, p: Prep, fs1: Fs, bt: Nanos, odd: set<Event>)
      returns (es: seq<Event>, fs: Fs)
    requires OneFile(c) && WriteGets(c, fs0, es0, WriteSt(CopyingOld(Reading), Some(p)), fs1, odd)
    requires c.targets[0] in fs1
    ensures var b := BackupPath(c.targets[0], bt);
      && WriteGets(c, fs0, es, WriteSt(SwappingIn, Some(p.(backup := Some(b)))), fs, odd) && OnlyAt(fs1, fs, b)
  {
    hide Resolve, Targets, BackupPath, WriteGets, StageStep, Doomed, OnlyAt;
    var data, meta := fs1[c.targets[0]].bytes, fs1[c.targets[0]].meta;
    var b := BackupPath(c.targets[0], bt);
    var e1, e2, e3 := Write(b, data, |data|, true), Close(b, true), Chown(b, meta.uid, meta.gid, true);
    es, fs := WriteOpens(c, fs0, es0, p, fs1, bt, odd);
    StaysAt(c.env, e1, fs1, fs, b);
    es, fs := WriteThen(c, fs0, es, WriteSt(CopyingOld(Filling(data, meta, b)), Some(p)), fs, odd, e1,
                        WriteSt(CopyingOld(Finishing(data, meta, b)), Some(p)));
    StaysAt(c.env, e2, fs1, fs, b);
    es, fs := WriteThen(c, fs0, es, WriteSt(CopyingOld(Finishing(data, meta, b)), Some(p)), fs, odd, e2,
                        WriteSt(CopyingOld(Gifting(data, meta, b)), Some(p)));
    StaysAt(c.env, e3, fs1, fs, b);
    es, fs := WriteThen(c, fs0, es, WriteSt(CopyingOld(Gifting(data, meta, b)), Some(p)), fs, odd, e3,
                        WriteSt(SwappingIn, Some(p.(backup := Some(b)))));
  }

  // ----- the swap and the pruning -----

  function WritePruneState(p: Prep, todo: seq<Path>): WriteSt {
    WriteSt(if todo == [] then DroppingTemp(Wrote(p)) else PruningBackups(todo), Some(p))
  }

  lemma {:induction false} WriteRemovesAll(c: Ctx, fs0: Fs, es0: seq<Event>, p: Prep, fs1: Fs, todo: seq<Path>,
                                           odd: set<Event>)
      returns (es: seq<Event>, fs: Fs)
    requires OneFile(c) && Distinct(todo) && forall x | x in todo :: x in fs1
    requires WriteGets(c, fs0, es0, WritePruneState(p, todo), fs1, odd)
    ensures WriteGets(c, fs0, es, WriteSt(DroppingTemp(Wrote(p)), Some(p)), fs, odd) && fs == fs1 - Elements(todo)
    decreases |todo|
  {
    hide WriteGets, Targets, StageStep, CopyStep;
    es, fs := es0, fs1;
    if todo != [] {
      var rest := todo[1..];
      es, fs := WriteThen(c, fs0, es, WritePruneState(p, todo), fs, odd, Remove(todo[0], Removed),
        WritePruneState(p, rest));
      var fs2 := fs;
      forall x | x in rest ensures x in fs2 && x in todo {
        var k :| 0 <= k < |rest| && rest[k] == x;
        assert todo[k + 1] == x;
      }
      es, fs := WriteRemovesAll(c, fs0, es, p, fs2, rest, odd);
      assert Elements(todo) == {todo[0]} + Elements(rest) by { assert todo == [todo[0]] + rest; }
    }
  }

  lemma {:induction false} WritePrunes(c: Ctx, fs0: Fs, es0: seq<Event>, p: Prep, fs1: Fs, odd: set<Event>)
      returns (es: seq<Event>, fs: Fs)
    requires OneFile(c) && c.Keep() > 0 && WriteGets(c, fs0, es0, WriteSt(ScanningBackups, Some(p)), fs1, odd)
    ensures WriteGets(c, fs0, es, WriteSt(DroppingTemp(Wrote(p)), Some(p)), fs, odd)
    ensures fs == PrunedAt(fs1, c.targets[0], c.Keep())
  {
    hide WriteGets, Targets, StageStep, CopyStep, Doomed, Backups, Kept;
    var d, keep := c.targets[0], c.Keep();
    var all := Backups(fs1, d);
    var names := Enumerate(all);
    var todo := Doomed(names, keep);
    DoomedIsDistinct(names, all, keep);
    DoomedIsTheRest(names, all, keep);
    ListedArePresent(fs1, d);
    es, fs := WriteThen(c, fs0, es0, WriteSt(ScanningBackups, Some(p)), fs1, odd, ListBackups(d, Some(names)),
                        WritePruneState(p, todo));
    es, fs := WriteRemovesAll(c, fs0, es, p, fs1, todo, odd);
  }

  lemma WriteFinishes(c: Ctx, fs0: Fs, es0: seq<Event>, p: Prep, fs1: Fs, odd: set<Event>)
      returns (es: seq<Event>, fs: Fs)
    requires OneFile(c) && WriteGets(c, fs0, es0, WriteSt(SwappingIn, Some(p)), fs1, odd)
    requires p.temp.Some? && p.temp.value in fs1 && p.temp.value != c.targets[0] && Remove(p.temp.value, Missing) in odd
    ensures WriteGets(c, fs0, es, WriteSt(Finished(Wrote(p)), Some(p)), fs, odd)
    ensures c.targets[0] in fs && fs[c.targets[0]] == fs1[p.temp.value]
  {
    hide Resolve, Targets, WriteGets, StageStep, CopyStep, Kept, Sibling;
    var d, t, out := c.targets[0], p.temp.value, Wrote(p);
    var next := WriteSt(if c.Keep() > 0 then ScanningBackups else DroppingTemp(out), Some(p));
    KindsAreDisjoint(d, d);
    es, fs := WriteThen(c, fs0, es0, WriteSt(SwappingIn, Some(p)), fs1, odd, Rename(t, d, true), next);
    if c.Keep() > 0 { es, fs := WritePrunes(c, fs0, es, p, fs, odd); }
    es, fs := WriteThen(c, fs0, es, WriteSt(DroppingTemp(out), Some(p)), fs, odd, Remove(t, Missing),
                        WriteSt(Releasing(out), Some(p)));
    es, fs := WriteThen(c, fs0, es, WriteSt(Releasing(out), Some(p)), fs, odd, Unlock(FileLock(d)),
                        WriteSt(Finished(out), Some(p)));
  }

  /** As for Apply, and the deferred removal of the temp file finds it renamed. */
  function WriteSetbacks(c: Ctx, fs0: Fs, at: Nanos, o: Resolved, granted: bool): set<Event>
    requires |c.targets| == 1
  {
    {Remove(TempPath(c.targets[0], at), Missing)} + Setbacks(c, fs0, at, o, granted)
  }

  lemma {:induction false} WriteSucceeds(c: Ctx, fs0: Fs, at: Nanos, bt: Nanos, granted: bool)
      returns (es: seq<Event>, s: WriteSt, fs: Fs)
    requires OneFile(c) && Feasible(c, fs0, at, granted)
    ensures WriteReaches(c, fs0, es, s, fs) && s.pc.Finished? && s.pc.out.error.None? && s.pc.out != Idempotent()
    ensures var o := PrepFor(c, 0, Truth(fs0, c.targets[0])).value.owner;
      && c.targets[0] in fs && fs[c.targets[0]] == Staged(c.env, c.plan.files[0].bytes, o, granted)
      && AllBut(es, WriteSetbacks(c, fs0, at, o, granted))
  {
    hide Targets, Resolve, TempPath, BackupPath, WriteReaches, SameDigest, Granted;
    var d := c.targets[0];
    var p := PrepFor(c, 0, Truth(fs0, d)).value;
    var t, odd := TempPath(d, at), WriteSetbacks(c, fs0, at, p.owner, granted);
    TempIsNoBackup(d, at, bt);
    es := WriteBegins(c, fs0, odd);
    es, fs := WriteStages(c, fs0, es, p, at, granted, odd);
    if Backed(c, p) {
      var fs1 := fs;
      es, fs := WriteCopies(c, fs0, es, p.(temp := Some(t)), fs, bt, odd);
      assert Same(fs1, fs, t);
      p := p.(backup := Some(BackupPath(d, bt)));
    }
    p := p.(temp := Some(t));
    es, fs := WriteFinishes(c, fs0, es, p, fs, odd);
    s := WriteSt(Finished(Wrote(p)), Some(p));
  }
}
