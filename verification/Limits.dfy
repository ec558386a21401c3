/** Where the promises end: runs that report success, or a complete rollback, and leave something
    else behind. */
module Limits {
  import opened Paths
  import opened Data
  import opened Os
  import opened Ownership
  import opened FileOps
  import opened ApplyProtocol
  import opened ApplySafety
  import opened ApplyAborts
  import ApplyRestores
  import opened Runs

  // ----- a rollback that deletes -----

  /** One existing file, not as planned, a reload hook, and no backup to come: none wanted, or Stat
      did not see the file. */
  ghost predicate Unprotected(c: Ctx, fs0: Fs, seen: Option<Meta>, at: Nanos) {
    && c.Valid() && c.N() == 1 && c.plan.hasPost
    && c.targets[0] in fs0 && TempPath(c.targets[0], at) !in fs0
    && (c.plan.skipIdempotent || !IsMatch(c, fs0, c.targets[0], c.plan.files[0]))
    && (seen == None || (seen == Some(fs0[c.targets[0]].meta) && c.plan.retention == NO_BACKUPS))
    && PrepFor(c, 0, seen).Some?
  }

  function Undoing(i: nat, undo: Undo): Pc {
    Restoring(i, undo, 1, false, true)
  }

  lemma DeletingSteps(c: Ctx, ps: seq<Prep>)
    requires c.Valid() && c.N() == 1 == |ps| && ps[0].backup.None?
    ensures Step(c, St(Reloading, ps), PostCommit(false)) == Some(St(Undoing(0, Choosing), ps))
    ensures Step(c, St(Undoing(0, Choosing), ps), Internal) == Some(St(Undoing(0, Deleting), ps))
    ensures Step(c, St(Undoing(0, Deleting), ps), Remove(c.targets[0], Removed)) == Some(St(Undoing(1, Choosing), ps))
    ensures Step(c, St(Undoing(1, Choosing), ps), Internal) == Some(St(ReloadingOld, ps))
    ensures Step(c, St(ReloadingOld, ps), PostCommit(true))
            == Some(St(Unlocking(1, Report(c, ps, Some(ReloadFailed), false, true)), ps))
  {
    hide Targets, BackupMap, StageStep, CopyStep;
  }

  /** The reload fails, the restore deletes, and the reload of what is not there any more passes. */
  lemma TurnsBack(c: Ctx, fs0: Fs, es0: seq<Event>, ps: seq<Prep>, fs1: Fs, odd: set<Event>)
      returns (es: seq<Event>, out: Outcome, fs: Fs)
    requires c.Valid() && c.N() == 1 == |ps| && ps[0].backup.None? && PostCommit(false) in odd && c.targets[0] in fs1
    requires Gets(c, fs0, es0, St(Reloading, ps), fs1, odd)
    ensures Gets(c, fs0, es, St(Done(out), ps), fs, odd) && c.targets[0] !in fs
    ensures out.error == Some(ReloadFailed) && out.result.Some? && out.result.value.rolledBack
  {
    hide Gets, Targets, BackupMap, Step;
    out := Report(c, ps, Some(ReloadFailed), false, true);
    DeletingSteps(c, ps);
    es, fs := Then(c, fs0, es0, St(Reloading, ps), fs1, odd, PostCommit(false), St(Undoing(0, Choosing), ps));
    es, fs := Then(c, fs0, es, St(Undoing(0, Choosing), ps), fs, odd, Internal, St(Undoing(0, Deleting), ps));
    es, fs := Then(c, fs0, es, St(Undoing(0, Deleting), ps), fs, odd, Remove(c.targets[0], Removed),
                   St(Undoing(1, Choosing), ps));
    es, fs := Then(c, fs0, es, St(Undoing(1, Choosing), ps), fs, odd, Internal, St(ReloadingOld, ps));
    es, fs := Then(c, fs0, es, St(ReloadingOld, ps), fs, odd, PostCommit(true), St(Unlocking(1, out), ps));
    es := Unlocks(c, fs0, es, ps, fs, 1, out, odd);
  }

  /** Every such deployment has a run in which the first reload fails, no other call does but the
      Stat that missed the file, the result says that it was rolled back, and the file is gone. */
  lemma {:induction false} RollbackCanDelete(c: Ctx, fs0: Fs, seen: Option<Meta>, at: Nanos)
      returns (es: seq<Event>, s: St, fs: Fs)
    requires Unprotected(c, fs0, seen, at)
    ensures Reaches(c, fs0, es, s, fs) && s.pc.Done? && s.pc.out.error == Some(ReloadFailed)
    ensures s.pc.out.result.Some? && s.pc.out.result.value.rolledBack && c.targets[0] in fs0 && c.targets[0] !in fs
    ensures AllBut(es, {PostCommit(false)} + if seen.None? then {Stat(c.targets[0], None)} else {})
  {
    hide Reaches, Targets, Resolve, TempPath, SameDigest, Granted, StartCommit;
    var odd := {PostCommit(false)} + if seen.None? then {Stat(c.targets[0], None)} else {};
    es := Begins(c, fs0, [seen], odd);
    var ps := Preps(c, fs0, [seen], 1);
    es := BackupsEnd(c, fs0, es, ps, fs0, 0, odd);
    es, fs := Stages(c, fs0, es, ps, fs0, 0, at, true, odd);
    ps := ps[0 := ps[0].(temp := Some(TempPath(c.targets[0], at)))];
    es := Validates(c, fs0, es, ps, fs, odd);
    es, fs := Renames(c, fs0, es, ps, fs, 0, odd);
    var out;
    es, out, fs := TurnsBack(c, fs0, es, ps, fs, odd);
    s := St(Done(out), ps);
  }

  const SITE: Path := "/etc/tls/site.crt"

  function Machine(): Env {
    Env(true, 0, 0, mode => mode, name => None, name => None, path => Some(path), bytes => |bytes|)
  }

  function Renewal(retention: int): Ctx {
    Ctx(Machine(), Plan([File(SITE, [1, 2], 0, "", "")], Defaults(0, "", ""), true, true, retention, false), [SITE])
  }

  /** A certificate renewed with backups switched off, and one whose Stat failed with backups on:
      both end in a deletion that is reported as a rollback. */
  lemma RenewalLost() returns (es: seq<Event>, s: St, fs: Fs, es': seq<Event>, s': St, fs': Fs)
    ensures var fs0 := map[SITE := Node([7], Meta(0x1A4, 0, 0))];
      && Reaches(Renewal(NO_BACKUPS), fs0, es, s, fs) && AllBut(es, {PostCommit(false)})
      && s.pc.Done? && s.pc.out.error == Some(ReloadFailed) && SITE !in fs
      && Reaches(Renewal(3), fs0, es', s', fs')
      && s'.pc.Done? && s'.pc.out.error == Some(ReloadFailed) && SITE !in fs'
  {
    hide Run, Replay, TempPath;
    var fs0 := map[SITE := Node([7], Meta(0x1A4, 0, 0))];
    RenewalIsUnprotected(NO_BACKUPS, Some(Meta(0x1A4, 0, 0)), fs0);
    RenewalIsUnprotected(3, None, fs0);
    es, s, fs := RollbackCanDelete(Renewal(NO_BACKUPS), fs0, Some(Meta(0x1A4, 0, 0)), 0);
    es', s', fs' := RollbackCanDelete(Renewal(3), fs0, None, 0);
  }

  lemma RenewalIsValid(retention: int)
    ensures Renewal(retention).Valid()
  {
    var c := Renewal(retention);
    assert c.plan.files[..0] == [];
    assert Targets(c.env, c.plan.files[..0]) == Some([]);
    assert [] + [SITE] == [SITE];
  }

  lemma RenewalIsUnprotected(retention: int, seen: Option<Meta>, fs0: Fs)
    requires fs0 == map[SITE := Node([7], Meta(0x1A4, 0, 0))]
    requires seen == None || (seen == Some(Meta(0x1A4, 0, 0)) && retention == NO_BACKUPS)
    ensures Unprotected(Renewal(retention), fs0, seen, 0)
  {
    RenewalIsValid(retention);
    TempIsNoBackup(SITE, 0, 0);
  }

  // ----- special mode bits -----

  /** Every root deployment over a file with special mode bits that overrides nothing has a
      successful run that keeps user and group and loses those bits. */
  lemma {:induction false} SpecialBitsLost(c: Ctx, fs0: Fs, at: Nanos) returns (es: seq<Event>, s: St, fs: Fs)
    requires Feasible(c, fs0, at, true) && c.env.root && Preserving(c.plan.files[0])
    requires c.targets[0] in fs0 && fs0[c.targets[0]].meta.mode >= 0x200
    ensures Reaches(c, fs0, es, s, fs) && s.pc.Done? && s.pc.out.error.None? && s.pc.out != Skipped()
    ensures var d, was := c.targets[0], fs0[c.targets[0]].meta;
      d in fs && fs[d].meta == Meta(Perm(was.mode), was.uid, was.gid) && fs[d].meta != was
    ensures AllBut(es, {})
  {
    hide Run, Replay, Targets, TempPath, SameDigest, Granted;
    es, s, fs := Succeeds(c, fs0, at, at, true);
  }

  /** A file with mode 04755, deployed by root, ends up with mode 0755. */
  lemma {:induction false} SetuidLost() returns (es: seq<Event>, s: St, fs: Fs)
    ensures var fs0 := map[SITE := Node([7], Meta(0x9ED, 0, 0))];
      && Reaches(Renewal(3), fs0, es, s, fs) && s.pc.Done? && s.pc.out.error.None?
      && SITE in fs && fs[SITE] == Node([1, 2], Meta(0x1ED, 0, 0))
  {
    hide Run, Replay, TempPath;
    var fs0 := map[SITE := Node([7], Meta(0x9ED, 0, 0))];
    RenewalIsValid(3);
    TempIsNoBackup(SITE, 0, 0);
    es, s, fs := Succeeds(Renewal(3), fs0, 0, 0, true);
  }

  // ----- a rollback that changes the owner -----

  /** A root deployment of one existing file, not as planned, with a reload hook and backups. */
  ghost predicate Renewable(c: Ctx, fs0: Fs, at: Nanos) {
    && Feasible(c, fs0, at, true) && c.plan.hasPost && c.plan.retention != NO_BACKUPS && c.env.root
    && c.targets[0] in fs0
  }

  function Fetched(data: Bytes, stage: Stage): Pc {
    Undoing(0, Rewriting(data, stage))
  }

  lemma FetchSteps(c: Ctx, ps: seq<Prep>, data: Bytes, at: Nanos)
    requires c.Valid() && c.N() == 1 == |ps| && ps[0].backup.Some?
    ensures Step(c, St(Reloading, ps), PostCommit(false)) == Some(St(Undoing(0, Choosing), ps))
    ensures Step(c, St(Undoing(0, Choosing), ps), Internal) == Some(St(Undoing(0, Fetching), ps))
    ensures Step(c, St(Undoing(0, Fetching), ps), ReadFile(ps[0].backup.value, Some(data)))
            == Some(St(Fetched(data, Opening), ps))
    ensures Step(c, St(Fetched(data, Opening), ps), CreateTemp(c.targets[0], at, true))
            == Some(St(Fetched(data, Writing(TempPath(c.targets[0], at))), ps))
  {
    hide Targets, BackupMap, CopyStep, TempPath;
  }

  lemma RewriteSteps(c: Ctx, ps: seq<Prep>, data: Bytes, t: Path)
    requires c.Valid() && c.N() == 1 == |ps|
    ensures Step(c, St(Fetched(data, Writing(t)), ps), Write(t, data, |data|, true))
            == Some(St(Fetched(data, Syncing(t)), ps))
    ensures Step(c, St(Fetched(data, Syncing(t)), ps), Sync(t, true)) == Some(St(Fetched(data, Closing(t)), ps))
    ensures Step(c, St(Fetched(data, Closing(t)), ps), Close(t, true))
            == AfterRewrite(St(Fetched(data, Closing(t)), ps), data, AfterClose(ps[0].owner, t))
  {
    hide Targets, BackupMap, CopyStep;
  }

  lemma ReownSteps(c: Ctx, ps: seq<Prep>, data: Bytes, t: Path)
    requires c.Valid() && c.N() == 1 == |ps|
    ensures var o := ps[0].owner;
      && Step(c, St(Fetched(data, Chmodding(t)), ps), Chmod(t, o.mode, true))
        == AfterRewrite(St(Fetched(data, Chmodding(t)), ps), data, AfterChmod(o, t))
      && (WantsChown(o) ==>
            Step(c, St(Fetched(data, Chowning(t, o.uid, o.gid)), ps), Chown(t, o.uid, o.gid, true))
              == Some(St(Undoing(0, Swapping(t)), ps)))
      && Step(c, St(Undoing(0, Swapping(t)), ps), Rename(t, c.targets[0], true))
        == Some(St(Undoing(1, Choosing), ps))
  {
    hide Targets, BackupMap, CopyStep;
  }

  lemma FinalSteps(c: Ctx, ps: seq<Prep>)
    requires c.Valid() && c.N() == 1 == |ps|
    ensures Step(c, St(Undoing(1, Choosing), ps), Internal) == Some(St(ReloadingOld, ps))
    ensures Step(c, St(ReloadingOld, ps), PostCommit(true))
            == Some(St(Unlocking(1, Report(c, ps, Some(ReloadFailed), false, true)), ps))
  {
    hide Targets, BackupMap, StageStep, CopyStep;
  }

  /** The reload fails and the backup is written to a temp file. */
  lemma Fetches(c: Ctx, fs0: Fs, es0: seq<Event>, ps: seq<Prep>, fs1: Fs, at: Nanos, odd: set<Event>)
      returns (es: seq<Event>, data: Bytes, fs: Fs)
    requires Gets(c, fs0, es0, St(Reloading, ps), fs1, odd) && c.N() == 1 == |ps| && PostCommit(false) in odd
    requires ps[0].backup.Some? && ps[0].backup.value in fs1 && TempPath(c.targets[0], at) !in fs1
    ensures var t := TempPath(c.targets[0], at);
      t in fs && Gets(c, fs0, es, St(Fetched(data, Closing(t)), ps), fs, odd)
  {
    hide Gets, Targets, TempPath, Step;
    ValidWhenReached(c, fs0, es0, St(Reloading, ps), fs1, odd);
    var d, b, t := c.targets[0], ps[0].backup.value, TempPath(c.targets[0], at);
    data := fs1[b].bytes;
    FetchSteps(c, ps, data, at);
    RewriteSteps(c, ps, data, t);
    es, fs := Then(c, fs0, es0, St(Reloading, ps), fs1, odd, PostCommit(false), St(Undoing(0, Choosing), ps));
    es, fs := Then(c, fs0, es, St(Undoing(0, Choosing), ps), fs, odd, Internal, St(Undoing(0, Fetching), ps));
    es, fs := Then(c, fs0, es, St(Undoing(0, Fetching), ps), fs, odd, ReadFile(b, Some(data)),
                   St(Fetched(data, Opening), ps));
    es, fs := Then(c, fs0, es, St(Fetched(data, Opening), ps), fs, odd, CreateTemp(d, at, true),
                   St(Fetched(data, Writing(t)), ps));
    es, fs := Then(c, fs0, es, St(Fetched(data, Writing(t)), ps), fs, odd, Write(t, data, |data|, true),
                   St(Fetched(data, Syncing(t)), ps));
    es, fs := Then(c, fs0, es, St(Fetched(data, Syncing(t)), ps), fs, odd, Sync(t, true),
                   St(Fetched(data, Closing(t)), ps));
  }

  /** It gets its owner and is renamed into place, and the second reload passes. */
  lemma PutsBack(c: Ctx, fs0: Fs, es0: seq<Event>, ps: seq<Prep>, fs1: Fs, data: Bytes, t: Path, odd: set<Event>)
      returns (es: seq<Event>, out: Outcome, fs: Fs)
    requires Gets(c, fs0, es0, St(Fetched(data, Closing(t)), ps), fs1, odd) && c.N() == 1 == |ps| && t in fs1
    ensures Gets(c, fs0, es, St(Done(out), ps), fs, odd)
    ensures out.error == Some(ReloadFailed) && out.result.Some? && out.result.value.rolledBack
  {
    hide Gets, Targets, BackupMap, Step;
    ValidWhenReached(c, fs0, es0, St(Fetched(data, Closing(t)), ps), fs1, odd);
    var o := ps[0].owner;
    RewriteSteps(c, ps, data, t);
    ReownSteps(c, ps, data, t);
    FinalSteps(c, ps);
    out := Report(c, ps, Some(ReloadFailed), false, true);
    var s := AfterRewrite(St(Fetched(data, Closing(t)), ps), data, AfterClose(o, t)).value;
    es, fs := Then(c, fs0, es0, St(Fetched(data, Closing(t)), ps), fs1, odd, Close(t, true), s);
    if o.modeSet {
      s := AfterRewrite(St(Fetched(data, Chmodding(t)), ps), data, AfterChmod(o, t)).value;
      es, fs := Then(c, fs0, es, St(Fetched(data, Chmodding(t)), ps), fs, odd, Chmod(t, o.mode, true), s);
    }
    if WantsChown(o) {
      es, fs := Then(c, fs0, es, s, fs, odd, Chown(t, o.uid, o.gid, true), St(Undoing(0, Swapping(t)), ps));
    }
    es, fs := Then(c, fs0, es, St(Undoing(0, Swapping(t)), ps), fs, odd, Rename(t, c.targets[0], true),
                   St(Undoing(1, Choosing), ps));
    es, fs := Then(c, fs0, es, St(Undoing(1, Choosing), ps), fs, odd, Internal, St(ReloadingOld, ps));
    es, fs := Then(c, fs0, es, St(ReloadingOld, ps), fs, odd, PostCommit(true), St(Unlocking(1, out), ps));
    es := Unlocks(c, fs0, es, ps, fs, 1, out, odd);
  }

  /** Every such deployment has a run in which no call fails but the first reload and which reports
      that it was rolled back: the file has its old bytes, and its old mode and owner if and only if
      the plan asks for those. */
  lemma {:induction false} RollbackReowns(c: Ctx, fs0: Fs, at: Nanos, bt: Nanos)
      returns (es: seq<Event>, s: St, fs: Fs)
    requires Renewable(c, fs0, at)
    ensures Reaches(c, fs0, es, s, fs) && s.pc.Done? && s.pc.out.error == Some(ReloadFailed)
    ensures s.pc.out.result.Some? && s.pc.out.result.value.rolledBack && AllBut(es, {PostCommit(false)})
    ensures var d := c.targets[0];
      && d in fs && fs[d].bytes == fs0[d].bytes
      && (fs[d].meta == fs0[d].meta <==> ApplyRestores.Agrees(c.env, c.plan.files[0], fs0[d].meta))
      && fs[d].meta.mode == if c.plan.files[0].mode != 0 then c.plan.files[0].mode else Perm(fs0[d].meta.mode)
  {
    hide Reaches, Targets, Resolve, TempPath, BackupPath, SameDigest, Granted, StartCommit, ApplyRestores.Agrees;
    var d, odd := c.targets[0], {PostCommit(false)};
    var p, t, b := PrepFor(c, 0, Truth(fs0, d)).value, TempPath(d, at), BackupPath(d, bt);
    TempIsNoBackup(d, at, bt);
    es := Begins(c, fs0, [Truth(fs0, d)], odd);
    var ps := Preps(c, fs0, [Truth(fs0, d)], 1);
    es, fs := BacksUp(c, fs0, es, ps, fs0, 0, bt, odd);
    assert Same(fs0, fs, t);
    ps := ps[0 := p.(backup := Some(b))];
    es := BackupsEnd(c, fs0, es, ps, fs, 1, odd);
    es, fs := Stages(c, fs0, es, ps, fs, 0, at, true, odd);
    ps := ps[0 := ps[0].(temp := Some(t))];
    es := Validates(c, fs0, es, ps, fs, odd);
    es, fs := Renames(c, fs0, es, ps, fs, 0, odd);
    var data, out;
    es, data, fs := Fetches(c, fs0, es, ps, fs, at, odd);
    es, out, fs := PutsBack(c, fs0, es, ps, fs, data, t, odd);
    s := St(Done(out), ps);
    OldBytesNewOwner(c, fs0, es, s, fs);
  }

  lemma {:induction false} OldBytesNewOwner(c: Ctx, fs0: Fs, es: seq<Event>, s: St, fs: Fs)
    requires Reaches(c, fs0, es, s, fs) && c.N() == 1 && s.pc.Done? && s.pc.out.error == Some(ReloadFailed)
    requires c.env.root && c.plan.retention != NO_BACKUPS && |s.preps| == 1 && s.preps[0].hadOrig
    ensures var d := c.targets[0];
      && d in fs0 && d in fs && fs[d].bytes == fs0[d].bytes
      && (fs[d].meta == fs0[d].meta <==> ApplyRestores.Agrees(c.env, c.plan.files[0], fs0[d].meta))
      && fs[d].meta.mode == if c.plan.files[0].mode != 0 then c.plan.files[0].mode else Perm(fs0[d].meta.mode)
  {
    hide Run, Replay, ApplyRestores.Agrees;
    KnownReached(c, fs0, es, s, fs, 0);
    SeenReached(c, fs0, es, s, fs);
    ApplyRestores.RestoredOwnership(c, fs0, es, s, fs, 0);
  }

  /** A file with mode 0644 that is to get mode 0600 has mode 0600 after the rollback as well. */
  lemma {:induction false} ModeNotRestored() returns (es: seq<Event>, s: St, fs: Fs)
    ensures var fs0 := map[SITE := Node([7], Meta(0x1A4, 0, 0))];
      && Reaches(Tightening(), fs0, es, s, fs) && AllBut(es, {PostCommit(false)})
      && s.pc.Done? && s.pc.out.result.Some? && s.pc.out.result.value.rolledBack
      && SITE in fs && fs[SITE].bytes == [7] && fs[SITE].meta.mode == 0x180
  {
    hide Run, Replay, TempPath;
    var c, fs0 := Tightening(), map[SITE := Node([7], Meta(0x1A4, 0, 0))];
    assert c.plan.files[..0] == [];
    assert Targets(c.env, c.plan.files[..0]) == Some([]);
    assert [] + [SITE] == [SITE];
    TempIsNoBackup(SITE, 0, 0);
    es, s, fs := RollbackReowns(c, fs0, 0, 0);
  }

  function Tightening(): Ctx {
    Ctx(Machine(), Plan([File(SITE, [1, 2], 0x180, "", "")], Defaults(0, "", ""), false, true, 3, false), [SITE])
  }
}
