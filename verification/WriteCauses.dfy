/** Which calls make AtomicWriteFile fail, and with which error. */
module WriteCauses {
  import opened Paths
  import opened Data
  import opened Os
  import opened Ownership
  import opened FileOps
  import opened ApplyProtocol
  import opened ApplySafety
  import opened ApplyCauses
  import opened WriteProtocol

  // ----- calls that decide -----

  ghost predicate CopyBegan(past: seq<Event>) {
    exists e | e in past :: e.OpenBackup?
  }

  /** Before anything is written, the destination is found to hold the new bytes. */
  ghost predicate Matches(c: Ctx, past: seq<Event>, e: Event)
    requires OneFile(c)
  {
    e.ReadFile? && e.got.Some? && SameDigest(c.env, e.got.value, c.plan.files[0].bytes) && !StagingBegan(past)
  }

  /** A call of writing the temp file that fails: before the backup is opened. */
  ghost predicate WriteTempFault(env: Env, past: seq<Event>, e: Event) {
    Refuses(env, e) && !CopyBegan(past)
  }

  /** The destination cannot be read or examined again, or its copy not be opened, filled or closed. */
  ghost predicate WriteCopyFault(past: seq<Event>, e: Event) {
    || (e.OpenBackup? && !e.ok)
    || ((e.Write? || e.Close?) && !e.ok && CopyBegan(past))
    || (((e.ReadFile? && e.got.None?) || (e.Stat? && e.meta.None?)) && StagingBegan(past))
  }

  ghost predicate BytesMatched(c: Ctx, es: seq<Event>)
    requires OneFile(c)
  {
    exists k | 0 <= k < |es| :: Matches(c, es[..k], es[k])
  }

  ghost predicate WriteTempFailed(env: Env, es: seq<Event>) {
    exists k | 0 <= k < |es| :: WriteTempFault(env, es[..k], es[k])
  }

  ghost predicate WriteCopyFailed(es: seq<Event>) {
    exists k | 0 <= k < |es| :: WriteCopyFault(es[..k], es[k])
  }

  lemma Prefixes(es: seq<Event>, e: Event)
    ensures var es' := es + [e];
      es'[..|es|] == es && es'[|es|] == e && forall k | 0 <= k < |es| :: es'[..k] == es[..k] && es'[k] == es[k]
    ensures CopyBegan(es + [e]) <==> CopyBegan(es) || e.OpenBackup?
  {
    assert forall x :: x in es + [e] <==> x in es || x == e;
  }

  lemma MatchedSnoc(c: Ctx, es: seq<Event>, e: Event)
    requires OneFile(c)
    ensures BytesMatched(c, es + [e]) <==> BytesMatched(c, es) || Matches(c, es, e)
  {
    hide Matches, Targets;
    var es' := es + [e];
    Prefixes(es, e);
    if Matches(c, es, e) { assert Matches(c, es'[..|es|], es'[|es|]); }
    if k :| 0 <= k < |es| && Matches(c, es[..k], es[k]) { assert Matches(c, es'[..k], es'[k]); }
  }

  lemma TempFailedSnoc(env: Env, es: seq<Event>, e: Event)
    ensures WriteTempFailed(env, es + [e]) <==> WriteTempFailed(env, es) || WriteTempFault(env, es, e)
  {
    hide WriteTempFault;
    var es' := es + [e];
    Prefixes(es, e);
    if WriteTempFault(env, es, e) { assert WriteTempFault(env, es'[..|es|], es'[|es|]); }
    if k :| 0 <= k < |es| && WriteTempFault(env, es[..k], es[k]) { assert WriteTempFault(env, es'[..k], es'[k]); }
  }

  lemma CopyFailedSnoc(es: seq<Event>, e: Event)
    ensures WriteCopyFailed(es + [e]) <==> WriteCopyFailed(es) || WriteCopyFault(es, e)
  {
    hide WriteCopyFault;
    var es' := es + [e];
    Prefixes(es, e);
    if WriteCopyFault(es, e) { assert WriteCopyFault(es'[..|es|], es'[|es|]); }
    if k :| 0 <= k < |es| && WriteCopyFault(es[..k], es[k]) { assert WriteCopyFault(es'[..k], es'[k]); }
  }

  // ----- the control state agrees -----

  /** What the calls so far have shown. */
  datatype WriteMarks = WriteMarks(
    canceled: bool, unknown: bool, matched: bool, unstaged: bool, miscopied: bool, unswapped: bool,
    staging: bool, copying: bool, seen: bool)

  const UNMARKED := WriteMarks(false, false, false, false, false, false, false, false, false)

  ghost function WriteMarksOf(c: Ctx, es: seq<Event>): WriteMarks
    requires OneFile(c)
  {
    WriteMarks(Context(false) in es, OwnerUnknown(c, es), BytesMatched(c, es), WriteTempFailed(c.env, es),
      WriteCopyFailed(es), RenameRefused(es), StagingBegan(es), CopyBegan(es), Seen(es, c.targets[0]))
  }

  function WriteNote(c: Ctx, m: WriteMarks, e: Event): WriteMarks
    requires OneFile(c)
  {
    WriteMarks(
      m.canceled || e == Context(false),
      m.unknown || (e.Stat? && !m.seen && Unresolved(c, e.path, e.meta)),
      m.matched
        || (e.ReadFile? && e.got.Some? && SameDigest(c.env, e.got.value, c.plan.files[0].bytes) && !m.staging),
      m.unstaged || (Refuses(c.env, e) && !m.copying),
      m.miscopied || (e.OpenBackup? && !e.ok) || ((e.Write? || e.Close?) && !e.ok && m.copying)
        || (((e.ReadFile? && e.got.None?) || (e.Stat? && e.meta.None?)) && m.staging),
      m.unswapped || (e.Rename? && !e.ok),
      m.staging || e.CreateTemp?,
      m.copying || e.OpenBackup?,
      m.seen || (e.Stat? && e.path == c.targets[0] && e.meta.Some?))
  }

  lemma WriteNoted(c: Ctx, es: seq<Event>, e: Event)
    requires OneFile(c)
    ensures WriteMarksOf(c, es + [e]) == WriteNote(c, WriteMarksOf(c, es), e)
  {
    hide BytesMatched, WriteTempFailed, WriteCopyFailed, CopyBegan, StagingBegan, OwnerUnknown, RenameRefused, Seen,
      Refuses, SameDigest, Targets, Resolve;
    Prefixes(es, e);
    MatchedSnoc(c, es, e);
    TempFailedSnoc(c.env, es, e);
    CopyFailedSnoc(es, e);
    Recent(es, e);
    RecentSeen(es, e);
    RecentFaults(c, es, e);
  }

  predicate WriteFine(m: WriteMarks) {
    !m.canceled && !m.unknown && !m.matched && !m.unstaged && !m.miscopied && !m.unswapped
  }

  /** Exactly the calls that explain the outcome have been made. */
  predicate WriteExplains(m: WriteMarks, out: WriteOutcome) {
    match out.error
    case None =>
      if out == Idempotent() then m.matched && WriteFine(m.(matched := false, unknown := false)) else WriteFine(m)
    case Some(Canceled) => m.canceled && WriteFine(m.(canceled := false))
    case Some(OwnershipUnresolved) => m.unknown && WriteFine(m.(unknown := false))
    case Some(TempFailed) => m.unstaged && WriteFine(m.(unstaged := false))
    case Some(BackupFailed) => m.miscopied && WriteFine(m.(miscopied := false))
    case Some(RenameFailed) => m.unswapped && WriteFine(m.(unswapped := false))
    case _ => false
  }

  predicate WriteTold(c: Ctx, s: WriteSt, m: WriteMarks)
    requires OneFile(c)
  {
    match s.pc
    case Acquiring => m == UNMARKED
    case CheckingContext => m == UNMARKED
    case ExaminingDest => m == UNMARKED
    case ComparingBytes(meta) =>
      m == UNMARKED.(seen := true, unknown := Resolve(c.env, c.plan.files[0], c.plan.defaults, Some(meta)).None?)
    case StagingData(stage) =>
      && WriteFine(m.(unstaged := false)) && (m.unstaged <==> stage.Discarding?) && (m.staging <==> !stage.Opening?)
      && !m.copying && (s.prep.Some? && s.prep.value.hadOrig ==> m.seen)
    case CopyingOld(copy) =>
      WriteFine(m) && m.staging && m.seen && (m.copying <==> copy.Filling? || copy.Finishing? || copy.Gifting?)
    case SwappingIn => WriteFine(m)
    case ScanningBackups => WriteFine(m)
    case PruningBackups(_) => WriteFine(m)
    case DroppingTemp(out) => WriteExplains(m, out)
    case Releasing(out) => WriteExplains(m, out)
    case Finished(out) => WriteExplains(m, out)
  }

  lemma OneResolves(c: Ctx, meta: Option<Meta>)
    requires OneFile(c)
    ensures Unresolved(c, c.targets[0], meta) <==> Resolve(c.env, c.plan.files[0], c.plan.defaults, meta).None?
  {
    hide Targets, Resolve;
  }

  lemma WriteToldEarly(c: Ctx, s: WriteSt, m: WriteMarks, e: Event, s': WriteSt)
    requires OneFile(c) && WriteTold(c, s, m) && WriteStep(c, s, e) == Some(s') && s.prep.None?
    ensures WriteTold(c, s', WriteNote(c, m, e))
  {
    hide Targets, Resolve, SameDigest, Unresolved;
    if e.Stat? { OneResolves(c, e.meta); }
  }

  lemma WriteToldStaging(c: Ctx, s: WriteSt, m: WriteMarks, e: Event, s': WriteSt)
    requires OneFile(c) && WriteTold(c, s, m) && WriteStep(c, s, e) == Some(s') && s.prep.Some? && s.pc.StagingData?
    ensures WriteTold(c, s', WriteNote(c, m, e))
  {
    hide Targets, Resolve, SameDigest, Unresolved, TempPath;
  }

  lemma WriteToldCopying(c: Ctx, s: WriteSt, m: WriteMarks, e: Event, s': WriteSt)
    requires OneFile(c) && WriteTold(c, s, m) && WriteStep(c, s, e) == Some(s') && s.prep.Some? && s.pc.CopyingOld?
    ensures WriteTold(c, s', WriteNote(c, m, e))
  {
    hide Targets, Resolve, SameDigest, Unresolved, BackupPath;
  }

  lemma TellsNothing(c: Ctx, m: WriteMarks, e: Event)
    requires OneFile(c) && (e.Lock? || e.Unlock? || e.Remove? || e.ListBackups? || (e.Rename? && e.ok))
    ensures WriteNote(c, m, e) == m
  {
    hide Targets, Unresolved, SameDigest;
  }

  lemma WriteToldLate(c: Ctx, s: WriteSt, m: WriteMarks, e: Event, s': WriteSt)
    requires OneFile(c) && WriteTold(c, s, m) && WriteStep(c, s, e) == Some(s') && s.prep.Some?
    requires !s.pc.StagingData? && !s.pc.CopyingOld?
    ensures WriteTold(c, s', WriteNote(c, m, e))
  {
    hide Targets, Resolve, SameDigest, Unresolved, StageStep, CopyStep, Doomed, WriteNote;
    if s.pc.SwappingIn? && !e.ok { SwapRefused(c, m, e); } else { TellsNothing(c, m, e); }
  }

  lemma SwapRefused(c: Ctx, m: WriteMarks, e: Event)
    requires OneFile(c) && e.Rename? && !e.ok
    ensures WriteNote(c, m, e) == m.(unswapped := true)
  {
    hide Targets, Unresolved, SameDigest;
  }

  lemma {:induction false} WriteToldReached(c: Ctx, fs0: Fs, es: seq<Event>, s: WriteSt, fs: Fs)
    requires WriteReaches(c, fs0, es, s, fs)
    ensures WriteTold(c, s, WriteMarksOf(c, es))
  {
    hide WriteStep, Effect, Enabled, WriteTold, WriteMarksOf, WriteNote;
    if es == [] {
      NothingMarked(c);
    } else {
      var n := |es| - 1;
      var s1, fs1 := WriteRun(c, es[..n]).value, Replay(c.env, fs0, es[..n]).value;
      WriteToldReached(c, fs0, es[..n], s1, fs1);
      WriteNoted(c, es[..n], es[n]);
      assert es == es[..n] + [es[n]];
      var m := WriteMarksOf(c, es[..n]);
      if s1.prep.None? { WriteToldEarly(c, s1, m, es[n], s); }
      else if s1.pc.StagingData? { WriteToldStaging(c, s1, m, es[n], s); }
      else if s1.pc.CopyingOld? { WriteToldCopying(c, s1, m, es[n], s); }
      else { WriteToldLate(c, s1, m, es[n], s); }
    }
  }

  lemma NothingMarked(c: Ctx)
    requires OneFile(c)
    ensures WriteTold(c, WriteStart(), WriteMarksOf(c, []))
  {
  }

  // ----- the theorems -----

  ghost predicate WriteExplained(c: Ctx, es: seq<Event>, out: WriteOutcome)
    requires OneFile(c)
  {
    && (out.error == Some(Canceled) <==> Context(false) in es)
    && (out.error == Some(OwnershipUnresolved) <==> OwnerUnknown(c, es) && !BytesMatched(c, es))
    && (out.error == Some(TempFailed) <==> WriteTempFailed(c.env, es))
    && (out.error == Some(BackupFailed) <==> WriteCopyFailed(es))
    && (out.error == Some(RenameFailed) <==> RenameRefused(es))
    && (out == Idempotent() <==> BytesMatched(c, es))
    && (out.error == None <==>
          && Context(false) !in es && (OwnerUnknown(c, es) ==> BytesMatched(c, es)) && !WriteTempFailed(c.env, es)
          && !WriteCopyFailed(es) && !RenameRefused(es))
  }

  lemma WriteExplainsOne(m: WriteMarks, out: WriteOutcome)
    requires WriteExplains(m, out)
    ensures out.error == Some(Canceled) <==> m.canceled
    ensures out.error == Some(OwnershipUnresolved) <==> m.unknown && !m.matched
    ensures out.error == Some(TempFailed) <==> m.unstaged
    ensures out.error == Some(BackupFailed) <==> m.miscopied
    ensures out.error == Some(RenameFailed) <==> m.unswapped
    ensures out == Idempotent() <==> m.matched
    ensures out.error == None <==>
      !m.canceled && (m.unknown ==> m.matched) && !m.unstaged && !m.miscopied && !m.unswapped
  {
  }

  /** Every outcome of AtomicWriteFile, exactly: each error is returned if and only if a call of the
      run went the way that calls for it, and the write is skipped if and only if the bytes match. */
  lemma {:induction false} WriteErrorsIff(c: Ctx, fs0: Fs, es: seq<Event>, s: WriteSt, fs: Fs)
    requires WriteReaches(c, fs0, es, s, fs) && s.pc.Finished?
    ensures WriteExplained(c, es, s.pc.out)
  {
    hide WriteStep, WriteRun, Replay, BytesMatched, WriteTempFailed, WriteCopyFailed, CopyBegan, StagingBegan,
      OwnerUnknown, RenameRefused, Seen, Targets, WriteExplains;
    WriteToldReached(c, fs0, es, s, fs);
    WriteExplainsOne(WriteMarksOf(c, es), s.pc.out);
  }

  // ----- what is noticed before anything is written -----

  predicate NothingDone(out: WriteOutcome) {
    out.error == Some(Canceled) || out.error == Some(OwnershipUnresolved) || out == Idempotent()
  }

  /** Until the owner is resolved nothing is written, and a cancelled run makes three calls in all. */
  predicate Hushed(c: Ctx, es: seq<Event>, s: WriteSt)
    requires OneFile(c)
  {
    var lock, unlock := Lock(FileLock(c.targets[0])), Unlock(FileLock(c.targets[0]));
    && (s.prep.None? ==> forall e | e in es :: IsReading(e))
    && (s.prep.Some? && (s.pc.DroppingTemp? || s.pc.Releasing? || s.pc.Finished?) ==> !NothingDone(s.pc.out))
    && (s.pc.Acquiring? ==> es == [])
    && (s.pc.CheckingContext? ==> es == [lock])
    && (s.pc.Releasing? && s.pc.out.error == Some(Canceled) ==> es == [lock, Context(false)])
    && (s.pc.Finished? && s.pc.out.error == Some(Canceled) ==> es == [lock, Context(false), unlock])
  }

  lemma HushedEarly(c: Ctx, es: seq<Event>, s: WriteSt, e: Event, s': WriteSt)
    requires OneFile(c) && Hushed(c, es, s) && WriteStep(c, s, e) == Some(s') && s.prep.None?
    ensures Hushed(c, es + [e], s')
  {
    hide Targets, Resolve, SameDigest;
  }

  lemma HushedLate(c: Ctx, es: seq<Event>, s: WriteSt, e: Event, s': WriteSt)
    requires OneFile(c) && Hushed(c, es, s) && WriteStep(c, s, e) == Some(s') && s.prep.Some?
    ensures Hushed(c, es + [e], s')
  {
    hide Targets, Resolve, SameDigest, Doomed, StageStep, CopyStep, IsReading;
  }

  lemma {:induction false} HushedReached(c: Ctx, fs0: Fs, es: seq<Event>, s: WriteSt, fs: Fs)
    requires WriteReaches(c, fs0, es, s, fs)
    ensures Hushed(c, es, s)
  {
    hide WriteStep, Effect, Enabled, Hushed;
    if es == [] {
      NothingHeard(c);
    } else {
      var n := |es| - 1;
      var s1, fs1 := WriteRun(c, es[..n]).value, Replay(c.env, fs0, es[..n]).value;
      HushedReached(c, fs0, es[..n], s1, fs1);
      assert es == es[..n] + [es[n]];
      if s1.prep.None? { HushedEarly(c, es[..n], s1, es[n], s); }
      else { HushedLate(c, es[..n], s1, es[n], s); }
    }
  }

  lemma NothingHeard(c: Ctx)
    requires OneFile(c)
    ensures Hushed(c, [], WriteStart())
  {
  }

  /** A cancelled context is noticed under the lock and before any other call; after that, after an
      unknown owner and after matching bytes nothing was written and the tree is as it was. */
  lemma {:induction false} WriteEarlyChangesNothing(c: Ctx, fs0: Fs, es: seq<Event>, s: WriteSt, fs: Fs)
    requires WriteReaches(c, fs0, es, s, fs) && s.pc.Finished?
    ensures Context(false) in es ==>
      es == [Lock(FileLock(c.targets[0])), Context(false), Unlock(FileLock(c.targets[0]))]
    ensures Context(false) in es || OwnerUnknown(c, es) || BytesMatched(c, es) ==>
      fs == fs0 && forall e | e in es :: e.Lock? || e.Unlock? || e.Context? || e.ReadFile? || e.Stat?
  {
    hide WriteRun, Replay, OwnerUnknown, BytesMatched, WriteTempFailed, WriteCopyFailed, RenameRefused;
    WriteErrorsIff(c, fs0, es, s, fs);
    HushedReached(c, fs0, es, s, fs);
    if s.prep.None? { ReadingChangesNothing(c.env, fs0, es); }
  }
}
