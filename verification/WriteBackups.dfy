/** The backup AtomicWriteFile takes: its contents, mode and owner. */
module WriteBackups {
  import opened Paths
  import opened Data
  import opened Os
  import opened Ownership
  import opened FileOps
  import opened ApplyProtocol
  import opened ApplySafety
  import opened WriteProtocol
  import opened WriteOutcomes
  import opened ApplyBackups

  predicate NotCopied(pc: WritePc) {
    || pc.Acquiring? || pc.CheckingContext? || pc.ExaminingDest? || pc.ComparingBytes? || pc.StagingData?
    || (pc.CopyingOld? && (pc.copy.Reading? || pc.copy.Examining? || pc.copy.OpeningCopy?))
  }

  ghost predicate WriteCopyInv(c: Ctx, fs0: Fs, es: seq<Event>, fs: Fs, s: WriteSt)
    requires OneFile(c)
  {
    var d := c.targets[0];
    && (s.prep.Some? && s.prep.value.backup.Some? ==> Faithful(c, fs0, es, fs, d, s.prep.value.backup.value))
    && (NotCopied(s.pc) ==> Pristine(fs0, es, fs, d))
    && (s.pc.CopyingOld? ==> CopyGoing(c, fs0, es, fs, d, s.pc.copy))
  }

  lemma CopyStarts(c: Ctx, s: WriteSt, e: Event, s': WriteSt)
    requires OneFile(c) && WriteStep(c, s, e) == Some(s') && !s.pc.CopyingOld?
    ensures s'.prep.Some? && s'.prep.value.backup.Some? ==> s.prep.Some? && s'.prep.value.backup == s.prep.value.backup
    ensures NotCopied(s'.pc) ==> NotCopied(s.pc) && !e.Remove?
    ensures s'.pc.CopyingOld? ==> s'.pc.copy.Reading?
    ensures s.pc.PruningBackups? ==> e.Remove?
  {
    hide StageStep, Resolve, SameDigest, Targets, Doomed;
    if s.pc.StagingData? && s.prep.Some? && e.Remove? { StagingRemoves(c, s, e); }
  }

  lemma StagingRemoves(c: Ctx, s: WriteSt, e: Event)
    requires OneFile(c) && s.pc.StagingData? && s.prep.Some? && e.Remove?
    ensures var r := StageStep(c.env, c.targets[0], c.plan.files[0].bytes, s.prep.value.owner, s.pc.stage, e);
      r.NoTemp? || r.Wrong?
  {
  }

  /** Only the copying writes to a backup. */
  lemma OnlyCopyingWrites(c: Ctx, s: WriteSt, e: Event, s': WriteSt, x: Path)
    requires OneFile(c) && WriteShape(c, s) && WriteStep(c, s, e) == Some(s') && !s.pc.CopyingOld?
    requires MadeBackup(c.targets[0], x)
    ensures !Alters(e, x)
  {
    hide Sibling, MadeBackup, MadeTemp, WriteStep, WriteShape, Targets, IsBackupOf;
    WriteStepWithin(c, s, e, s');
    CopyStarts(c, s, e, s');
  }

  lemma WriteCopies(c: Ctx, fs0: Fs, es: seq<Event>, fs: Fs, s: WriteSt, e: Event, s': WriteSt)
    requires OneFile(c) && WriteInv(c, fs0, fs, s) && Enabled(e, fs) && WriteStep(c, s, e) == Some(s')
    requires WriteCopyInv(c, fs0, es, fs, s) && s.pc.CopyingOld?
    ensures WriteCopyInv(c, fs0, es + [e], Effect(c.env, e, fs), s')
  {
    hide Sibling, MadeBackup, MadeTemp, Targets, CopyStep, StageStep, Effect, Enabled, CopyExact, Pristine, CopyGoing,
      Faithful, PrepNames, PrepHolds, SavedHolds, CopyOk;
    var d, copy := c.targets[0], s.pc.copy;
    var r := CopyStep(d, copy, e);
    assert d in fs0 && Same(fs0, fs, d);
    if r.Copying? {
      CopyOrder(d, copy, e);
      if NotCopied(s'.pc) { StaysPristine(c, fs0, es, fs, d, copy, e); }
      CopyGoesOn(c, fs0, es, fs, d, copy, e, NotCopied(s.pc));
    } else if r.Copied? {
      CopyEnds(c, fs0, es, fs, d, copy, e);
    }
  }

  lemma WriteLeaves(c: Ctx, fs0: Fs, es: seq<Event>, fs: Fs, s: WriteSt, e: Event, s': WriteSt)
    requires OneFile(c) && WriteShape(c, s) && Enabled(e, fs) && WriteStep(c, s, e) == Some(s')
    requires WriteCopyInv(c, fs0, es, fs, s) && !s.pc.CopyingOld?
    ensures WriteCopyInv(c, fs0, es + [e], Effect(c.env, e, fs), s')
  {
    hide Sibling, MadeBackup, MadeTemp, Targets, WriteStep, Effect, Enabled, Pristine, Faithful, NotCopied, Alters;
    var d := c.targets[0];
    CopyStarts(c, s, e, s');
    if s'.prep.Some? && s'.prep.value.backup.Some? {
      var b := s'.prep.value.backup.value;
      OnlyCopyingWrites(c, s, e, s', b);
      FaithfulStays(c, fs0, es, fs, d, b, e);
    }
    if NotCopied(s'.pc) { WritePristine(c, fs0, es, fs, s, e, s'); }
  }

  lemma WritePristine(c: Ctx, fs0: Fs, es: seq<Event>, fs: Fs, s: WriteSt, e: Event, s': WriteSt)
    requires OneFile(c) && WriteShape(c, s) && Enabled(e, fs) && WriteStep(c, s, e) == Some(s')
    requires !s.pc.CopyingOld? && !e.Remove? && Pristine(fs0, es, fs, c.targets[0])
    ensures Pristine(fs0, es + [e], Effect(c.env, e, fs), c.targets[0])
  {
    hide MadeBackup, WriteShape, WriteStep, Alters, Effect, Enabled, Targets, Chowned;
    var d, fs' := c.targets[0], Effect(c.env, e, fs);
    forall x | MadeBackup(d, x) ensures Same(fs0, fs', x) && !Chowned(es + [e], x) {
      OnlyCopyingWrites(c, s, e, s', x);
      Unaltered(c.env, e, fs, x);
      GiftedSnoc(es, e, x);
    }
  }

  lemma {:induction false} WriteCopyReached(c: Ctx, fs0: Fs, es: seq<Event>, s: WriteSt, fs: Fs)
    requires WriteReaches(c, fs0, es, s, fs)
    ensures WriteCopyInv(c, fs0, es, fs, s)
  {
    hide WriteStep, Effect, Enabled, WriteCopyInv, WriteShape, Holds;
    if es == [] {
      NothingWritten(c, fs0);
    } else {
      var n := |es| - 1;
      var s1, fs1 := WriteRun(c, es[..n]).value, Replay(c.env, fs0, es[..n]).value;
      WriteCopyReached(c, fs0, es[..n], s1, fs1);
      WriteInvReached(c, fs0, es[..n], s1, fs1);
      assert es == es[..n] + [es[n]];
      if s1.pc.CopyingOld? { WriteCopies(c, fs0, es[..n], fs1, s1, es[n], s); }
      else { WriteLeaves(c, fs0, es[..n], fs1, s1, es[n], s); }
    }
  }

  lemma NothingWritten(c: Ctx, fs0: Fs)
    requires OneFile(c)
    ensures WriteCopyInv(c, fs0, [], fs0, WriteStart())
  {
    hide MadeBackup;
  }

  /** The backup that the result names, if it was not there before: the original bytes, the original
      permission bits under the umask, and the original owner if the chown was granted. */
  lemma {:induction false} WriteNamedBackupIsCopy(c: Ctx, fs0: Fs, es: seq<Event>, s: WriteSt, fs: Fs, b: Path)
    requires WriteReaches(c, fs0, es, s, fs) && s.pc.Finished? && s.pc.out.result.Some?
    requires s.pc.out.result.value.backup == Some(b) && b !in fs0 && b in fs
    ensures var d := c.targets[0];
      && d in fs0 && fs[b].bytes == fs0[d].bytes && fs[b].meta.mode == c.env.masked(fs0[d].meta.mode % 0x200)
      && (if Gifted(es, b) then fs[b].meta.uid == fs0[d].meta.uid && fs[b].meta.gid == fs0[d].meta.gid
          else fs[b].meta.uid == c.env.uid && fs[b].meta.gid == c.env.gid)
  {
    hide WriteRun, Replay, Gifted, Pristine, CopyGoing, Sibling, MadeBackup, MadeTemp, Holds;
    WriteInvReached(c, fs0, es, s, fs);
    WriteCopyReached(c, fs0, es, s, fs);
  }
}
