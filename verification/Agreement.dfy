/** AtomicWriteFile and a one-file Apply without hooks do the same. */
module Agreement {
  import opened Text
  import opened Paths
  import opened Data
  import opened Os
  import opened Ownership
  import opened ApplyProtocol
  import opened ApplySafety
  import opened ApplyTheorems
  import opened ApplyOutcomes
  import opened Retention
  import opened WriteProtocol
  import opened WriteOutcomes
  import opened Reports
  import opened Runs
  import opened WriteRuns

  // ----- the two agree -----

  predicate WriteSkipPath(pc: WritePc) {
    match pc
    case Acquiring => true
    case CheckingContext => true
    case ExaminingDest => true
    case ComparingBytes(_) => true
    case Releasing(out) => out == Idempotent()
    case Finished(out) => out == Idempotent()
    case _ => false
  }

  lemma WriteSkipStep(c: Ctx, fs: Fs, s: WriteSt, e: Event, s': WriteSt)
    requires OneFile(c) && IsMatch(c, fs, c.targets[0], c.plan.files[0]) && !c.plan.skipIdempotent
    requires WriteSkipPath(s.pc) && s.prep.None? && Enabled(e, fs) && WriteStep(c, s, e) == Some(s')
    requires Readable(fs, e) && !(e.Stat? && e.meta.None?)
    ensures WriteSkipPath(s'.pc) && s'.prep.None? && Effect(c.env, e, fs) == fs
  {
    hide Sibling, MadeBackup, MadeTemp, Resolve, Targets, SameDigest;
  }

  lemma {:induction false} WriteMatchingSkips(c: Ctx, fs: Fs, es: seq<Event>, s: WriteSt, fs': Fs)
    requires WriteReaches(c, fs, es, s, fs') && IsMatch(c, fs, c.targets[0], c.plan.files[0]) && !c.plan.skipIdempotent
    requires Undisturbed(fs, es) && HonestStats(fs, es)
    ensures fs' == fs && WriteSkipPath(s.pc) && s.prep.None?
  {
    hide Sibling, MadeBackup, MadeTemp, WriteStep, Enabled, Effect, SameDigest;
    if es != [] {
      var n := |es| - 1;
      var s1, fs1 := WriteRun(c, es[..n]).value, Replay(c.env, fs, es[..n]).value;
      WriteMatchingSkips(c, fs, es[..n], s1, fs1);
      var e := es[n];
      assert e in es;
      if e.Stat? { OnlyStatsDestination(c, s1, e, s); }
      WriteSkipStep(c, fs, s1, e, s);
    }
  }

  lemma OnlyStatsDestination(c: Ctx, s: WriteSt, e: Event, s': WriteSt)
    requires OneFile(c) && WriteStep(c, s, e) == Some(s') && e.Stat?
    ensures e.path == c.targets[0]
  {
    hide Sibling, MadeBackup, MadeTemp, Resolve, Targets, SameDigest;
  }

  /** Both runs are over, neither failed, and nothing disturbed their reads. */
  ghost predicate BothSucceed(c: Ctx, fs0: Fs, es: seq<Event>, s: St, fs: Fs, es': seq<Event>, s': WriteSt, fs': Fs) {
    && OneFile(c) && Reaches(c, fs0, es, s, fs) && WriteReaches(c, fs0, es', s', fs')
    && s.pc.Done? && s.pc.out.error.None? && s'.pc.Finished? && s'.pc.out.error.None?
    && HonestStats(fs0, es) && HonestStats(fs0, es') && Undisturbed(fs0, es) && Undisturbed(fs0, es')
  }

  lemma ApplySkipsIff(c: Ctx, fs0: Fs, es: seq<Event>, s: St, fs: Fs)
    requires OneFile(c) && Reaches(c, fs0, es, s, fs) && s.pc.Done? && s.pc.out.error.None? && Undisturbed(fs0, es)
    ensures s.pc.out == Skipped() <==> !c.plan.skipIdempotent && IsMatch(c, fs0, c.targets[0], c.plan.files[0])
    ensures s.pc.out == Skipped() ==> fs == fs0
  {
    hide Sibling, MadeBackup, MadeTemp, Step, ShapeFull, Resolve, SameDigest;
    InvReached(c, fs0, es, s, fs);
    Claims(c, fs0, es, s, fs, 0);
    if !c.plan.skipIdempotent && IsMatch(c, fs0, c.targets[0], c.plan.files[0]) {
      MatchingRunSkips(c, fs0, es, s, fs);
    }
  }

  lemma WriteSkipsIff(c: Ctx, fs0: Fs, es: seq<Event>, s: WriteSt, fs: Fs)
    requires WriteReaches(c, fs0, es, s, fs) && s.pc.Finished? && s.pc.out.error.None? && Undisturbed(fs0, es)
    requires HonestStats(fs0, es)
    ensures s.pc.out == Idempotent() <==> !c.plan.skipIdempotent && IsMatch(c, fs0, c.targets[0], c.plan.files[0])
    ensures s.pc.out == Idempotent() ==> fs == fs0
  {
    hide Sibling, MadeBackup, MadeTemp, WriteStep, Resolve, SameDigest;
    WriteInvReached(c, fs0, es, s, fs);
    if !c.plan.skipIdempotent && IsMatch(c, fs0, c.targets[0], c.plan.files[0]) {
      WriteMatchingSkips(c, fs0, es, s, fs);
    }
  }

  /** A refused chown makes no difference: none is wanted, or the file belongs to the process anyway. */
  predicate Settled(c: Ctx, fs0: Fs)
    requires OneFile(c)
  {
    var d := c.targets[0];
    var o := Resolve(c.env, c.plan.files[0], c.plan.defaults, if d in fs0 then Some(fs0[d].meta) else None);
    o.Some? && WantsChown(o.value) ==> o.value.uid == c.env.uid && o.value.gid == c.env.gid
  }

  /** Refinement, contents, for every process: the same bytes, the same mode and the same idempotent
      and replaced outcome; and the same node when no refused chown can tell the two apart. */
  lemma SameDestination(c: Ctx, fs0: Fs, es: seq<Event>, s: St, fs: Fs, es': seq<Event>, s': WriteSt, fs': Fs)
    requires BothSucceed(c, fs0, es, s, fs, es', s', fs')
    ensures s.pc.out == Skipped() <==> s'.pc.out == Idempotent()
    ensures var d := c.targets[0];
      d in fs && d in fs' && fs[d].bytes == fs'[d].bytes && fs[d].meta.mode == fs'[d].meta.mode
    ensures s'.pc.out.result.Some? && s'.pc.out.result.value.replaced == (c.targets[0] in fs0 && s.pc.out != Skipped())
    ensures c.env.root || Settled(c, fs0) || s.pc.out == Skipped() ==> Same(fs, fs', c.targets[0])
  {
    hide Sibling, MadeBackup, MadeTemp, Step, WriteStep, Shape, Resolve, SameDigest, WriteRun, Run, Replay;
    ApplySkipsIff(c, fs0, es, s, fs);
    WriteSkipsIff(c, fs0, es', s', fs');
    WriteAllOrNothing(c, fs0, es', s', fs');
    WriteInvReached(c, fs0, es', s', fs');
    Claims(c, fs0, es, s, fs, 0);
  }

  /** The backup a result names, if any, is new and sorts after the earlier ones. */
  ghost predicate Fresh(fs0: Fs, d: Path, named: Option<Path>) {
    named.Some? ==> named.value !in fs0 && NewestBackup(fs0, d, named.value)
  }

  function WriteNamed(out: WriteOutcome): Option<Path> {
    if out.result.Some? then out.result.value.backup else None
  }

  /** Refinement, backups: apart from the backup that each result names, which differs in its stamp
      only, both leave the same older backups. */
  lemma {:induction false} SameBackups(c: Ctx, fs0: Fs, es: seq<Event>, s: St, fs: Fs, es': seq<Event>, s': WriteSt,
      fs': Fs)
      returns (older: set<Path>)
    requires BothSucceed(c, fs0, es, s, fs, es', s', fs') && IsClean(es) && IsClean(es')
    requires Fresh(fs0, c.targets[0], NamedBackup(s.pc.out, c.targets[0]))
    requires Fresh(fs0, c.targets[0], WriteNamed(s'.pc.out))
    ensures var d, own, own' := c.targets[0], NamedBackup(s.pc.out, c.targets[0]), WriteNamed(s'.pc.out);
      && Backups(fs, d) == older + OwnSet(own) && Backups(fs', d) == older + OwnSet(own')
      && own.Some? == own'.Some? == (d in fs0 && c.plan.retention != NO_BACKUPS && s.pc.out != Skipped())
      && (own.Some? ==>
            own.value in fs && own'.value in fs' && fs[own.value].bytes == fs'[own'.value].bytes == fs0[d].bytes)
  {
    hide Sibling, MadeBackup, MadeTemp, Step, WriteStep, Shape, Resolve, SameDigest, WriteRun, Run, Replay, Less,
      Retention.Kept, IsClean, Placed, Seen;
    var d := c.targets[0];
    ApplySkipsIff(c, fs0, es, s, fs);
    WriteSkipsIff(c, fs0, es', s', fs');
    if s.pc.out == Skipped() {
      older := Backups(fs0, d);
    } else {
      RetentionWindow(c, fs0, es, s, fs, 0);
      Claims(c, fs0, es, s, fs, 0);
      ReportReached(c, fs0, es, s, fs);
      if c.plan.retention != NO_BACKUPS { NamedIsPrep(c, fs0, es, s, fs, 0); }
      WriteRetentionWindow(c, fs0, es', s', fs');
      older := SameOlder(c, fs0, fs, fs', d, s.preps[0].backup, WriteNamed(s'.pc.out));
    }
  }

  lemma SameOlder(c: Ctx, fs0: Fs, fs: Fs, fs': Fs, d: Path, own: Option<Path>, own': Option<Path>)
      returns (older: set<Path>)
    requires Window(c, fs0, fs, d, own, true) && Window(c, fs0, fs', d, own', true) && own.Some? == own'.Some?
    requires own.Some? ==> own.value !in fs0 && own'.value !in fs0
    requires own.Some? ==> NewestBackup(fs0, d, own.value) && NewestBackup(fs0, d, own'.value)
    ensures Backups(fs, d) == older + OwnSet(own) && Backups(fs', d) == older + OwnSet(own')
    ensures own.Some? ==> own.value in fs && own'.value in fs' && d in fs0
    ensures own.Some? ==> fs[own.value].bytes == fs'[own'.value].bytes == fs0[d].bytes
  {
    hide Sibling, MadeBackup, MadeTemp, Less, Retention.Kept;
    var old_ := Backups(fs0, d);
    if c.Keep() <= 0 || own.None? {
      older := Backups(fs, d) - OwnSet(own);
      if own.Some? { assert own.value in Backups(fs, d) && own'.value in Backups(fs', d); }
    } else {
      KeptWithNewest(old_, c.Keep(), own.value);
      KeptWithNewest(old_, c.Keep(), own'.value);
      older := Retention.Kept(old_, c.Keep() - 1);
      assert own.value in Backups(fs, d) && own'.value in Backups(fs', d);
    }
  }

  // ----- where they may differ -----

  lemma HonestRun(c: Ctx, fs0: Fs, es: seq<Event>, at: Nanos, o: Resolved, granted: bool)
    requires |c.targets| == 1
    requires AllBut(es, Setbacks(c, fs0, at, o, granted)) || AllBut(es, WriteSetbacks(c, fs0, at, o, granted))
    ensures HonestStats(fs0, es) && Undisturbed(fs0, es)
  {
    hide TempPath;
  }

  /** A pair of runs on the same tree whose files belong to different users: one chown was granted,
      the other refused. */
  lemma {:induction false} OwnersDiffer(c: Ctx, fs0: Fs, at: Nanos)
      returns (es: seq<Event>, s: St, fs: Fs, es': seq<Event>, s': WriteSt, fs': Fs)
    requires OneFile(c) && Feasible(c, fs0, at, false) && !Settled(c, fs0)
    ensures BothSucceed(c, fs0, es, s, fs, es', s', fs') && !Same(fs, fs', c.targets[0])
  {
    hide Run, Replay, WriteRun, Targets, TempPath, Resolve, SameDigest, AllBut, Setbacks, WriteSetbacks;
    var o := PrepFor(c, 0, Truth(fs0, c.targets[0])).value.owner;
    es, s, fs := Succeeds(c, fs0, at, at, true);
    es', s', fs' := WriteSucceeds(c, fs0, at, at, false);
    HonestRun(c, fs0, es, at, o, true);
    HonestRun(c, fs0, es', at, o, false);
  }

  /** When the two agree on the whole node, exactly: all pairs of successful runs do if and only if
      the process is root, or a refused chown makes no difference, or there is nothing to write. */
  lemma {:induction false} SameDestinationIff(c: Ctx, fs0: Fs, at: Nanos)
    requires OneFile(c) && TempPath(c.targets[0], at) !in fs0 && PrepFor(c, 0, Truth(fs0, c.targets[0])).Some?
    ensures (forall es, s, fs, es', s', fs' | BothSucceed(c, fs0, es, s, fs, es', s', fs') ::
        Same(fs, fs', c.targets[0])) <==>
      c.env.root || Settled(c, fs0) || (!c.plan.skipIdempotent && IsMatch(c, fs0, c.targets[0], c.plan.files[0]))
  {
    hide BothSucceed, TempPath, SameDigest, Resolve;
    if c.env.root || Settled(c, fs0) || (!c.plan.skipIdempotent && IsMatch(c, fs0, c.targets[0], c.plan.files[0])) {
      forall es, s, fs, es', s', fs' | BothSucceed(c, fs0, es, s, fs, es', s', fs')
        ensures Same(fs, fs', c.targets[0])
      {
        BothSkip(c, fs0, es, s, fs, es', s', fs');
        SameDestination(c, fs0, es, s, fs, es', s', fs');
      }
    } else {
      var es, s, fs, es', s', fs' := OwnersDiffer(c, fs0, at);
    }
  }

  lemma BothSkip(c: Ctx, fs0: Fs, es: seq<Event>, s: St, fs: Fs, es': seq<Event>, s': WriteSt, fs': Fs)
    requires BothSucceed(c, fs0, es, s, fs, es', s', fs')
    ensures OneFile(c)
    ensures !c.plan.skipIdempotent && IsMatch(c, fs0, c.targets[0], c.plan.files[0]) ==>
        s.pc.Done? && s.pc.out == Skipped()
  {
    hide Run, Replay, WriteRun, Targets;
    ApplySkipsIff(c, fs0, es, s, fs);
  }
}
