/** The promises of the deploy package about one deployment, over every run and every fault. */
module ApplyTheorems {
  import opened Paths
  import opened Data
  import opened Os
  import opened Ownership
  import opened FileOps
  import opened ApplyProtocol
  import opened ApplySafety

  /** The destination has its original bytes, or is absent as it was. */
  predicate Original(fs0: Fs, fs: Fs, d: Path) {
    (d in fs0 <==> d in fs) && (d in fs0 ==> fs[d].bytes == fs0[d].bytes)
  }

  /** The destination holds the planned bytes with the ownership resolved against the old tree. */
  predicate Deployed(c: Ctx, fs0: Fs, fs: Fs, d: Path, f: File) {
    && d in fs
    && var o := Resolve(c.env, f, c.plan.defaults, if d in fs0 then Some(fs0[d].meta) else None);
       o.Some? && Placed(c.env, fs[d], f.bytes, o.value)
  }

  /** Some backup of the destination holds all of its original bytes. */
  ghost predicate Recoverable(fs0: Fs, fs: Fs, d: Path) {
    d in fs0 && exists b :: b in fs && IsBackupOf(d, b) && fs[b].bytes == fs0[d].bytes
  }

  ghost predicate CollisionFree(env: Env) {
    forall a, b :: env.digest(a) == env.digest(b) ==> a == b
  }

  /** No destination has been renamed over yet. */
  predicate Uncommitted(pc: Pc) {
    match pc
    case Renaming(i) => i == 0
    case Restoring(_, _, upto, _, _) => upto == 0
    case DroppingTemps(_, cause) => cause.Abort? || cause.upto == 0
    case Reloading => false
    case ReloadingOld => false
    case Listing(_) => false
    case Pruning(_, _) => false
    case Unlocking(_, _) => false
    case Done(_) => false
    case _ => true
  }

  /** What the invariant says about destination `j` when Stat told the truth. */
  lemma Claims(c: Ctx, fs0: Fs, es: seq<Event>, s: St, fs: Fs, j: nat)
    requires Reaches(c, fs0, es, s, fs) && j < c.N() && Covered(c, s.pc, j)
    ensures FileInv(c, fs0, fs, s, j)
    ensures s.pc.Done? || s.pc.Unlocking? ==> Sensible(s.pc.out)
    ensures HonestStats(fs0, es) && j < |s.preps| ==> (s.preps[j].hadOrig <==> c.targets[j] in fs0)
  {
    hide Sibling, MadeBackup, MadeTemp, ShapeFull, Resolve, Step, Clear, Spared;
    InvReached(c, fs0, es, s, fs);
    PrepsFromStats(c, fs0, es, s, fs);
    assert FileInv(c, fs0, fs, s, j);
    if j < |s.preps| { assert FromStat(c.targets[j], s.preps[j], es); }
  }

  /** A destination is wholly old or wholly new; old until the first rename, and during the rename
      loop new exactly if it is in the plan-order prefix; once overwritten, it exists in full in a
      backup (for the pruning phase see Retention). */
  ghost predicate Consistent(c: Ctx, fs0: Fs, fs: Fs, pc: Pc, d: Path, f: File, j: nat) {
    && (Original(fs0, fs, d) || Deployed(c, fs0, fs, d, f))
    && (Uncommitted(pc) ==> Same(fs0, fs, d))
    && (pc.Renaming? ==> if j < pc.i then Deployed(c, fs0, fs, d, f) else Same(fs0, fs, d))
    && (d in fs0 && !Same(fs0, fs, d) && !PruningBegan(pc) ==> Recoverable(fs0, fs, d))
  }

  /** Crash consistency, at every point of every run. */
  lemma CrashConsistency(c: Ctx, fs0: Fs, es: seq<Event>, s: St, fs: Fs, j: nat)
    requires Reaches(c, fs0, es, s, fs) && j < c.N() && Covered(c, s.pc, j)
    requires HonestStats(fs0, es) && c.plan.retention != NO_BACKUPS
    ensures Consistent(c, fs0, fs, s.pc, c.targets[j], c.plan.files[j], j)
  {
    hide Sibling, MadeBackup, MadeTemp, Shape, Resolve, Step, Clear, Spared;
    Claims(c, fs0, es, s, fs, j);
    if j < |s.preps| && s.preps[j].backup.Some? { assert IsBackupOf(c.targets[j], s.preps[j].backup.value); }
  }

  /** All or nothing: a nil error means every destination holds the planned bytes; any error but
      ErrRollbackFailed means every destination has its original bytes or original absence. */
  lemma AllOrNothing(c: Ctx, fs0: Fs, es: seq<Event>, s: St, fs: Fs, j: nat)
    requires Reaches(c, fs0, es, s, fs) && j < c.N() && Covered(c, s.pc, j) && s.pc.Done?
    requires HonestStats(fs0, es) && c.plan.retention != NO_BACKUPS
    ensures var d, f, out := c.targets[j], c.plan.files[j], s.pc.out;
      && (out.error.None? && CollisionFree(c.env) ==> d in fs && fs[d].bytes == f.bytes)
      && (out.error.None? && out != Skipped() ==> Deployed(c, fs0, fs, d, f))
      && (out.error.Some? && out.error.value != RollbackFailed ==> Original(fs0, fs, d))
  {
    hide Sibling, MadeBackup, MadeTemp, Shape, Resolve, Step, Clear, Spared;
    Claims(c, fs0, es, s, fs, j);
  }

  /** Rolling back, exactly: after ErrReloadFailed a destination is back as it was if and only if
      it was absent, or backups are enabled and a Stat of this run found it. With backups disabled
      the restore deletes every destination, existing or not. */
  lemma RollbackIff(c: Ctx, fs0: Fs, es: seq<Event>, s: St, fs: Fs, j: nat)
    requires Reaches(c, fs0, es, s, fs) && j < c.N() && Clear(c, j)
    requires s.pc.Done? && s.pc.out.error == Some(ReloadFailed)
    ensures Original(fs0, fs, c.targets[j]) <==>
      c.targets[j] !in fs0 || (c.plan.retention != NO_BACKUPS && Seen(es, c.targets[j]))
    ensures c.plan.retention == NO_BACKUPS ==> c.targets[j] !in fs
  {
    hide Sibling, MadeBackup, MadeTemp, Shape, Resolve, Step, Seen, Clear, Spared;
    Claims(c, fs0, es, s, fs, j);
    SeenReached(c, fs0, es, s, fs);
  }

  /** Ownership: with root privileges an existing destination whose entry overrides nothing has its
      user, group and permission bits at every point of every run, new bytes or restored bytes
      alike; its mode is untouched if and only if it never was replaced or had no special bits. */
  lemma OwnershipPreserved(c: Ctx, fs0: Fs, es: seq<Event>, s: St, fs: Fs, j: nat)
    requires Reaches(c, fs0, es, s, fs) && j < c.N() && Covered(c, s.pc, j)
    requires HonestStats(fs0, es) && c.env.root && Preserving(c.plan.files[j]) && c.targets[j] in fs0
    ensures c.plan.retention != NO_BACKUPS ==> c.targets[j] in fs
    ensures var d := c.targets[j]; d in fs ==>
      && fs[d].meta.uid == fs0[d].meta.uid && fs[d].meta.gid == fs0[d].meta.gid
      && Perm(fs[d].meta.mode) == Perm(fs0[d].meta.mode)
      && (fs[d].meta == fs0[d].meta <==> Same(fs0, fs, d) || fs0[d].meta.mode < 0x200)
  {
    hide Sibling, MadeBackup, MadeTemp, Shape, Step;
    Claims(c, fs0, es, s, fs, j);
    OwnershipOfView(c, fs0, fs, c.targets[j], c.plan.files[j], PrepAt(s, j), ViewOf(c, s.pc, j));
  }

  lemma OwnershipOfView(c: Ctx, fs0: Fs, fs: Fs, d: Path, f: File, p: Option<Prep>, v: View)
    requires Holds(c, fs0, fs, d, f, p, v) && d in fs0
    requires p.Some? ==> p.value.hadOrig
    requires c.env.root && Preserving(f)
    ensures c.plan.retention != NO_BACKUPS ==> d in fs
    ensures d in fs ==>
      && fs[d].meta.uid == fs0[d].meta.uid && fs[d].meta.gid == fs0[d].meta.gid
      && Perm(fs[d].meta.mode) == Perm(fs0[d].meta.mode)
      && (fs[d].meta == fs0[d].meta <==> Same(fs0, fs, d) || fs0[d].meta.mode < 0x200)
  {
    hide Sibling, MadeBackup, MadeTemp, SavedHolds, WorkHolds;
    if !Same(fs0, fs, d) && d in fs {
      PreservationIff(c.env, f, c.plan.defaults, fs0[d].meta, p.value.owner, fs[d]);
    }
  }

  // ----- temp files -----

  /** Created, and its mode not yet set. */
  predicate Unfinished(stage: Stage) {
    stage.Writing? || stage.Syncing? || stage.Closing? || stage.Chmodding?
  }

  /** From its creation until its chmod a temp file belongs to the process and only its owner may
      read or write it, whatever mode it is to get. */
  lemma {:induction false} TempsArePrivate(c: Ctx, fs0: Fs, es: seq<Event>, s: St, fs: Fs)
    requires Reaches(c, fs0, es, s, fs) && s.pc.StagingFile? && Unfinished(s.pc.stage)
    requires s.pc.i < c.N() && Clear(c, s.pc.i)
    ensures s.pc.stage.temp in fs && fs[s.pc.stage.temp].meta == Meta(c.env.masked(0x180), c.env.uid, c.env.gid)
  {
    hide Sibling, MadeBackup, MadeTemp, Run, Replay, Resolve, Clear, Spared;
    Claims(c, fs0, es, s, fs, s.pc.i);
    InvReached(c, fs0, es, s, fs);
  }
}
