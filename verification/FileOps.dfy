/** The two file-level procedures every deployment is built from: writing a fully permissioned
    temp file, and copying an existing destination to a backup. Each is an automaton that
    consumes the calls it makes, one at a time. */
module FileOps {
  import opened Paths
  import opened Data
  import opened Os
  import opened Ownership

  // ----- writeTempFile followed by applyOwnership -----

  datatype Stage =
    | Opening
    | Writing(temp: Path)
    | Syncing(temp: Path)
    | Closing(temp: Path)
    | Discarding(temp: Path)  // a write, sync or close failed: remove the temp and give up
    | Chmodding(temp: Path)
    | Chowning(temp: Path, uid: nat, gid: nat)

  datatype StageResult =
    | Staging(stage: Stage)
    | Ready(temp: Path)
    | NoTemp                 // failed, nothing tracked
    | Unowned(temp: Path)    // written, but chmod or chown failed
    | Wrong                  // not a call this procedure makes

  function AfterChmod(o: Resolved, t: Path): StageResult {
    if WantsChown(o) then Staging(Chowning(t, o.uid, o.gid)) else Ready(t)
  }

  function AfterClose(o: Resolved, t: Path): StageResult {
    if o.modeSet then Staging(Chmodding(t)) else AfterChmod(o, t)
  }

  function StageStep(env: Env, d: Path, data: Bytes, o: Resolved, s: Stage, e: Event): StageResult {
    match (s, e)
    case (Opening, CreateTemp(d', at, ok)) =>
      if d' != d then Wrong else if ok then Staging(Writing(TempPath(d, at))) else NoTemp
    case (Writing(t), Write(p, data', _, ok)) =>
      if p != t || data' != data then Wrong else Staging(if ok then Syncing(t) else Discarding(t))
    case (Syncing(t), Sync(p, ok)) =>
      if p != t then Wrong else Staging(if ok then Closing(t) else Discarding(t))
    case (Closing(t), Close(p, ok)) =>
      if p != t then Wrong else if ok then AfterClose(o, t) else Staging(Discarding(t))
    case (Discarding(t), Remove(p, _)) =>
      if p != t then Wrong else NoTemp
    case (Chmodding(t), Chmod(p, mode, ok)) =>
      if p != t || mode != o.mode then Wrong else if ok then AfterChmod(o, t) else Unowned(t)
    case (Chowning(t, u, g), Chown(p, uid, gid, ok)) =>
      if p != t || uid != u || gid != g then Wrong
      else if ok || !env.root then Ready(t) else Unowned(t)
    case _ => Wrong
  }

  function StageRun(env: Env, d: Path, data: Bytes, o: Resolved, es: seq<Event>): StageResult {
    if es == [] then Staging(Opening)
    else
      var n := |es| - 1;
      var r := StageRun(env, d, data, o, es[..n]);
      if r.Staging? then StageStep(env, d, data, o, r.stage, es[n]) else Wrong
  }

  lemma {:induction false} StageRunSnoc(env: Env, d: Path, data: Bytes, o: Resolved, es: seq<Event>, e: Event)
    ensures StageRun(env, d, data, o, es + [e]) ==
            var r := StageRun(env, d, data, o, es);
            if r.Staging? then StageStep(env, d, data, o, r.stage, e) else Wrong
  {
    assert (es + [e])[..|es|] == es;
  }

  /** The temp file that a procedure in this state may have left in the tree. */
  function StageTemps(s: Stage): set<Path> {
    if s.Opening? then {} else {s.temp}
  }

  ghost predicate StageNames(d: Path, s: Stage) {
    s.Opening? || MadeTemp(d, s.temp)
  }

  /** How far the temp file has come. Until the chmod it is readable by its owner only. */
  predicate StageOk(env: Env, data: Bytes, o: Resolved, fs: Fs, s: Stage) {
    match s
    case Opening => true
    case Discarding(_) => true
    case Writing(t) => t in fs && fs[t] == Fresh(env, OWNER_RW)
    case Chowning(t, u, g) =>
      t in fs && fs[t] == Node(data, Meta(PlacedMode(env, o), env.uid, env.gid)) && u == o.uid && g == o.gid
    case _ => s.temp in fs && fs[s.temp] == Fresh(env, OWNER_RW).(bytes := data) && (s.Chmodding? ==> o.modeSet)
  }

  ghost predicate StageResultNames(d: Path, r: StageResult) {
    match r
    case Staging(s) => StageNames(d, s)
    case Ready(t) => MadeTemp(d, t)
    case Unowned(t) => MadeTemp(d, t)
    case _ => true
  }

  predicate StageResultOk(env: Env, data: Bytes, o: Resolved, fs: Fs, r: StageResult) {
    match r
    case Staging(s) => StageOk(env, data, o, fs, s)
    case Ready(t) => t in fs && Placed(env, fs[t], data, o)
    case _ => true
  }

  lemma StageStepNames(env: Env, d: Path, data: Bytes, o: Resolved, s: Stage, e: Event)
    requires StageNames(d, s)
    requires !StageStep(env, d, data, o, s, e).Wrong?
    ensures StageResultNames(d, StageStep(env, d, data, o, s, e))
    ensures forall x | Touches(e, x) :: MadeTemp(d, x)
    ensures !e.Lock? && !e.Unlock?
  {
    if e.CreateTemp? { DerivedPathsAreMade(d, e.at); }
  }

  /** A temp file is handed out only with the complete data and the resolved ownership. */
  lemma StageStepOk(env: Env, d: Path, data: Bytes, o: Resolved, fs: Fs, s: Stage, e: Event)
    requires StageOk(env, data, o, fs, s) && Enabled(e, fs)
    requires !StageStep(env, d, data, o, s, e).Wrong?
    ensures StageResultOk(env, data, o, Effect(env, e, fs), StageStep(env, d, data, o, s, e))
  {
    if e.Write? && e.ok { assert e.data[..e.written] == e.data; }
  }

  /** In every state some call can be made and answered, if only by failing. */
  lemma StageProgress(env: Env, d: Path, data: Bytes, o: Resolved, s: Stage) returns (e: Event)
    ensures (forall fs :: Enabled(e, fs)) && !StageStep(env, d, data, o, s, e).Wrong?
  {
    match s
    case Opening => e := CreateTemp(d, 0, false);
    case Writing(t) => e := Write(t, data, 0, false);
    case Syncing(t) => e := Sync(t, false);
    case Closing(t) => e := Close(t, false);
    case Discarding(t) => e := Remove(t, Refused);
    case Chmodding(t) => e := Chmod(t, o.mode, false);
    case Chowning(t, u, g) => e := Chown(t, u, g, false);
  }

  // ----- backupFile -----

  datatype Copy =
    | Reading
    | Examining(src: Bytes)
    | OpeningCopy(src: Bytes, meta: Meta)
    | Filling(src: Bytes, meta: Meta, backup: Path)
    | Finishing(src: Bytes, meta: Meta, backup: Path)
    | Gifting(src: Bytes, meta: Meta, backup: Path)

  datatype CopyResult =
    | Copying(copy: Copy)
    | Copied(backup: Path)
    | NoCopy
    | BadCall

  function CopyStep(d: Path, c: Copy, e: Event): CopyResult {
    match (c, e)
    case (Reading, ReadFile(p, got)) =>
      if p != d then BadCall else if got.Some? then Copying(Examining(got.value)) else NoCopy
    case (Examining(src), Stat(p, meta)) =>
      if p != d then BadCall else if meta.Some? then Copying(OpeningCopy(src, meta.value)) else NoCopy
    case (OpeningCopy(src, meta), OpenBackup(d', at, perm, ok)) =>
      if d' != d || perm != Perm(meta.mode) then BadCall
      else if ok then Copying(Filling(src, meta, BackupPath(d, at))) else NoCopy
    case (Filling(src, meta, b), Write(p, data, _, ok)) =>
      if p != b || data != src then BadCall
      else if ok then Copying(Finishing(src, meta, b)) else NoCopy
    case (Finishing(src, meta, b), Close(p, ok)) =>
      if p != b then BadCall else if ok then Copying(Gifting(src, meta, b)) else NoCopy
    case (Gifting(_, meta, b), Chown(p, uid, gid, _)) =>
      if p != b || uid != meta.uid || gid != meta.gid then BadCall else Copied(b)
    case _ => BadCall
  }

  function CopyRun(d: Path, es: seq<Event>): CopyResult {
    if es == [] then Copying(Reading)
    else
      var n := |es| - 1;
      var r := CopyRun(d, es[..n]);
      if r.Copying? then CopyStep(d, r.copy, es[n]) else BadCall
  }

  lemma {:induction false} CopyRunSnoc(d: Path, es: seq<Event>, e: Event)
    ensures CopyRun(d, es + [e]) ==
            var r := CopyRun(d, es);
            if r.Copying? then CopyStep(d, r.copy, e) else BadCall
  {
    assert (es + [e])[..|es|] == es;
  }

  ghost predicate CopyNames(d: Path, c: Copy) {
    c.Reading? || c.Examining? || c.OpeningCopy? || MadeBackup(d, c.backup)
  }

  ghost predicate CopyResultNames(d: Path, r: CopyResult) {
    match r
    case Copying(c) => CopyNames(d, c)
    case Copied(b) => MadeBackup(d, b)
    case _ => true
  }

  /** `orig` is what the destination holds while it is copied. */
  predicate CopyOk(orig: Bytes, fs: Fs, c: Copy) {
    match c
    case Reading => true
    case Filling(src, _, b) => src == orig && b in fs
    case Finishing(src, _, b) => src == orig && b in fs && fs[b].bytes == orig
    case Gifting(src, _, b) => src == orig && b in fs && fs[b].bytes == orig
    case _ => c.src == orig
  }

  predicate CopyResultOk(orig: Bytes, fs: Fs, r: CopyResult) {
    match r
    case Copying(c) => CopyOk(orig, fs, c)
    case Copied(b) => b in fs && fs[b].bytes == orig
    case _ => true
  }

  lemma CopyStepNames(d: Path, c: Copy, e: Event)
    requires CopyNames(d, c) && !CopyStep(d, c, e).BadCall?
    ensures CopyResultNames(d, CopyStep(d, c, e))
    ensures forall x | Touches(e, x) :: (x == d && (e.ReadFile? || e.Stat?)) || MadeBackup(d, x)
    ensures !e.Lock? && !e.Unlock?
  {
    if e.OpenBackup? { DerivedPathsAreMade(d, e.at); }
  }

  /** A backup is reported only when it holds the complete original. */
  lemma CopyStepOk(env: Env, d: Path, fs: Fs, c: Copy, e: Event)
    requires d in fs && CopyOk(fs[d].bytes, fs, c) && Enabled(e, fs)
    requires !CopyStep(d, c, e).BadCall?
    ensures CopyResultOk(fs[d].bytes, Effect(env, e, fs), CopyStep(d, c, e))
  {
    if e.Write? && e.ok { assert e.data[..e.written] == e.data; }
  }

  lemma CopyProgress(d: Path, c: Copy) returns (e: Event)
    ensures (forall fs :: Enabled(e, fs)) && !CopyStep(d, c, e).BadCall?
  {
    match c
    case Reading => e := ReadFile(d, None);
    case Examining(_) => e := Stat(d, None);
    case OpeningCopy(_, meta) => e := OpenBackup(d, 0, Perm(meta.mode), false);
    case Filling(src, _, b) => e := Write(b, src, 0, false);
    case Finishing(_, _, b) => e := Close(b, false);
    case Gifting(_, meta, b) => e := Chown(b, meta.uid, meta.gid, false);
  }

  // ----- the copy, mode and owner included -----

  /** The node a backup is: the original bytes, its permission bits under the umask, and its owner if
      the chown was granted. */
  function CopyOf(env: Env, orig: Node, gifted: bool): Node {
    Node(orig.bytes, Meta(env.masked(orig.meta.mode % 0x200),
                          if gifted then orig.meta.uid else env.uid, if gifted then orig.meta.gid else env.gid))
  }

  /** How far the copy has come, for a backup that was not there before. */
  predicate CopyExact(env: Env, orig: Node, fs: Fs, c: Copy) {
    match c
    case Reading => true
    case Examining(src) => src == orig.bytes
    case OpeningCopy(src, meta) => Node(src, meta) == orig
    case Filling(src, meta, b) => Node(src, meta) == orig && b in fs && fs[b] == CopyOf(env, orig, false).(bytes := [])
    case Finishing(src, meta, b) => Node(src, meta) == orig && b in fs && fs[b] == CopyOf(env, orig, false)
    case Gifting(src, meta, b) => Node(src, meta) == orig && b in fs && fs[b] == CopyOf(env, orig, false)
  }

  lemma CopyStepExact(env: Env, d: Path, fs: Fs, c: Copy, e: Event)
    requires d in fs && CopyExact(env, fs[d], fs, c) && Enabled(e, fs) && !CopyStep(d, c, e).BadCall?
    requires e.OpenBackup? ==> BackupPath(d, e.at) !in fs
    ensures var r, fs' := CopyStep(d, c, e), Effect(env, e, fs);
      && (r.Copying? ==> CopyExact(env, fs[d], fs', r.copy))
      && (r.Copied? ==> e.Chown? && e.path == r.backup && r.backup in fs' && fs'[r.backup] == CopyOf(env, fs[d], e.ok))
      && (e.Chown? <==> c.Gifting?)
  {
    hide BackupPath;
    if e.Write? && e.ok { assert e.data[..e.written] == e.data; }
  }

  // ----- whole runs of the copy -----

  /** The copy ends with the chown of the backup. If the backup was not there before it has the bytes of
      the original, its permission bits under the umask and, if that chown was granted, its owner. */
  ghost predicate Duplicated(env: Env, fs1: Fs, d: Path, es: seq<Event>, fs2: Fs, b: Path) {
    && es != [] && es[|es| - 1].Chown? && d in fs1
    && (b !in fs1 ==> b in fs2 && fs2[b] == CopyOf(env, fs1[d], es[|es| - 1].ok))
  }

  /** What a run of the copy leaves: until the backup is opened the tree as it was, then the copy as far
      as it has come, and a complete one at the end. */
  ghost predicate CopyLeaves(env: Env, fs1: Fs, d: Path, es: seq<Event>, fs2: Fs, r: CopyResult) {
    match r
    case Copying(Reading) => fs2 == fs1
    case Copying(Examining(src)) => fs2 == fs1 && d in fs1 && src == fs1[d].bytes
    case Copying(OpeningCopy(src, meta)) => fs2 == fs1 && d in fs1 && Node(src, meta) == fs1[d]
    case Copying(copy) => d in fs1 && (copy.backup !in fs1 ==> Same(fs1, fs2, d) && CopyExact(env, fs1[d], fs2, copy))
    case Copied(b) => Duplicated(env, fs1, d, es, fs2, b)
    case _ => true
  }

  lemma CopyLeavesNext(env: Env, fs1: Fs, d: Path, es: seq<Event>, fs: Fs, copy: Copy, e: Event)
    requires CopyLeaves(env, fs1, d, es, fs, Copying(copy)) && Enabled(e, fs) && !CopyStep(d, copy, e).BadCall?
    ensures CopyLeaves(env, fs1, d, es + [e], Effect(env, e, fs), CopyStep(d, copy, e))
  {
    hide BackupPath;
    var next := CopyStep(d, copy, e);
    if (next.Copied? && next.backup !in fs1)
       || (next.Copying? && !next.copy.Reading? && !next.copy.Examining? && !next.copy.OpeningCopy?
           && next.copy.backup !in fs1) {
      CopyStepExact(env, d, fs, copy, e);
    }
  }

  lemma {:induction false} CopyRunExact(env: Env, fs1: Fs, d: Path, es: seq<Event>, fs2: Fs)
    requires Replay(env, fs1, es) == Some(fs2) && !CopyRun(d, es).BadCall?
    ensures CopyLeaves(env, fs1, d, es, fs2, CopyRun(d, es))
  {
    hide CopyStep, Effect, Enabled, CopyLeaves;
    if es == [] {
      NothingCopiedYet(env, fs1, d);
    } else {
      var n := |es| - 1;
      CopyRunExact(env, fs1, d, es[..n], Replay(env, fs1, es[..n]).value);
      CopyLeavesNext(env, fs1, d, es[..n], Replay(env, fs1, es[..n]).value, CopyRun(d, es[..n]).copy, es[n]);
      assert es == es[..n] + [es[n]];
    }
  }

  lemma NothingCopiedYet(env: Env, fs1: Fs, d: Path)
    ensures CopyLeaves(env, fs1, d, [], fs1, Copying(Reading))
  {
  }

  /** A finished copy is a copy, mode and owner included. */
  lemma {:induction false} CopyComplete(env: Env, fs1: Fs, d: Path, es: seq<Event>, fs2: Fs, b: Path)
    requires Replay(env, fs1, es) == Some(fs2) && CopyRun(d, es) == Copied(b)
    ensures Duplicated(env, fs1, d, es, fs2, b)
  {
    hide CopyRun, Replay, Duplicated;
    CopyRunExact(env, fs1, d, es, fs2);
  }
}
