/** Runs of Apply, for any number of files, put together call by call. */
module Runs {
  import opened Text
  import opened Paths
  import opened Data
  import opened Os
  import opened Ownership
  import opened FileOps
  import opened ApplyProtocol
  import opened ApplySafety
  import opened Retention

  /** The call did what was asked of it. */
  predicate Granted(e: Event) {
    match e
    case ReadFile(_, got) => got.Some?
    case Stat(_, meta) => meta.Some?
    case Context(live) => live
    case Remove(_, r) => r.Removed?
    case ListBackups(_, names) => names.Some?
    case Lock(_) => true
    case Unlock(_) => true
    case Internal => true
    case _ => e.ok
  }

  /** Every call was granted, but for those in `odd`. */
  ghost predicate AllBut(es: seq<Event>, odd: set<Event>) {
    forall e | e in es :: Granted(e) || e in odd
  }

  /** A run to `s` and `fs` in which every call was granted, but for those in `odd`. */
  ghost predicate Gets(c: Ctx, fs0: Fs, es: seq<Event>, s: St, fs: Fs, odd: set<Event>) {
    Reaches(c, fs0, es, s, fs) && AllBut(es, odd)
  }

  /** Extends a run by one call. */
  lemma Then(c: Ctx, fs0: Fs, es: seq<Event>, s: St, fs: Fs, odd: set<Event>, e: Event, s': St)
      returns (es': seq<Event>, fs': Fs)
    requires Gets(c, fs0, es, s, fs, odd) && Step(c, s, e) == Some(s') && Enabled(e, fs) && (Granted(e) || e in odd)
    ensures fs' == Effect(c.env, e, fs) && Gets(c, fs0, es', s', fs', odd)
  {
    hide Step, Run, Replay, Enabled, Effect, Granted;
    es', fs' := es + [e], Effect(c.env, e, fs);
    Extend(c, fs0, es, s, fs, e, s');
  }

  lemma ValidWhenReached(c: Ctx, fs0: Fs, es: seq<Event>, s: St, fs: Fs, odd: set<Event>)
    requires Gets(c, fs0, es, s, fs, odd)
    ensures c.Valid()
  {
  }

  lemma {:induction false} GetsNothing(c: Ctx, fs0: Fs, odd: set<Event>)
    requires c.Valid()
    ensures Gets(c, fs0, [], Start(), fs0, odd)
  {
  }

  // ----- up to the first backup -----

  lemma {:induction false} Locks(c: Ctx, fs0: Fs, es0: seq<Event>, i: nat, odd: set<Event>) returns (es: seq<Event>)
    requires c.Valid() && i < c.N() && Gets(c, fs0, es0, St(Locking(i), []), fs0, odd)
    ensures Gets(c, fs0, es, St(Checking, []), fs0, odd)
    decreases c.N() - i
  {
    hide Gets, Targets, Sort, CopyStep, StageStep, StepRestoring;
    var fs := fs0;
    es, fs := Then(c, fs0, es0, St(Locking(i), []), fs, odd, Lock(FileLock(c.Order()[i])),
                   St(if i + 1 == c.N() then Checking else Locking(i + 1), []));
    if i + 1 < c.N() { es := Locks(c, fs0, es, i + 1, odd); }
  }

  /** What a file's bytes, or its absence, look like to a reader. */
  function Read(fs: Fs, d: Path): Option<Bytes> {
    if d in fs then Some(fs[d].bytes) else None
  }

  /** What a truthful Stat answers. */
  function Truth(fs0: Fs, d: Path): Option<Meta> {
    if d in fs0 then Some(fs0[d].meta) else None
  }

  function PrepFor(c: Ctx, i: nat, seen: Option<Meta>): Option<Prep>
    requires i < |c.plan.files|
  {
    var o := Resolve(c.env, c.plan.files[i], c.plan.defaults, seen);
    if o.None? then None else Some(Prep(o.value, seen.Some?, None, None))
  }

  /** Stat may answer like this: a reply that names a file is truthful, and its owner can be resolved. */
  ghost predicate Answers(c: Ctx, fs0: Fs, i: nat, seen: Option<Meta>)
    requires c.Valid() && i < c.N()
  {
    (seen.Some? ==> seen == Truth(fs0, c.targets[i])) && PrepFor(c, i, seen).Some?
  }

  ghost predicate AllAnswer(c: Ctx, fs0: Fs, seen: seq<Option<Meta>>)
    requires c.Valid()
  {
    |seen| == c.N() && forall i | 0 <= i < c.N() :: Answers(c, fs0, i, seen[i])
  }

  /** The working state of the first `n` destinations after these answers. */
  ghost function Preps(c: Ctx, fs0: Fs, seen: seq<Option<Meta>>, n: nat): (ps: seq<Prep>)
    requires c.Valid() && AllAnswer(c, fs0, seen) && n <= c.N()
    ensures |ps| == n && forall i | 0 <= i < n :: Some(ps[i]) == PrepFor(c, i, seen[i])
  {
    if n == 0 then [] else Preps(c, fs0, seen, n - 1) + [PrepFor(c, n - 1, seen[n - 1]).value]
  }

  lemma {:induction false} Stats(c: Ctx, fs0: Fs, es0: seq<Event>, seen: seq<Option<Meta>>, i: nat, odd: set<Event>)
      returns (es: seq<Event>)
    requires c.Valid() && i < c.N() && AllAnswer(c, fs0, seen)
    requires forall k | i <= k < c.N() && seen[k].None? :: Stat(c.targets[k], None) in odd
    requires Gets(c, fs0, es0, St(Statting(i), Preps(c, fs0, seen, i)), fs0, odd)
    ensures Gets(c, fs0, es, St(BackupHead(0), Preps(c, fs0, seen, c.N())), fs0, odd)
    decreases c.N() - i
  {
    hide Gets, Targets, Resolve, CopyStep, StageStep, StepRestoring;
    var fs := fs0;
    assert Answers(c, fs0, i, seen[i]);
    var next := St(if i + 1 == c.N() then BackupHead(0) else Statting(i + 1), Preps(c, fs0, seen, i + 1));
    es, fs := Then(c, fs0, es0, St(Statting(i), Preps(c, fs0, seen, i)), fs, odd, Stat(c.targets[i], seen[i]), next);
    if i + 1 < c.N() { es := Stats(c, fs0, es, seen, i + 1, odd); }
  }

  /** Locks, looks at the context, compares unless told not to, finding the first file not as
      planned, and asks Stat. */
  lemma Begins(c: Ctx, fs0: Fs, seen: seq<Option<Meta>>, odd: set<Event>) returns (es: seq<Event>)
    requires c.Valid() && AllAnswer(c, fs0, seen)
    requires c.plan.skipIdempotent || !IsMatch(c, fs0, c.targets[0], c.plan.files[0])
    requires forall i | 0 <= i < c.N() && seen[i].None? :: Stat(c.targets[i], None) in odd
    requires c.targets[0] !in fs0 ==> ReadFile(c.targets[0], None) in odd
    ensures Gets(c, fs0, es, St(BackupHead(0), Preps(c, fs0, seen, c.N())), fs0, odd)
  {
    hide Gets, Targets, Resolve, Sort, SameDigest, CopyStep, StageStep, StepRestoring, AllAnswer;
    var d, fs := c.targets[0], fs0;
    GetsNothing(c, fs0, odd);
    es := Locks(c, fs0, [], 0, odd);
    es, fs := Then(c, fs0, es, St(Checking, []), fs, odd, Context(true),
                   St(if c.plan.skipIdempotent then Statting(0) else Comparing(0), []));
    if !c.plan.skipIdempotent {
      es, fs := Then(c, fs0, es, St(Comparing(0), []), fs, odd, ReadFile(d, Read(fs0, d)), St(Statting(0), []));
    }
    es := Stats(c, fs0, es, seen, 0, odd);
  }

  // ----- backups -----

  /** Destinations `i` to `j` are not backed up. */
  lemma {:induction false} Passes(c: Ctx, fs0: Fs, es0: seq<Event>, ps: seq<Prep>, fs: Fs, i: nat, j: nat,
      odd: set<Event>)
      returns (es: seq<Event>)
    requires Gets(c, fs0, es0, St(BackupHead(i), ps), fs, odd) && i <= j <= c.N() == |ps|
    requires c.plan.retention != NO_BACKUPS && forall k | i <= k < j :: !ps[k].hadOrig
    ensures Gets(c, fs0, es, St(BackupHead(j), ps), fs, odd)
    decreases j - i
  {
    hide Gets, Targets, Resolve, CopyStep, StageStep, StepRestoring;
    ValidWhenReached(c, fs0, es0, St(BackupHead(i), ps), fs, odd);
    es := es0;
    if i < j {
      var fs' := fs;
      es, fs' := Then(c, fs0, es, St(BackupHead(i), ps), fs, odd, Internal, St(BackupHead(i + 1), ps));
      es := Passes(c, fs0, es, ps, fs, i + 1, j, odd);
    }
  }

  /** No further backup is to be taken. */
  lemma BackupsEnd(c: Ctx, fs0: Fs, es0: seq<Event>, ps: seq<Prep>, fs: Fs, i: nat, odd: set<Event>)
      returns (es: seq<Event>)
    requires Gets(c, fs0, es0, St(BackupHead(i), ps), fs, odd) && i <= c.N() == |ps|
    requires forall k | i <= k < c.N() :: !Backed(c, ps[k])
    ensures Gets(c, fs0, es, St(StagingFile(0, Opening), ps), fs, odd)
  {
    hide Gets, Targets, Resolve, CopyStep, StageStep, StepRestoring;
    ValidWhenReached(c, fs0, es0, St(BackupHead(i), ps), fs, odd);
    var j, fs' := if c.plan.retention == NO_BACKUPS then i else c.N(), fs;
    es := es0;
    if c.plan.retention != NO_BACKUPS { es := Passes(c, fs0, es, ps, fs, i, j, odd); }
    es, fs' := Then(c, fs0, es, St(BackupHead(j), ps), fs, odd, Internal, St(StagingFile(0, Opening), ps));
  }

  ghost predicate OnlyAt(fs0: Fs, fs: Fs, b: Path) {
    forall x | x != b :: Same(fs0, fs, x)
  }

  lemma StaysAt(env: Env, e: Event, fs0: Fs, fs: Fs, b: Path)
    requires OnlyAt(fs0, fs, b) && Enabled(e, fs) && (e.Write? || e.Close? || e.Chown?) && e.path == b
    ensures OnlyAt(fs0, Effect(env, e, fs), b)
  {
    forall x | x != b ensures Same(fs0, Effect(env, e, fs), x) {
      assert Same(fs0, fs, x);
      EffectIsLocal(env, e, fs, x);
    }
  }

  lemma OpenSteps(c: Ctx, ps: seq<Prep>, i: nat, n: Node, at: Nanos)
    requires c.Valid() && i < c.N() == |ps| && Backed(c, ps[i])
    ensures var d, b, data, meta := c.targets[i], BackupPath(c.targets[i], at), n.bytes, n.meta;
      && Step(c, St(BackupHead(i), ps), Internal) == Some(St(BackingUp(i, Reading), ps))
      && Step(c, St(BackingUp(i, Reading), ps), ReadFile(d, Some(data))) == Some(St(BackingUp(i, Examining(data)), ps))
      && Step(c, St(BackingUp(i, Examining(data)), ps), Stat(d, Some(meta)))
         == Some(St(BackingUp(i, OpeningCopy(data, meta)), ps))
      && Step(c, St(BackingUp(i, OpeningCopy(data, meta)), ps), OpenBackup(d, at, Perm(meta.mode), true))
         == Some(St(BackingUp(i, Filling(data, meta, b)), ps))
  {
    hide Targets, BackupPath, StageStep, StepRestoring;
  }

  lemma CopySteps(c: Ctx, ps: seq<Prep>, i: nat, data: Bytes, meta: Meta, b: Path)
    requires c.Valid() && i < c.N() == |ps|
    ensures Step(c, St(BackingUp(i, Filling(data, meta, b)), ps), Write(b, data, |data|, true))
            == Some(St(BackingUp(i, Finishing(data, meta, b)), ps))
    ensures Step(c, St(BackingUp(i, Finishing(data, meta, b)), ps), Close(b, true))
            == Some(St(BackingUp(i, Gifting(data, meta, b)), ps))
    ensures Step(c, St(BackingUp(i, Gifting(data, meta, b)), ps), Chown(b, meta.uid, meta.gid, true))
            == Some(St(BackupHead(i + 1), ps[i := ps[i].(backup := Some(b))]))
  {
    hide Targets, BackupPath, StageStep, StepRestoring;
  }

  lemma Opens(c: Ctx, fs0: Fs, es0: seq<Event>, ps: seq<Prep>, fs1: Fs, i: nat, at: Nanos, odd: set<Event>)
      returns (es: seq<Event>, fs: Fs)
    requires Gets(c, fs0, es0, St(BackupHead(i), ps), fs1, odd) && i < c.N() == |ps| && Backed(c, ps[i])
    requires c.targets[i] in fs1
    ensures var b, n := BackupPath(c.targets[i], at), fs1[c.targets[i]];
      && Gets(c, fs0, es, St(BackingUp(i, Filling(n.bytes, n.meta, b)), ps), fs, odd) && b in fs && OnlyAt(fs1, fs, b)
  {
    hide Gets, Targets, BackupPath, Step;
    ValidWhenReached(c, fs0, es0, St(BackupHead(i), ps), fs1, odd);
    var d, data, meta := c.targets[i], fs1[c.targets[i]].bytes, fs1[c.targets[i]].meta;
    OpenSteps(c, ps, i, fs1[d], at);
    es, fs := Then(c, fs0, es0, St(BackupHead(i), ps), fs1, odd, Internal, St(BackingUp(i, Reading), ps));
    es, fs := Then(c, fs0, es, St(BackingUp(i, Reading), ps), fs, odd, ReadFile(d, Some(data)),
                   St(BackingUp(i, Examining(data)), ps));
    es, fs := Then(c, fs0, es, St(BackingUp(i, Examining(data)), ps), fs, odd, Stat(d, Some(meta)),
                   St(BackingUp(i, OpeningCopy(data, meta)), ps));
    es, fs := Then(c, fs0, es, St(BackingUp(i, OpeningCopy(data, meta)), ps), fs, odd,
                   OpenBackup(d, at, Perm(meta.mode), true),
                     St(BackingUp(i, Filling(data, meta, BackupPath(d, at))), ps));
  }

  /** The copy is taken: read and stat, then open and fill, then close and chown. */
  lemma BacksUp(c: Ctx, fs0: Fs, es0: seq<Event>, ps: seq<Prep>, fs1: Fs, i: nat, at: Nanos, odd: set<Event>)
      returns (es: seq<Event>, fs: Fs)
    requires Gets(c, fs0, es0, St(BackupHead(i), ps), fs1, odd) && i < c.N() == |ps| && Backed(c, ps[i])
    requires c.targets[i] in fs1
    ensures var b := BackupPath(c.targets[i], at);
      && Gets(c, fs0, es, St(BackupHead(i + 1), ps[i := ps[i].(backup := Some(b))]), fs, odd)
      && b in fs && OnlyAt(fs1, fs, b)
  {
    hide Gets, Targets, BackupPath, Step, OnlyAt;
    ValidWhenReached(c, fs0, es0, St(BackupHead(i), ps), fs1, odd);
    var b, data, meta := BackupPath(c.targets[i], at), fs1[c.targets[i]].bytes, fs1[c.targets[i]].meta;
    CopySteps(c, ps, i, data, meta, b);
    es, fs := Opens(c, fs0, es0, ps, fs1, i, at, odd);
    var e1, e2, e3 := Write(b, data, |data|, true), Close(b, true), Chown(b, meta.uid, meta.gid, true);
    StaysAt(c.env, e1, fs1, fs, b);
    es, fs := Then(c, fs0, es, St(BackingUp(i, Filling(data, meta, b)), ps), fs, odd, e1,
                   St(BackingUp(i, Finishing(data, meta, b)), ps));
    StaysAt(c.env, e2, fs1, fs, b);
    es, fs := Then(c, fs0, es, St(BackingUp(i, Finishing(data, meta, b)), ps), fs, odd, e2,
                   St(BackingUp(i, Gifting(data, meta, b)), ps));
    StaysAt(c.env, e3, fs1, fs, b);
    es, fs := Then(c, fs0, es, St(BackingUp(i, Gifting(data, meta, b)), ps), fs, odd, e3,
                   St(BackupHead(i + 1), ps[i := ps[i].(backup := Some(b))]));
  }

  // ----- staging -----

  /** The node a staging makes: chmod when a mode is set, chown when it is wanted and granted. */
  function Staged(env: Env, data: Bytes, o: Resolved, granted: bool): Node {
    var mine := granted && WantsChown(o);
    Node(data, Meta(if o.modeSet then o.mode else env.masked(OWNER_RW),
                    if mine then o.uid else env.uid, if mine then o.gid else env.gid))
  }

  /** The states between the close of the temp file and the end of its staging. */
  function Owned(c: Ctx, ps: seq<Prep>, i: nat, t: Path): St
    requires i < |ps|
  {
    St(if i + 1 == c.N() then StartCommit(c) else StagingFile(i + 1, Opening), ps[i := ps[i].(temp := Some(t))])
  }

  function ToChown(c: Ctx, ps: seq<Prep>, i: nat, t: Path): St
    requires i < |ps|
  {
    var o := ps[i].owner;
    if WantsChown(o) then St(StagingFile(i, Chowning(t, o.uid, o.gid)), ps) else Owned(c, ps, i, t)
  }

  function ToChmod(c: Ctx, ps: seq<Prep>, i: nat, t: Path): St
    requires i < |ps|
  {
    if ps[i].owner.modeSet then St(StagingFile(i, Chmodding(t)), ps) else ToChown(c, ps, i, t)
  }

  lemma StageSteps(c: Ctx, ps: seq<Prep>, i: nat, at: Nanos)
    requires c.Valid() && i < c.N() == |ps|
    ensures var d, t, data := c.targets[i], TempPath(c.targets[i], at), c.plan.files[i].bytes;
      && Step(c, St(StagingFile(i, Opening), ps), CreateTemp(d, at, true)) == Some(St(StagingFile(i, Writing(t)), ps))
      && Step(c, St(StagingFile(i, Writing(t)), ps), Write(t, data, |data|, true))
         == Some(St(StagingFile(i, Syncing(t)), ps))
      && Step(c, St(StagingFile(i, Syncing(t)), ps), Sync(t, true)) == Some(St(StagingFile(i, Closing(t)), ps))
      && Step(c, St(StagingFile(i, Closing(t)), ps), Close(t, true)) == Some(ToChmod(c, ps, i, t))
  {
    hide Targets, TempPath, StartCommit, CopyStep, StepRestoring;
  }

  lemma OwnershipSteps(c: Ctx, ps: seq<Prep>, i: nat, t: Path, granted: bool)
    requires c.Valid() && i < c.N() == |ps| && (granted || !c.env.root)
    ensures var o := ps[i].owner;
      && (o.modeSet ==> Step(c, ToChmod(c, ps, i, t), Chmod(t, o.mode, true)) == Some(ToChown(c, ps, i, t)))
      && (!o.modeSet ==> ToChmod(c, ps, i, t) == ToChown(c, ps, i, t))
      && (WantsChown(o) ==> Step(c, ToChown(c, ps, i, t), Chown(t, o.uid, o.gid, granted)) == Some(Owned(c, ps, i, t)))
      && (!WantsChown(o) ==> ToChown(c, ps, i, t) == Owned(c, ps, i, t))
  {
    hide Targets, StartCommit, CopyStep, StepRestoring;
  }

  lemma Fills(c: Ctx, fs0: Fs, es0: seq<Event>, ps: seq<Prep>, fs1: Fs, i: nat, at: Nanos, odd: set<Event>)
      returns (es: seq<Event>, fs: Fs)
    requires Gets(c, fs0, es0, St(StagingFile(i, Opening), ps), fs1, odd) && c.Valid() && i < c.N() == |ps|
    requires TempPath(c.targets[i], at) !in fs1
    ensures var t := TempPath(c.targets[i], at);
      && Gets(c, fs0, es, ToChmod(c, ps, i, t), fs, odd)
      && fs == fs1[t := Node(c.plan.files[i].bytes, Meta(c.env.masked(OWNER_RW), c.env.uid, c.env.gid))]
  {
    hide Gets, Targets, TempPath, Step, ToChmod;
    var t, data := TempPath(c.targets[i], at), c.plan.files[i].bytes;
    StageSteps(c, ps, i, at);
    es, fs := Then(c, fs0, es0, St(StagingFile(i, Opening), ps), fs1, odd, CreateTemp(c.targets[i], at, true),
                   St(StagingFile(i, Writing(t)), ps));
    es, fs := Then(c, fs0, es, St(StagingFile(i, Writing(t)), ps), fs, odd, Write(t, data, |data|, true),
                   St(StagingFile(i, Syncing(t)), ps));
    assert data[..|data|] == data;
    es, fs := Then(c, fs0, es, St(StagingFile(i, Syncing(t)), ps), fs, odd, Sync(t, true),
                   St(StagingFile(i, Closing(t)), ps));
    es, fs := Then(c, fs0, es, St(StagingFile(i, Closing(t)), ps), fs, odd, Close(t, true), ToChmod(c, ps, i, t));
  }

  /** One file is staged in full. */
  lemma Stages(c: Ctx, fs0: Fs, es0: seq<Event>, ps: seq<Prep>, fs1: Fs, i: nat, at: Nanos, granted: bool,
      odd: set<Event>)
      returns (es: seq<Event>, fs: Fs)
    requires Gets(c, fs0, es0, St(StagingFile(i, Opening), ps), fs1, odd) && c.Valid() && i < c.N() == |ps|
    requires TempPath(c.targets[i], at) !in fs1
    requires granted || (!c.env.root && (WantsChown(ps[i].owner) ==>
               Chown(TempPath(c.targets[i], at), ps[i].owner.uid, ps[i].owner.gid, false) in odd))
    ensures var t := TempPath(c.targets[i], at);
      && Gets(c, fs0, es, Owned(c, ps, i, t), fs, odd)
      && fs == fs1[t := Staged(c.env, c.plan.files[i].bytes, ps[i].owner, granted)]
  {
    hide Gets, Targets, TempPath, Step, ToChmod, ToChown, Owned;
    var o, t := ps[i].owner, TempPath(c.targets[i], at);
    OwnershipSteps(c, ps, i, t, granted);
    es, fs := Fills(c, fs0, es0, ps, fs1, i, at, odd);
    if o.modeSet {
      es, fs := Then(c, fs0, es, ToChmod(c, ps, i, t), fs, odd, Chmod(t, o.mode, true), ToChown(c, ps, i, t));
    }
    if WantsChown(o) {
      es, fs := Then(c, fs0, es, ToChown(c, ps, i, t), fs, odd, Chown(t, o.uid, o.gid, granted), Owned(c, ps, i, t));
    }
  }

  /** The working state once the first `n` files are staged with the stamp `at`. */
  function WithTemps(c: Ctx, ps: seq<Prep>, at: Nanos, n: nat): (r: seq<Prep>)
    requires n <= |ps| == |c.targets|
    ensures |r| == |ps| && (forall i | n <= i < |ps| :: r[i] == ps[i])
    ensures forall i | 0 <= i < n :: r[i] == ps[i].(temp := Some(TempPath(c.targets[i], at)))
  {
    seq(|ps|, i requires 0 <= i < |ps| =>
      if i < n then ps[i].(temp := Some(TempPath(c.targets[i], at))) else ps[i])
  }

  lemma WithOneMore(c: Ctx, ps: seq<Prep>, at: Nanos, n: nat)
    requires n < |ps| == |c.targets|
    ensures WithTemps(c, ps, at, n)[n := ps[n].(temp := Some(TempPath(c.targets[n], at)))]
            == WithTemps(c, ps, at, n + 1)
  {
    hide TempPath;
  }

  /** Just the temp files of destinations `i` to `n` were added. */
  ghost predicate TempsAdded(c: Ctx, fs0: Fs, fs: Fs, i: nat, n: nat, at: Nanos)
    requires n <= |c.targets|
  {
    forall x :: x in fs <==> x in fs0 || exists k | i <= k < n :: x == TempPath(c.targets[k], at)
  }

  lemma {:induction false} TempsDiffer(c: Ctx, i: nat, j: nat, at: Nanos, bt: Nanos)
    requires c.Valid() && i < c.N() && j < c.N() && i != j
    ensures TempPath(c.targets[i], at) != TempPath(c.targets[j], bt)
  {
    hide Sibling, MadeTemp, TempPath, Targets;
    TargetsIff(c.env, c.plan.files);
    DerivedPathsAreMade(c.targets[i], at);
    DerivedPathsAreMade(c.targets[j], bt);
    MadeForOne(c.targets[i], c.targets[j], TempPath(c.targets[i], at));
  }

  /** Files `i` to `n` are staged, all with the same stamp. */
  lemma {:induction false} StagesMany(c: Ctx, fs0: Fs, es0: seq<Event>, ps: seq<Prep>, fs1: Fs, i: nat, n: nat,
      at: Nanos,
                                      odd: set<Event>)
      returns (es: seq<Event>, fs: Fs)
    requires c.Valid() && i <= n < c.N() == |ps|
    requires Gets(c, fs0, es0, St(StagingFile(i, Opening), WithTemps(c, ps, at, i)), fs1, odd)
    requires forall k | i <= k < n :: TempPath(c.targets[k], at) !in fs1
    ensures Gets(c, fs0, es, St(StagingFile(n, Opening), WithTemps(c, ps, at, n)), fs, odd)
    ensures TempsAdded(c, fs1, fs, i, n, at)
    decreases n - i
  {
    hide Gets, Targets, TempPath, StartCommit;
    es, fs := es0, fs1;
    if i < n {
      es, fs := Stages(c, fs0, es, WithTemps(c, ps, at, i), fs1, i, at, true, odd);
      WithOneMore(c, ps, at, i);
      var fs2 := fs;
      forall k | i < k < n ensures TempPath(c.targets[k], at) !in fs2 { TempsDiffer(c, i, k, at, at); }
      es, fs := StagesMany(c, fs0, es, ps, fs2, i + 1, n, at, odd);
    }
  }

  // ----- from the validation to the last rename -----

  lemma Validates(c: Ctx, fs0: Fs, es0: seq<Event>, ps: seq<Prep>, fs: Fs, odd: set<Event>) returns (es: seq<Event>)
    requires Gets(c, fs0, es0, St(StartCommit(c), ps), fs, odd) && |ps| == c.N()
    ensures Gets(c, fs0, es, St(Renaming(0), ps), fs, odd)
  {
    hide Gets, Targets, TempMap, CopyStep, StageStep, StepRestoring;
    ValidWhenReached(c, fs0, es0, St(StartCommit(c), ps), fs, odd);
    es := es0;
    if c.plan.hasPre {
      var fs' := fs;
      es, fs' := Then(c, fs0, es, St(Validating, ps), fs, odd, PreCommit(TempMap(c.targets, ps), true),
                      St(Renaming(0), ps));
    }
  }

  /** Where the rename of destination `i` leads. */
  function AfterRename(c: Ctx, ps: seq<Prep>, i: nat): St {
    if i + 1 < c.N() then St(Renaming(i + 1), ps)
    else if c.plan.hasPost then St(Reloading, ps)
    else StartPrune(c, St(Reloading, ps)).value
  }

  lemma Renames(c: Ctx, fs0: Fs, es0: seq<Event>, ps: seq<Prep>, fs1: Fs, i: nat, odd: set<Event>)
      returns (es: seq<Event>, fs: Fs)
    requires Gets(c, fs0, es0, St(Renaming(i), ps), fs1, odd) && i < c.N() == |ps|
    requires ps[i].temp.Some? && ps[i].temp.value in fs1
    ensures Gets(c, fs0, es, AfterRename(c, ps, i), fs, odd)
    ensures fs == (fs1 - {ps[i].temp.value})[c.targets[i] := fs1[ps[i].temp.value]]
  {
    hide Gets, Targets, CopyStep, StageStep, StepRestoring, BackupMap;
    ValidWhenReached(c, fs0, es0, St(Renaming(i), ps), fs1, odd);
    es, fs := Then(c, fs0, es0, St(Renaming(i), ps), fs1, odd, Rename(ps[i].temp.value, c.targets[i], true),
                   AfterRename(c, ps, i));
  }

  ghost predicate AllTemps(c: Ctx, ps: seq<Prep>, at: Nanos) {
    |ps| == |c.targets| && forall k | 0 <= k < |ps| :: ps[k].temp == Some(TempPath(c.targets[k], at))
  }

  /** The renames from `i` on. A temp name stays behind only where a later destination has it. */
  ghost predicate Swapped(c: Ctx, fs1: Fs, fs: Fs, i: nat, at: Nanos) {
    && (forall x | x in fs :: x in fs1 || exists k | i <= k < |c.targets| :: x == c.targets[k])
    && (forall x | x in fs1 && x !in fs :: exists k | i <= k < |c.targets| :: x == TempPath(c.targets[k], at))
    && (forall k | i <= k < |c.targets| :: TempPath(c.targets[k], at) in fs ==>
          exists m | k <= m < |c.targets| :: TempPath(c.targets[k], at) == c.targets[m])
  }

  lemma {:induction false} RenamesMany(c: Ctx, fs0: Fs, es0: seq<Event>, ps: seq<Prep>, fs1: Fs, i: nat, at: Nanos,
                                       odd: set<Event>)
      returns (es: seq<Event>, fs: Fs)
    requires c.Valid() && i < c.N() && AllTemps(c, ps, at) && Gets(c, fs0, es0, St(Renaming(i), ps), fs1, odd)
    requires forall k | i <= k < c.N() :: TempPath(c.targets[k], at) in fs1
    ensures Gets(c, fs0, es, AfterRename(c, ps, c.N() - 1), fs, odd) && Swapped(c, fs1, fs, i, at)
    decreases c.N() - i
  {
    hide Gets, Targets, TempPath, StartPrune;
    es, fs := Renames(c, fs0, es0, ps, fs1, i, odd);
    if i + 1 < c.N() {
      var fs2 := fs;
      forall k | i < k < c.N() ensures TempPath(c.targets[k], at) in fs2 { TempsDiffer(c, i, k, at, at); }
      es, fs := RenamesMany(c, fs0, es, ps, fs2, i + 1, at, odd);
      SwappedOn(c, fs1, fs2, fs, i, at);
    }
  }

  lemma SwappedOn(c: Ctx, fs1: Fs, fs2: Fs, fs: Fs, i: nat, at: Nanos)
    requires c.Valid() && i + 1 < c.N() && TempPath(c.targets[i], at) in fs1
    requires fs2 == (fs1 - {TempPath(c.targets[i], at)})[c.targets[i] := fs1[TempPath(c.targets[i], at)]]
    requires Swapped(c, fs2, fs, i + 1, at)
    ensures Swapped(c, fs1, fs, i, at)
  {
    hide Targets, TempPath;
  }

  // ----- pruning -----

  lemma {:induction false} Enumerate(found: set<Path>) returns (names: seq<Path>)
    ensures Lists(names, found)
    decreases |found|
  {
    if found == {} {
      names := [];
    } else {
      var x :| x in found;
      names := Enumerate(found - {x});
      names := names + [x];
    }
  }

  /** What pruning the backups of `d` leaves. */
  function PrunedAt(fs: Fs, d: Path, keep: int): Fs {
    fs - (Backups(fs, d) - Kept(Backups(fs, d), keep))
  }

  function PrunedFrom(c: Ctx, fs: Fs, i: nat): Fs
    decreases |c.targets| - i
  {
    if i >= |c.targets| then fs else PrunedFrom(c, PrunedAt(fs, c.targets[i], c.Keep()), i + 1)
  }

  function Finished(c: Ctx, ps: seq<Prep>): St {
    St(Unlocking(c.N(), Report(c, ps, None, true, false)), ps)
  }

  function AfterPrune(c: Ctx, ps: seq<Prep>, i: nat): St {
    if i + 1 < c.N() then St(Listing(i + 1), ps) else Finished(c, ps)
  }

  lemma PruneSteps(c: Ctx, ps: seq<Prep>, i: nat, todo: seq<Path>, names: seq<Path>)
    requires c.Valid() && i < c.N() && c.Keep() > 0
    ensures PruneRest(c, St(Listing(i), ps), i, []) == Some(AfterPrune(c, ps, i))
    ensures Step(c, St(Listing(i), ps), ListBackups(c.targets[i], Some(names)))
            == PruneRest(c, St(Listing(i), ps), i, Doomed(names, c.Keep()))
    ensures todo != [] ==> PruneRest(c, St(Listing(i), ps), i, todo) == Some(St(Pruning(i, todo), ps))
    ensures todo != [] ==> Step(c, St(Pruning(i, todo), ps), Remove(todo[0], Removed))
                           == PruneRest(c, St(Listing(i), ps), i, todo[1..])
  {
    hide Targets, CopyStep, StageStep, StepRestoring, Doomed, Report;
  }

  lemma {:induction false} RemovesAll(c: Ctx, fs0: Fs, es0: seq<Event>, ps: seq<Prep>, fs1: Fs, i: nat, todo: seq<Path>,
                                      odd: set<Event>)
      returns (es: seq<Event>, fs: Fs)
    requires c.Valid() && i < c.N() && c.Keep() > 0 && Distinct(todo) && forall x | x in todo :: x in fs1
    requires var s := PruneRest(c, St(Listing(i), ps), i, todo); s.Some? && Gets(c, fs0, es0, s.value, fs1, odd)
    ensures Gets(c, fs0, es, AfterPrune(c, ps, i), fs, odd) && fs == fs1 - Elements(todo)
    decreases |todo|
  {
    hide Gets, Targets, Step, PruneRest, AfterPrune;
    PruneSteps(c, ps, i, todo, []);
    es, fs := es0, fs1;
    if todo != [] {
      var rest := todo[1..];
      PruneSteps(c, ps, i, rest, []);
      es, fs := Then(c, fs0, es, St(Pruning(i, todo), ps), fs, odd, Remove(todo[0], Removed),
                     PruneRest(c, St(Listing(i), ps), i, rest).value);
      var fs2 := fs;
      forall x | x in rest ensures x in fs2 && x in todo {
        var k :| 0 <= k < |rest| && rest[k] == x;
        assert todo[k + 1] == x;
      }
      es, fs := RemovesAll(c, fs0, es, ps, fs2, i, rest, odd);
      assert Elements(todo) == {todo[0]} + Elements(rest) by { assert todo == [todo[0]] + rest; }
    }
  }

  lemma DoomedIsDistinct(names: seq<Path>, all: set<Path>, keep: nat)
    requires Lists(names, all)
    ensures Distinct(Doomed(names, keep)) && forall x | x in Doomed(names, keep) :: x in all
  {
    SortMembers(names);
    SortAscending(names);
    var s := Sort(names);
    forall a, b | 0 <= a < b < |s| ensures s[a] != s[b] { LessIrreflexive(s[a]); }
  }

  /** The backups of destination `i` are listed and pruned. */
  lemma {:induction false} Prunes(c: Ctx, fs0: Fs, es0: seq<Event>, ps: seq<Prep>, fs1: Fs, i: nat, odd: set<Event>)
      returns (es: seq<Event>, fs: Fs)
    requires c.Valid() && i < c.N() && c.Keep() > 0 && Gets(c, fs0, es0, St(Listing(i), ps), fs1, odd)
    ensures Gets(c, fs0, es, AfterPrune(c, ps, i), fs, odd) && fs == PrunedAt(fs1, c.targets[i], c.Keep())
  {
    hide Gets, Targets, Step, PruneRest, Doomed, Backups, Kept, AfterPrune;
    var d, keep := c.targets[i], c.Keep();
    var all := Backups(fs1, d);
    var names := Enumerate(all);
    var todo := Doomed(names, keep);
    PruneSteps(c, ps, i, todo, names);
    DoomedIsDistinct(names, all, keep);
    DoomedIsTheRest(names, all, keep);
    ListedArePresent(fs1, d);
    es, fs := Then(c, fs0, es0, St(Listing(i), ps), fs1, odd, ListBackups(d, Some(names)),
                   PruneRest(c, St(Listing(i), ps), i, todo).value);
    es, fs := RemovesAll(c, fs0, es, ps, fs1, i, todo, odd);
  }

  lemma ListedArePresent(fs: Fs, d: Path)
    ensures forall x | x in Backups(fs, d) :: x in fs
  {
  }

  lemma {:induction false} PrunesMany(c: Ctx, fs0: Fs, es0: seq<Event>, ps: seq<Prep>, fs1: Fs, i: nat, odd: set<Event>)
      returns (es: seq<Event>, fs: Fs)
    requires c.Valid() && i < c.N() && c.Keep() > 0 && Gets(c, fs0, es0, St(Listing(i), ps), fs1, odd)
    ensures Gets(c, fs0, es, Finished(c, ps), fs, odd) && fs == PrunedFrom(c, fs1, i)
    decreases c.N() - i
  {
    hide Gets, Targets, PrunedAt, Finished;
    es, fs := Prunes(c, fs0, es0, ps, fs1, i, odd);
    if i + 1 < c.N() { es, fs := PrunesMany(c, fs0, es, ps, fs, i + 1, odd); }
  }

  lemma {:induction false} Unlocks(c: Ctx, fs0: Fs, es0: seq<Event>, ps: seq<Prep>, fs: Fs, k: nat, out: Outcome,
                                   odd: set<Event>)
      returns (es: seq<Event>)
    requires 0 < k <= c.N() && Gets(c, fs0, es0, St(Unlocking(k, out), ps), fs, odd)
    ensures Gets(c, fs0, es, St(Done(out), ps), fs, odd)
    decreases k
  {
    hide Gets, Targets, Sort, CopyStep, StageStep, StepRestoring;
    ValidWhenReached(c, fs0, es0, St(Unlocking(k, out), ps), fs, odd);
    var fs' := fs;
    es, fs' := Then(c, fs0, es0, St(Unlocking(k, out), ps), fs, odd, Unlock(FileLock(c.Order()[k - 1])),
                    St(if k == 1 then Done(out) else Unlocking(k - 1, out), ps));
    if k > 1 { es := Unlocks(c, fs0, es, ps, fs, k - 1, out, odd); }
  }

  /** What a successful deployment leaves of the tree it has renamed its files into. */
  function Settle(c: Ctx, fs: Fs): Fs {
    if c.Keep() > 0 then PrunedFrom(c, fs, 0) else fs
  }

  /** The reload, if there is one, passes; every destination is pruned; every lock is released. */
  lemma Finishes(c: Ctx, fs0: Fs, es0: seq<Event>, ps: seq<Prep>, fs1: Fs, odd: set<Event>)
      returns (es: seq<Event>, out: Outcome, fs: Fs)
    requires c.Valid() && Gets(c, fs0, es0, AfterRename(c, ps, c.N() - 1), fs1, odd)
    ensures Gets(c, fs0, es, St(Done(out), ps), fs, odd) && out.error.None? && out != Skipped()
    ensures fs == Settle(c, fs1)
  {
    hide Gets, Targets, CopyStep, StageStep, StepRestoring, BackupMap, PrunedFrom;
    out := Report(c, ps, None, true, false);
    es, fs := es0, fs1;
    if c.plan.hasPost {
      es, fs := Then(c, fs0, es, St(Reloading, ps), fs, odd, PostCommit(true), StartPrune(c, St(Reloading, ps)).value);
    }
    if c.Keep() > 0 { es, fs := PrunesMany(c, fs0, es, ps, fs, 0, odd); }
    es := Unlocks(c, fs0, es, ps, fs, c.N(), out, odd);
  }

  // ----- a successful deployment of one file -----

  /** The replies of a successful run that are no successes: about a file that is not there, and a
      chown that is not granted. */
  function Setbacks(c: Ctx, fs0: Fs, at: Nanos, o: Resolved, granted: bool): set<Event>
    requires |c.targets| == 1
  {
    var d := c.targets[0];
    (if d in fs0 then {} else {Stat(d, None), ReadFile(d, None)})
    + (if granted || !WantsChown(o) then {} else {Chown(TempPath(d, at), o.uid, o.gid, false)})
  }

  /** A one-file deployment that has something to do and may fail to chown. */
  ghost predicate Feasible(c: Ctx, fs0: Fs, at: Nanos, granted: bool) {
    && c.Valid() && c.N() == 1 && TempPath(c.targets[0], at) !in fs0
    && (c.plan.skipIdempotent || !IsMatch(c, fs0, c.targets[0], c.plan.files[0]))
    && PrepFor(c, 0, Truth(fs0, c.targets[0])).Some? && (granted || !c.env.root)
  }

  lemma TempIsNoBackup(d: Path, at: Nanos, bt: Nanos)
    ensures TempPath(d, at) != BackupPath(d, bt) && TempPath(d, at) != d && BackupPath(d, bt) != d
  {
    hide Sibling, MadeBackup, MadeTemp, TempPath, BackupPath;
    DerivedPathsAreMine(d, at);
    DerivedPathsAreMine(d, bt);
    KindsAreDisjoint(d, TempPath(d, at));
    KindsAreDisjoint(d, BackupPath(d, bt));
  }

  lemma {:induction false} PrunedAlone(c: Ctx, fs: Fs)
    requires |c.targets| == 1 && c.targets[0] in fs
    ensures c.targets[0] in Settle(c, fs) && Settle(c, fs)[c.targets[0]] == fs[c.targets[0]]
  {
    hide Sibling, Kept;
    KindsAreDisjoint(c.targets[0], c.targets[0]);
    var fs' := PrunedAt(fs, c.targets[0], c.Keep());
    assert PrunedFrom(c, fs, 0) == PrunedFrom(c, fs', 1) == fs';
  }

  lemma {:induction false} Succeeds(c: Ctx, fs0: Fs, at: Nanos, bt: Nanos, granted: bool)
      returns (es: seq<Event>, s: St, fs: Fs)
    requires Feasible(c, fs0, at, granted)
    ensures Reaches(c, fs0, es, s, fs) && s.pc.Done? && s.pc.out.error.None? && s.pc.out != Skipped()
    ensures var o := PrepFor(c, 0, Truth(fs0, c.targets[0])).value.owner;
      && c.targets[0] in fs && fs[c.targets[0]] == Staged(c.env, c.plan.files[0].bytes, o, granted)
      && AllBut(es, Setbacks(c, fs0, at, o, granted))
  {
    hide Reaches, Targets, Resolve, TempPath, BackupPath, SameDigest, Granted, StartCommit, StartPrune, Settle;
    var d := c.targets[0];
    var p, t := PrepFor(c, 0, Truth(fs0, d)).value, TempPath(d, at);
    var odd := Setbacks(c, fs0, at, p.owner, granted);
    TempIsNoBackup(d, at, bt);
    fs := fs0;
    es := Begins(c, fs0, [Truth(fs0, d)], odd);
    var ps := Preps(c, fs0, [Truth(fs0, d)], 1);
    if Backed(c, p) {
      es, fs := BacksUp(c, fs0, es, ps, fs0, 0, bt, odd);
      assert Same(fs0, fs, t);
      ps := ps[0 := p.(backup := Some(BackupPath(d, bt)))];
      es := BackupsEnd(c, fs0, es, ps, fs, 1, odd);
    } else {
      es := BackupsEnd(c, fs0, es, ps, fs, 0, odd);
    }
    es, fs := Stages(c, fs0, es, ps, fs, 0, at, granted, odd);
    ps := ps[0 := ps[0].(temp := Some(t))];
    es := Validates(c, fs0, es, ps, fs, odd);
    es, fs := Renames(c, fs0, es, ps, fs, 0, odd);
    PrunedAlone(c, fs);
    var out;
    es, out, fs := Finishes(c, fs0, es, ps, fs, odd);
    s := St(Done(out), ps);
  }
}
