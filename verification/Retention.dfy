/** Which backups survive a deployment. */
module Retention {
  import opened Text
  import opened Paths
  import opened Data
  import opened Os
  import opened Ownership
  import opened FileOps
  import opened ApplyProtocol
  import opened ApplySafety
  import opened ApplyFootprint
  import opened ApplyTheorems

  // ----- the newest `keep` of a set of names -----

  function Newer(all: set<Path>, y: Path): set<Path> {
    set x | x in all && Less(y, x)
  }

  /** The names with fewer than `keep` newer ones. */
  function Kept(all: set<Path>, keep: int): set<Path> {
    set y | y in all && |Newer(all, y)| < keep
  }

  function Elements<T(==)>(s: seq<T>): set<T> {
    set x | x in s
  }

  lemma {:induction false} ElementsSize<T>(s: seq<T>)
    requires Distinct(s)
    ensures |Elements(s)| == |s|
  {
    if s != [] {
      var n := |s| - 1;
      ElementsSize(s[..n]);
      assert Elements(s) == Elements(s[..n]) + {s[n]};
      assert s[n] !in Elements(s[..n]);
    }
  }

  lemma NewerThanAt(s: seq<Path>, i: nat)
    requires Ascending(s) && i < |s|
    ensures |Newer(Elements(s), s[i])| == |s| - 1 - i
  {
    var later := s[i + 1..];
    forall x | x in Newer(Elements(s), s[i]) ensures x in later {
      var k :| 0 <= k < |s| && s[k] == x;
      if k < i { LessTransitive(s[k], s[i], s[k]); }
      LessIrreflexive(x);
      assert later[k - i - 1] == x;
    }
    assert Newer(Elements(s), s[i]) == Elements(later);
    forall a, b | 0 <= a < b < |later| ensures later[a] != later[b] {
      LessIrreflexive(later[a]);
      assert Less(s[i + 1 + a], s[i + 1 + b]);
    }
    ElementsSize(later);
  }

  /** What pruneBackups removes is exactly what has at least `keep` newer backups. */
  lemma DoomedIsTheRest(names: seq<Path>, all: set<Path>, keep: int)
    requires Lists(names, all) && keep > 0
    ensures Elements(Doomed(names, keep)) == all - Kept(all, keep)
  {
    var s := Sort(names);
    SortMembers(names);
    SortAscending(names);
    assert Elements(s) == all;
    var gone := Doomed(names, keep);
    var cut := |names| - keep;
    forall i | 0 <= i < |s| ensures s[i] in Kept(all, keep) <==> i >= cut { NewerThanAt(s, i); }
    forall x ensures x in gone <==> x in all - Kept(all, keep) {
      if x in gone {
        var i :| 0 <= i < |gone| && gone[i] == x;
        assert s[i] == x;
      }
      if x in all - Kept(all, keep) {
        var i :| 0 <= i < |s| && s[i] == x;
        assert i < cut;
        assert gone[i] == x;
      }
    }
  }

  lemma Listing(all: set<Path>) returns (names: seq<Path>)
    ensures Lists(names, all) && |names| == |all|
    decreases |all|
  {
    if all == {} {
      names := [];
    } else {
      var x :| x in all;
      var rest := Listing(all - {x});
      names := rest + [x];
    }
  }

  /** In name order the kept backups are a tail. */
  lemma KeptIsTail(all: set<Path>, keep: int) returns (s: seq<Path>, cut: nat)
    requires keep > 0
    ensures Ascending(s) && Distinct(s) && Elements(s) == all && |s| == |all|
    ensures cut == (if |all| <= keep then 0 else |all| - keep)
    ensures forall i | 0 <= i < |s| :: s[i] in Kept(all, keep) <==> i >= cut
  {
    var names := Listing(all);
    s := Sort(names);
    SortMembers(names);
    SortAscending(names);
    assert Elements(s) == all;
    cut := if |names| <= keep then 0 else |names| - keep;
    forall i | 0 <= i < |s| ensures s[i] in Kept(all, keep) <==> i >= cut { NewerThanAt(s, i); }
  }

  /** Exactly min(keep, n) backups stay, and they are newer than every one that goes. */
  lemma KeptAreTheNewest(all: set<Path>, keep: int)
    requires keep > 0
    ensures |Kept(all, keep)| == if |all| <= keep then |all| else keep
    ensures forall x, y | x in Kept(all, keep) && y in all - Kept(all, keep) :: Less(y, x)
  {
    hide Less;
    var s, cut := KeptIsTail(all, keep);
    var tail := s[cut..];
    forall x ensures x in Kept(all, keep) <==> x in Elements(tail) {
      if x in Kept(all, keep) {
        var i :| 0 <= i < |s| && s[i] == x;
        assert tail[i - cut] == x;
      }
    }
    assert Kept(all, keep) == Elements(tail);
    ElementsSize(tail);
    forall x, y | x in Kept(all, keep) && y in all - Kept(all, keep) ensures Less(y, x) {
      var i :| 0 <= i < |s| && s[i] == x;
      var k :| 0 <= k < |s| && s[k] == y;
      assert Less(s[k], s[i]);
    }
  }

  /** A name newer than all others is never pruned. */
  lemma {:induction false} NewestIsKept(all: set<Path>, keep: int, b: Path)
    requires keep > 0 && b in all && forall x | x in all && x != b :: Less(x, b)
    ensures b in Kept(all, keep)
  {
    forall x | x in Newer(all, b) ensures false {
      if x == b { LessIrreflexive(b); } else { LessTransitive(x, b, x); LessIrreflexive(x); }
    }
    assert Newer(all, b) == {};
  }

  /** Adding a newest backup pushes out one older one. */
  lemma {:induction false} KeptWithNewest(old_: set<Path>, keep: int, b: Path)
    requires keep > 0 && b !in old_ && forall x | x in old_ :: Less(x, b)
    ensures Kept(old_ + {b}, keep) == Kept(old_, keep - 1) + {b}
  {
    var all := old_ + {b};
    NewestIsKept(all, keep, b);
    forall y | y in old_ ensures |Newer(all, y)| == |Newer(old_, y)| + 1 {
      assert Newer(all, y) == Newer(old_, y) + {b};
    }
  }

  // ----- the backups of one destination during a deployment -----

  datatype Stock =
    | Exact(done: bool)         // the old backups and our own; ours is complete when `done`
    | Pruned(todo: set<Path>)   // pruning has begun, `todo` is still to go
    | Anything

  function OwnSet(own: Option<Path>): set<Path> {
    if own.Some? then {own.value} else {}
  }

  function All(fs0: Fs, d: Path, own: Option<Path>): set<Path> {
    Backups(fs0, d) + OwnSet(own)
  }

  /** Earlier backups are as they were, and ours holds the original bytes. */
  ghost predicate Intact(fs0: Fs, fs: Fs, d: Path, own: Option<Path>, done: bool) {
    && (forall x | x in Backups(fs, d) && own != Some(x) :: x in fs0 && fs[x] == fs0[x])
    && (own.Some? && own.value in fs && done ==> d in fs0 && fs[own.value].bytes == fs0[d].bytes)
  }

  /** `clean` says that no removal and no directory scan has failed so far. */
  ghost predicate StockHolds(fs0: Fs, fs: Fs, d: Path, own: Option<Path>, keep: int, v: Stock, clean: bool) {
    var all := All(fs0, d, own);
    var kept := Kept(all, keep);
    match v
    case Exact(done) => Backups(fs, d) == all && Intact(fs0, fs, d, own, done)
    case Pruned(todo) =>
      && keep > 0 && kept <= Backups(fs, d) <= all && todo <= all - kept
      && (clean ==> Backups(fs, d) == kept + todo)
      && Intact(fs0, fs, d, own, true)
    case Anything => true
  }

  lemma StockFrame(fs0: Fs, fs: Fs, fs': Fs, d: Path, own: Option<Path>, keep: int, v: Stock, clean: bool, clean': bool)
    requires StockHolds(fs0, fs, d, own, keep, v, clean) && (clean' ==> clean)
    requires own.Some? ==> IsBackupOf(d, own.value)
    requires forall x | IsBackupOf(d, x) :: Same(fs, fs', x)
    ensures StockHolds(fs0, fs', d, own, keep, v, clean')
  {
    hide Sibling, MadeBackup, MadeTemp, Kept;
    assert Backups(fs, d) == Backups(fs', d);
  }

  function OwnOf(s: St, j: nat): Option<Path> {
    if s.pc.BackingUp? && s.pc.i == j && (s.pc.copy.Filling? || s.pc.copy.Finishing? || s.pc.copy.Gifting?)
    then Some(s.pc.copy.backup)
    else if j < |s.preps| then s.preps[j].backup else None
  }

  function StockOut(c: Ctx, out: Outcome): Stock {
    if out.error == Some(BackupFailed) then Anything
    else if out.error.None? && out != Skipped() && c.Keep() > 0 then Pruned({})
    else Exact(true)
  }

  function StockOf(c: Ctx, pc: Pc, j: nat): Stock {
    match pc
    case BackingUp(i, copy) => Exact(!(j == i && copy.Filling?))
    case DroppingBackups(_) => Anything
    case Listing(i) => if j < i then Pruned({}) else Exact(true)
    case Pruning(i, todo) => if j < i then Pruned({}) else if j == i then Pruned(Elements(todo)) else Exact(true)
    case Unlocking(_, out) => StockOut(c, out)
    case Done(out) => StockOut(c, out)
    case _ => Exact(true)
  }

  predicate CleanCall(e: Event) {
    !(e.Remove? && e.reply.Refused?) && !(e.ListBackups? && e.names.None?)
  }

  ghost predicate StockInv(c: Ctx, fs0: Fs, fs: Fs, s: St, clean: bool, j: nat)
    requires j < |c.targets|
  {
    StockHolds(fs0, fs, c.targets[j], OwnOf(s, j), c.Keep(), StockOf(c, s.pc, j), clean)
  }

  /** What is claimed of the backups of every destination that stands alone. */
  ghost predicate StocksKept(c: Ctx, fs0: Fs, fs: Fs, s: St, clean: bool) {
    forall j | 0 <= j < |c.targets| && Alone(c.targets, j) :: StockInv(c, fs0, fs, s, clean, j)
  }

  /** The situation around a step, with the safety invariant on both sides. */
  ghost predicate Around(c: Ctx, fs0: Fs, fs: Fs, s: St, e: Event, s': St, clean: bool) {
    && c.Valid() && Enabled(e, fs) && Step(c, s, e) == Some(s')
    && Inv(c, fs0, fs, s) && Inv(c, fs0, Effect(c.env, e, fs), s')
    && StocksKept(c, fs0, fs, s, clean)
  }

  lemma OwnIsBackup(c: Ctx, s: St, j: nat)
    requires c.Valid() && Shape(c, s) && j < c.N()
    ensures OwnOf(s, j).Some? ==> IsBackupOf(c.targets[j], OwnOf(s, j).value)
  {
    hide Sibling, MadeBackup, MadeTemp;
    if j < |s.preps| { assert PrepNames(c.targets[j], s.preps[j]); }
  }

  /** A call within the family of `i` leaves the backups of the others alone. */
  lemma OtherStocksKeep(c: Ctx, fs0: Fs, fs: Fs, s: St, e: Event, s': St, clean: bool, i: nat, j: nat)
    requires Around(c, fs0, fs, s, e, s', clean) && Within(c, s, e, i) && j < c.N() && Alone(c.targets, j)
    requires j != i || (!s.pc.BackingUp? && !s.pc.DroppingBackups? && !s.pc.Pruning?)
    requires OwnOf(s', j) == OwnOf(s, j)
    ensures StockHolds(fs0, Effect(c.env, e, fs), c.targets[j], OwnOf(s', j), c.Keep(), StockOf(c, s.pc, j), clean
        && CleanCall(e))
  {
    hide Sibling, MadeBackup, MadeTemp, Mine, Shape, Touches, Effect, Enabled, FileInv, StockHolds, StockOf, Apart,
      Step, OwnOf;
    var fs', d := Effect(c.env, e, fs), c.targets[j];
    TargetsIff(c.env, c.plan.files);
    assert StockInv(c, fs0, fs, s, clean, j);
    OwnIsBackup(c, s, j);
    forall x | IsBackupOf(d, x) ensures Same(fs, fs', x) {
      assert Mine(d, x) by { BackupsAreMine(d, x); }
      if j != i {
        assert Apart(c.targets[i], d);
        ApartIsEnough(c.targets[i], d, x);
        EffectIsLocal(c.env, e, fs, x);
      } else if e.ReadFile? || e.ListBackups? {
        ReadsChangeNothing(c.env, e, fs);
      } else {
        EffectIsLocal(c.env, e, fs, x);
      }
    }
    StockFrame(fs0, fs, fs', d, OwnOf(s, j), c.Keep(), StockOf(c, s.pc, j), clean, clean && CleanCall(e));
  }

  lemma BackupsAreMine(d: Path, x: Path)
    requires IsBackupOf(d, x)
    ensures Mine(d, x)
  {
    hide Sibling, MadeBackup, MadeTemp;
  }

  lemma ReadsChangeNothing(env: Env, e: Event, fs: Fs)
    requires Enabled(e, fs) && (e.ReadFile? || e.ListBackups? || e.Stat?)
    ensures Effect(env, e, fs) == fs
  {
  }

  ghost predicate StockUnmoved(c: Ctx, s: St, s': St) {
    forall j | 0 <= j < |c.targets| :: OwnOf(s', j) == OwnOf(s, j) && StockOf(c, s'.pc, j) == StockOf(c, s.pc, j)
  }

  lemma StockUnmovedEarly(c: Ctx, s: St, e: Event, s': St)
    requires c.Valid() && Shape(c, s) && Step(c, s, e) == Some(s')
    requires s.pc.Locking? || s.pc.Checking? || s.pc.Comparing? || s.pc.Statting? || s.pc.BackupHead? || s.pc.Unlocking?
    ensures StockUnmoved(c, s, s')
  {
    hide Sibling, MadeBackup, MadeTemp, Resolve, SameDigest, Sort, Targets, PrepNames;
  }

  lemma StockUnmovedStaging(c: Ctx, s: St, e: Event, s': St)
    requires c.Valid() && Shape(c, s) && s.pc.StagingFile? && Step(c, s, e) == Some(s')
    ensures StockUnmoved(c, s, s')
  {
    hide Sibling, MadeBackup, MadeTemp, StageStep, Targets, PrepNames;
  }

  lemma StockUnmovedLate(c: Ctx, s: St, e: Event, s': St)
    requires c.Valid() && Shape(c, s) && Step(c, s, e) == Some(s')
    requires s.pc.DroppingTemps? || s.pc.Validating? || s.pc.Renaming? || s.pc.Reloading? || s.pc.ReloadingOld?
    ensures StockUnmoved(c, s, s')
  {
    hide Sibling, MadeBackup, MadeTemp, TempMap, BackupMap, Targets, PrepNames;
  }

  lemma StockUnmovedRestoring(c: Ctx, s: St, e: Event, s': St)
    requires c.Valid() && Shape(c, s) && s.pc.Restoring? && StepRestoring(c, s, e) == Some(s')
    ensures StockUnmoved(c, s, s')
  {
    hide Sibling, MadeBackup, MadeTemp, BackupMap, Targets, PrepNames, StageStep;
    if s.pc.i < s.pc.upto { RestoringGoesOn(c, s, e, s'); }
  }

  lemma StocksUnmoved(c: Ctx, fs0: Fs, fs: Fs, s: St, e: Event, s': St, clean: bool)
    requires Around(c, fs0, fs, s, e, s', clean) && StockUnmoved(c, s, s')
    requires !s.pc.BackingUp? && !s.pc.DroppingBackups? && !s.pc.Pruning?
    ensures StocksKept(c, fs0, Effect(c.env, e, fs), s', clean && CleanCall(e))
  {
    hide Sibling, MadeBackup, MadeTemp, Shape, Effect, Enabled, FileInv, StockHolds, StockOf, Step, OwnOf, Within,
      Alone;
    var i := StepWithin(c, s, e, s');
    var fs', clean' := Effect(c.env, e, fs), clean && CleanCall(e);
    forall j | 0 <= j < c.N() && Alone(c.targets, j) ensures StockInv(c, fs0, fs', s', clean', j) {
      OtherStocksKeep(c, fs0, fs, s, e, s', clean, i, j);
    }
  }

  lemma ListingOwn(fs0: Fs, fs: Fs, d: Path, own: Option<Path>, keep: int, clean: bool, names: Option<seq<Path>>)
    requires StockHolds(fs0, fs, d, own, keep, Exact(true), clean) && keep > 0
    requires names.Some? ==> Lists(names.value, Backups(fs, d))
    ensures var todo := if names.None? then [] else Doomed(names.value, keep);
      StockHolds(fs0, fs, d, own, keep, Pruned(Elements(todo)), clean && names.Some?)
  {
    hide Sibling, MadeBackup, MadeTemp, Doomed;
    if names.Some? { DoomedIsTheRest(names.value, Backups(fs, d), keep); }
  }

  lemma StocksListing(c: Ctx, fs0: Fs, fs: Fs, s: St, e: Event, s': St, clean: bool)
    requires Around(c, fs0, fs, s, e, s', clean) && s.pc.Listing? && StepListing(c, s, e) == Some(s')
    ensures StocksKept(c, fs0, Effect(c.env, e, fs), s', clean && CleanCall(e))
  {
    hide Sibling, MadeBackup, MadeTemp, StockHolds, FileInv, Step, Doomed, BackupMap, PrepNames, Targets, Alone;
    var i := s.pc.i;
    if Alone(c.targets, i) {
      assert StockInv(c, fs0, fs, s, clean, i);
      ListingOwn(fs0, fs, c.targets[i], OwnOf(s, i), c.Keep(), clean, e.names);
    }
    var k := StepWithin(c, s, e, s');
    assert Elements<Path>([]) == {};
    var clean' := clean && CleanCall(e);
    forall j | 0 <= j < c.N() && Alone(c.targets, j) ensures StockInv(c, fs0, fs, s', clean', j) {
      if j != i { OtherStocksKeep(c, fs0, fs, s, e, s', clean, k, j); }
    }
  }

  lemma PruningOwn(env: Env, fs0: Fs, fs: Fs, d: Path, own: Option<Path>, keep: int, clean: bool, todo: seq<Path>,
      e: Event)
    requires todo != [] && Distinct(todo) && StockHolds(fs0, fs, d, own, keep, Pruned(Elements(todo)), clean)
    requires e.Remove? && e.path == todo[0] && IsBackupOf(d, e.path) && Enabled(e, fs)
    ensures StockHolds(fs0, Effect(env, e, fs), d, own, keep, Pruned(Elements(todo[1..])), clean && CleanCall(e))
  {
    hide Sibling, MadeBackup, MadeTemp, Kept;
    assert Elements(todo) == {todo[0]} + Elements(todo[1..]);
    assert todo[0] !in Elements(todo[1..]);
    var fs' := Effect(env, e, fs);
    assert Backups(fs', d) == if e.reply.Removed? then Backups(fs, d) - {e.path} else Backups(fs, d);
  }

  lemma StocksPruning(c: Ctx, fs0: Fs, fs: Fs, s: St, e: Event, s': St, clean: bool)
    requires Around(c, fs0, fs, s, e, s', clean) && s.pc.Pruning? && StepPruning(c, s, e) == Some(s')
    ensures StocksKept(c, fs0, Effect(c.env, e, fs), s', clean && CleanCall(e))
  {
    hide Sibling, MadeBackup, MadeTemp, StockHolds, FileInv, Step, BackupMap, Effect, Enabled, Alone, PrepNames,
      Targets, Clear, Spared, Sort, Resolve;
    var i := s.pc.i;
    if Alone(c.targets, i) {
      assert StockInv(c, fs0, fs, s, clean, i);
      PruningOwn(c.env, fs0, fs, c.targets[i], OwnOf(s, i), c.Keep(), clean, s.pc.todo, e);
    }
    var k := StepWithin(c, s, e, s');
    assert Elements<Path>([]) == {};
    var fs', clean' := Effect(c.env, e, fs), clean && CleanCall(e);
    forall j | 0 <= j < c.N() && Alone(c.targets, j) ensures StockInv(c, fs0, fs', s', clean', j) {
      if j != i { OtherStocksKeep(c, fs0, fs, s, e, s', clean, k, j); }
    }
  }

  lemma StocksDropping(c: Ctx, fs0: Fs, fs: Fs, s: St, e: Event, s': St, clean: bool)
    requires Around(c, fs0, fs, s, e, s', clean) && s.pc.DroppingBackups? && StepDroppingBackups(c, s, e) == Some(s')
    ensures StocksKept(c, fs0, Effect(c.env, e, fs), s', clean && CleanCall(e))
  {
    hide Sibling, MadeBackup, MadeTemp, FileInv, Step, Effect, Enabled, Shape;
  }

  function CopyOwn(copy: Copy): Option<Path> {
    if copy.Filling? || copy.Finishing? || copy.Gifting? then Some(copy.backup) else None
  }

  function ResultOwn(r: CopyResult): Option<Path> {
    match r
    case Copying(copy) => CopyOwn(copy)
    case Copied(b) => Some(b)
    case _ => None
  }

  /** A step of the copy opens one backup or writes to the one it opened. */
  lemma BackupsAfterCopy(env: Env, fs: Fs, d: Path, copy: Copy, e: Event)
    requires CopyNames(d, copy) && Enabled(e, fs)
    requires var r := CopyStep(d, copy, e); r.Copying? || r.Copied?
    ensures var fs', own := Effect(env, e, fs), ResultOwn(CopyStep(d, copy, e));
      && (CopyOwn(copy).Some? ==> own == CopyOwn(copy))
      && Backups(fs', d) == Backups(fs, d) + (if CopyOwn(copy).None? && own.Some? then {own.value} else {})
      && (forall x | x in Backups(fs, d) && own != Some(x) :: x in fs' && x in fs && fs'[x] == fs[x])
  {
    hide Sibling, MadeBackup, MadeTemp;
    CopyStepNames(d, copy, e);
    var fs' := Effect(env, e, fs);
    if e.OpenBackup? {
      assert Backups(fs', d) == Backups(fs, d) + {BackupPath(d, e.at)};
    } else {
      assert Backups(fs', d) == Backups(fs, d);
    }
  }

  lemma CopiedIsThere(orig: Bytes, fs: Fs, r: CopyResult)
    requires CopyResultOk(orig, fs, r) && ResultOwn(r).Some? && !(r.Copying? && r.copy.Filling?)
    ensures ResultOwn(r).value in fs && fs[ResultOwn(r).value].bytes == orig
  {
  }

  /** Copying adds one backup and completes it before it is reported. */
  lemma CopyOwnKeeps(env: Env, fs0: Fs, fs: Fs, d: Path, keep: int, clean: bool, copy: Copy, e: Event)
    requires StockHolds(fs0, fs, d, CopyOwn(copy), keep, Exact(!copy.Filling?), clean)
    requires d in fs && d in fs0 && fs[d].bytes == fs0[d].bytes
    requires CopyNames(d, copy) && CopyOk(fs0[d].bytes, fs, copy) && Enabled(e, fs)
    requires var r := CopyStep(d, copy, e); r.Copying? || r.Copied?
    ensures var r := CopyStep(d, copy, e);
      StockHolds(fs0, Effect(env, e, fs), d, ResultOwn(r), keep, Exact(!(r.Copying? && r.copy.Filling?)), clean
        && CleanCall(e))
  {
    hide Sibling, MadeBackup, MadeTemp, Kept, CopyNames, CopyOk, Effect, Enabled, CopyStep, Backups;
    BackupsAfterCopy(env, fs, d, copy, e);
    CopyStepOk(env, d, fs, copy, e);
    var r := CopyStep(d, copy, e);
    if ResultOwn(r).Some? && !(r.Copying? && r.copy.Filling?) { CopiedIsThere(fs0[d].bytes, Effect(env, e, fs), r); }
  }

  lemma StocksUnclaimed(c: Ctx, fs0: Fs, fs: Fs, s: St, clean: bool)
    requires s.pc.DroppingBackups?
    ensures StocksKept(c, fs0, fs, s, clean)
  {
  }

  lemma StocksBackingUp(c: Ctx, fs0: Fs, fs: Fs, s: St, e: Event, s': St, clean: bool)
    requires Around(c, fs0, fs, s, e, s', clean) && s.pc.BackingUp?
    ensures StocksKept(c, fs0, Effect(c.env, e, fs), s', clean && CleanCall(e))
  {
    hide Sibling, MadeBackup, MadeTemp, StockHolds, BackupMap, Effect, Enabled, CopyStep, Placed, Resolve, Alone, Clear,
      Spared;
    var i := s.pc.i;
    var d, copy := c.targets[i], s.pc.copy;
    var r := CopyStep(d, copy, e);
    var fs', clean' := Effect(c.env, e, fs), clean && CleanCall(e);
    if r.Copying? || r.Copied? {
      if Alone(c.targets, i) {
        AloneIsClear(c, i);
        assert StockInv(c, fs0, fs, s, clean, i);
        assert FileInv(c, fs0, fs, s, i);
        CopyOwnKeeps(c.env, fs0, fs, d, c.Keep(), clean, copy, e);
      }
      WithinBackingUp(c, s, e, s');
    } else {
      StocksUnclaimed(c, fs0, fs', s', clean');
    }
    forall j | 0 <= j < c.N() && Alone(c.targets, j) ensures StockInv(c, fs0, fs', s', clean', j) {
      if j != i && (r.Copying? || r.Copied?) { OtherStocksKeep(c, fs0, fs, s, e, s', clean, i, j); }
    }
  }

  lemma StocksStep(c: Ctx, fs0: Fs, fs: Fs, s: St, e: Event, s': St, clean: bool)
    requires Around(c, fs0, fs, s, e, s', clean)
    ensures StocksKept(c, fs0, Effect(c.env, e, fs), s', clean && CleanCall(e))
  {
    hide Sibling, MadeBackup, MadeTemp, StockInv, FileInv, Effect, Enabled, StockUnmoved, StocksKept;
    if s.pc.BackingUp? { StocksBackingUp(c, fs0, fs, s, e, s', clean); }
    else if s.pc.Listing? { StocksListing(c, fs0, fs, s, e, s', clean); }
    else if s.pc.Pruning? { StocksPruning(c, fs0, fs, s, e, s', clean); }
    else if s.pc.DroppingBackups? { StocksDropping(c, fs0, fs, s, e, s', clean); }
    else {
      if s.pc.Restoring? { StockUnmovedRestoring(c, s, e, s'); }
      else if s.pc.StagingFile? { StockUnmovedStaging(c, s, e, s'); }
      else if s.pc.DroppingTemps? || s.pc.Validating? || s.pc.Renaming? || s.pc.Reloading? || s.pc.ReloadingOld? {
        StockUnmovedLate(c, s, e, s');
      } else { StockUnmovedEarly(c, s, e, s'); }
      StocksUnmoved(c, fs0, fs, s, e, s', clean);
    }
  }

  ghost function IsClean(es: seq<Event>): bool {
    if es == [] then true else IsClean(es[..|es| - 1]) && CleanCall(es[|es| - 1])
  }

  lemma {:induction false} StocksReached(c: Ctx, fs0: Fs, es: seq<Event>, s: St, fs: Fs)
    requires Reaches(c, fs0, es, s, fs)
    ensures StocksKept(c, fs0, fs, s, IsClean(es))
  {
    hide Sibling, MadeBackup, MadeTemp, Step, Effect, Enabled, StockInv, Inv, CleanCall;
    if es == [] {
      StocksStart(c, fs0);
    } else {
      var n := |es| - 1;
      var s1, fs1 := Run(c, es[..n]).value, Replay(c.env, fs0, es[..n]).value;
      StocksReached(c, fs0, es[..n], s1, fs1);
      InvReached(c, fs0, es[..n], s1, fs1);
      InvReached(c, fs0, es, s, fs);
      StocksStep(c, fs0, fs1, s1, es[n], s, IsClean(es[..n]));
    }
  }

  lemma StocksStart(c: Ctx, fs0: Fs)
    ensures StocksKept(c, fs0, fs0, Start(), true)
  {
    hide Sibling, MadeBackup, MadeTemp;
  }

  /** Our backup of `d` sorts after every backup that was there before. */
  ghost predicate NewestBackup(fs0: Fs, d: Path, b: Path) {
    forall x | x in Backups(fs0, d) && x != b :: Less(x, b)
  }

  /** A clock that has moved on since the earlier backups makes ours the newest by name. */
  lemma ClockMakesNewest(fs0: Fs, d: Path, t: Nanos)
    requires forall x | x in Backups(fs0, d) :: exists u: Nanos :: u < t && x == BackupPath(d, u)
    ensures NewestBackup(fs0, d, BackupPath(d, t))
  {
    hide Sibling, MadeBackup, MadeTemp, BackupPath;
    forall x | x in Backups(fs0, d) && x != BackupPath(d, t) ensures Less(x, BackupPath(d, t)) {
      var u: Nanos :| u < t && x == BackupPath(d, u);
      NamesFollowTime(d, u, t);
    }
  }

  /** Of the earlier backups of `d` and the new one, what a successful deployment leaves. */
  ghost predicate Window(c: Ctx, fs0: Fs, fs: Fs, d: Path, own: Option<Path>, clean: bool) {
    var all := All(fs0, d, own);
    && (c.Keep() <= 0 ==> Backups(fs, d) == all)
    && (c.Keep() > 0 ==> Kept(all, c.Keep()) <= Backups(fs, d) <= all)
    && (c.Keep() > 0 && clean ==> Backups(fs, d) == Kept(all, c.Keep()))
    && Intact(fs0, fs, d, own, true)
  }

  /** Retention: a successful deployment leaves, of the earlier backups and its own, at least the
      newest `keep`, and exactly those when no scan and no removal failed (the default of 3 for 0;
      a negative window keeps everything). What is left is unchanged. */
  lemma {:induction false} RetentionWindow(c: Ctx, fs0: Fs, es: seq<Event>, s: St, fs: Fs, j: nat)
    requires Reaches(c, fs0, es, s, fs) && j < c.N() && Alone(c.targets, j)
    requires s.pc.Done? && s.pc.out.error.None? && s.pc.out != Skipped()
    ensures j < |s.preps| && Window(c, fs0, fs, c.targets[j], s.preps[j].backup, IsClean(es))
  {
    hide Sibling, MadeBackup, MadeTemp, Shape, Step, Kept, Intact, Alone, Clear, Spared;
    StocksReached(c, fs0, es, s, fs);
    assert StockInv(c, fs0, fs, s, IsClean(es), j);
    AloneIsClear(c, j);
    Claims(c, fs0, es, s, fs, j);
  }

  /** How many are left of `all`: three for a retention of 0, all for a negative one. What is gone is
      older than what is left. */
  ghost predicate SizedWindow(retention: int, all: set<Path>, left: set<Path>) {
    var keep := if retention == 0 then 3 else retention;
    && left <= all && |left| == (if 0 < keep < |all| then keep else |all|)
    && forall x, y | x in left && y in all - left :: Less(y, x)
  }

  lemma WindowIsSized(c: Ctx, fs0: Fs, fs: Fs, d: Path, own: Option<Path>)
    requires Window(c, fs0, fs, d, own, true)
    ensures SizedWindow(c.plan.retention, All(fs0, d, own), Backups(fs, d))
  {
    hide Kept, Intact, Less, Backups;
    if c.Keep() > 0 { KeptAreTheNewest(All(fs0, d, own), c.Keep()); }
  }

  /** The size of the window after a success in which no scan and no removal failed. */
  lemma {:induction false} RetentionSize(c: Ctx, fs0: Fs, es: seq<Event>, s: St, fs: Fs, j: nat)
    requires Reaches(c, fs0, es, s, fs) && j < c.N() && Alone(c.targets, j) && IsClean(es)
    requires s.pc.Done? && s.pc.out.error.None? && s.pc.out != Skipped()
    ensures j < |s.preps|
    ensures SizedWindow(c.plan.retention, All(fs0, c.targets[j], s.preps[j].backup), Backups(fs, c.targets[j]))
  {
    hide Run, Replay, Alone, IsClean, Window, SizedWindow;
    RetentionWindow(c, fs0, es, s, fs, j);
    WindowIsSized(c, fs0, fs, c.targets[j], s.preps[j].backup);
  }

  /** At every point of every run, pruning included, an overwritten original exists in full in a
      backup, as long as the clock makes the new backup the newest. */
  lemma OriginalsSurvivePruning(c: Ctx, fs0: Fs, es: seq<Event>, s: St, fs: Fs, j: nat)
    requires Reaches(c, fs0, es, s, fs) && j < c.N() && Alone(c.targets, j)
    requires HonestStats(fs0, es) && c.plan.retention != NO_BACKUPS
    requires j < |s.preps| && s.preps[j].backup.Some? ==> NewestBackup(fs0, c.targets[j], s.preps[j].backup.value)
    requires c.targets[j] in fs0 && !Same(fs0, fs, c.targets[j])
    ensures Recoverable(fs0, fs, c.targets[j])
  {
    hide Sibling, MadeBackup, MadeTemp, Shape, Step, Resolve, Placed, Less, Alone, Clear, Spared;
    AloneIsClear(c, j);
    CrashConsistency(c, fs0, es, s, fs, j);
    if PruningBegan(s.pc) {
      StocksReached(c, fs0, es, s, fs);
      assert StockInv(c, fs0, fs, s, IsClean(es), j);
      Claims(c, fs0, es, s, fs, j);
      var d, own := c.targets[j], s.preps[j].backup;
      if c.Keep() > 0 {
        NewestIsKept(All(fs0, d, own), c.Keep(), own.value);
      }
      assert own.value in Backups(fs, d);
    }
  }
}
