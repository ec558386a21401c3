/** Why concurrent callers need separated names: an Apply that prunes, and an AtomicWriteFile of a
    file that this Apply takes for a backup. */
module Races {
  import opened Text
  import opened Paths
  import opened Data
  import opened Os
  import opened Ownership
  import opened FileOps
  import opened ApplyProtocol
  import opened ApplySafety
  import opened ApplyOutcomes
  import opened Retention
  import opened WriteProtocol
  import opened Calls
  import opened Serializability
  import opened Runs
  import opened WriteRuns
  import opened Lookalikes

  // ----- interleavings put together -----

  function Tag(p: nat, es: seq<Event>): seq<Tagged> {
    if es == [] then [] else Tag(p, es[..|es| - 1]) + [Tagged(p, es[|es| - 1])]
  }

  lemma {:induction false} CallRunPrefix(call: Call, es: seq<Event>, e: Event)
    requires CallValid(call) && CallRun(call, es + [e]).Some?
    ensures CallRun(call, es).Some?
  {
    hide CallStep;
    assert (es + [e])[..|es|] == es;
  }

  lemma {:induction false} OneMore(calls: seq<Call>, g: seq<Tagged>, p: nat, e: Event)
    requires AllValid(calls) && Interleaving(calls, g) && p < |calls| && CallRun(calls[p], Proj(g, p) + [e]).Some?
    requires Possible(e) && (e.Lock? ==> LockFree(calls, g, p, e.lock))
    ensures Interleaving(calls, g + [Tagged(p, e)]) && Events(g + [Tagged(p, e)]) == Events(g) + [e]
    ensures forall q :: Proj(g + [Tagged(p, e)], q) == if q == p then Proj(g, p) + [e] else Proj(g, q)
  {
    hide CallRun, Possible, LockFree;
    assert (g + [Tagged(p, e)])[..|g|] == g;
  }

  /** Once its locks are free, a call can go on for as long as it has to. */
  lemma {:induction false} GoesOn(calls: seq<Call>, g: seq<Tagged>, p: nat, es: seq<Event>)
    requires AllValid(calls) && Interleaving(calls, g) && p < |calls| && CallRun(calls[p], Proj(g, p) + es).Some?
    requires forall e | e in es :: Possible(e) && (e.Lock? ==> LockFree(calls, g, p, e.lock))
    ensures Interleaving(calls, g + Tag(p, es)) && Events(g + Tag(p, es)) == Events(g) + es
    ensures forall q :: Proj(g + Tag(p, es), q) == if q == p then Proj(g, p) + es else Proj(g, q)
    decreases |es|
  {
    hide CallRun, Possible, Interleaving, Events, Proj;
    if es == [] {
      assert g + Tag(p, es) == g && Proj(g, p) + es == Proj(g, p) && Events(g) + es == Events(g);
    } else {
      var n := |es| - 1;
      var init, e := es[..n], es[n];
      assert es == init + [e];
      assert Proj(g, p) + es == (Proj(g, p) + init) + [e];
      assert Events(g) + es == (Events(g) + init) + [e];
      CallRunPrefix(calls[p], Proj(g, p) + init, e);
      GoesOn(calls, g, p, init);
      var h := g + Tag(p, init);
      assert g + Tag(p, es) == h + [Tagged(p, e)];
      if e.Lock? { assert LockFree(calls, g, p, e.lock); }
      OneMore(calls, h, p, e);
    }
  }

  lemma {:induction false} ReplayPossible(env: Env, fs: Fs, es: seq<Event>)
    requires Replay(env, fs, es).Some?
    ensures forall e | e in es :: Possible(e)
  {
    hide Enabled, Effect;
    if es != [] {
      ReplayPossible(env, fs, es[..|es| - 1]);
      assert es == es[..|es| - 1] + [es[|es| - 1]];
    }
  }

  lemma {:induction false} LocksOwnTargets(call: Call, es: seq<Event>)
    requires CallValid(call) && CallRun(call, es).Some? && forall e | e in es :: Possible(e)
    ensures forall e | e in es && e.Lock? :: exists t | t in call.c.targets :: e.lock == FileLock(t)
  {
    hide CallStep, CallShape, Possible, WorksWithin, Calls.Locks, History;
    if es != [] {
      var n := |es| - 1;
      assert es == es[..n] + [es[n]];
      LocksOwnTargets(call, es[..n]);
      var st := CallRun(call, es[..n]).value;
      CallHistory(call, es[..n], st);
      CallProtocol(call, st, es[n], CallRun(call, es).value);
      LocksAscend(call);
      if PhaseOf(st) == Works { var t :| WorksWithin(call, es[n], t); WorkIsNoLock(call, es[n], t); }
    }
  }

  lemma WorkIsNoLock(call: Call, e: Event, t: Path)
    requires WorksWithin(call, e, t)
    ensures !e.Lock?
  {
  }

  // ----- the two calls -----

  /** An Apply of one new file that prunes, and an AtomicWriteFile of a file it takes for a backup. */
  ghost predicate Clashing(c: Ctx, w: Ctx) {
    && c.Valid() && c.N() == 1 && NamesResolve(c) && c.Keep() > 0
    && OneFile(w) && NamesResolve(w) && w.env == c.env
    && IsBackupOf(c.targets[0], w.targets[0])
  }

  /** The file to be written, and as many younger names as pruning keeps. */
  ghost function Crowd(c: Ctx, w: Ctx): Fs
    requires Clashing(c, w)
  {
    var names := Younger(w.targets[0], 0, Room(c)) + {w.targets[0]};
    map x | x in names :: Node(w.plan.files[0].bytes + [0], Meta(0, 0, 0))
  }

  lemma {:induction false} YoungMatch(p: Path, q: Path, k: nat)
    requires IsBackupOf(p, q)
    ensures forall x | x in Younger(q, 0, k) :: IsBackupOf(p, x) && Less(q, x) && x[|x| - 1] == 'z' && |x| > |q|
  {
    hide Sibling, Less, Younger;
    YoungerNames(q, 0, k);
    forall x | x in Younger(q, 0, k) ensures IsBackupOf(p, x) && Less(q, x) && |x| > |q| && x[|x| - 1] == 'z' {
      var m :| 0 < m <= k && x == q + Zs(m);
      YoungerIsNewer(p, q, m);
    }
  }

  lemma CrowdKeys(c: Ctx, w: Ctx)
    requires Clashing(c, w)
    ensures Crowd(c, w).Keys == Younger(w.targets[0], 0, c.Keep()) + {w.targets[0]}
  {
    hide Sibling, Targets, SameDigest, NamesResolve, Younger;
  }

  /** Nothing in the way of the two calls. */
  lemma CrowdIsClear(c: Ctx, w: Ctx)
    requires Clashing(c, w)
    ensures var p, q, fs0 := c.targets[0], w.targets[0], Crowd(c, w);
      && p !in fs0 && q in fs0 && p != q && TempPath(p, 0) !in fs0 && TempPath(q, 0) !in fs0
      && TempPath(q, 0) != p
  {
    hide Sibling, TempPath, Targets, NamesResolve, Crowd, Younger, Less;
    var p, q := c.targets[0], w.targets[0];
    CrowdKeys(c, w);
    YoungMatch(p, q, c.Keep());
    EndsInDigit(p, 0);
    EndsInDigit(q, 0);
    LongerThanStem(p, q);
    KindsAreDisjoint(p, q);
    DerivedPathsAreMine(p, 0);
    DerivedPathsAreMine(q, 0);
    KindsAreDisjoint(q, q);
  }

  lemma CrowdDiffers(c: Ctx, w: Ctx, fs: Fs)
    requires Clashing(c, w) && w.targets[0] in fs && fs[w.targets[0]] == Crowd(c, w)[w.targets[0]]
    ensures !IsMatch(w, fs, w.targets[0], w.plan.files[0])
  {
    hide Sibling, Targets, NamesResolve, Younger;
  }

  /** All of it matches the backup prefix, and one name too many. */
  lemma CrowdIsListed(c: Ctx, w: Ctx)
    requires Clashing(c, w)
    ensures var p, q, fs0 := c.targets[0], w.targets[0], Crowd(c, w);
      && Backups(fs0, p) == fs0.Keys && |fs0.Keys| == c.Keep() + 1 && q !in Kept(Backups(fs0, p), c.Keep())
  {
    hide Sibling, Targets, NamesResolve, Crowd, Younger, Less;
    var p, q, fs0 := c.targets[0], w.targets[0], Crowd(c, w);
    var young := Younger(q, 0, c.Keep());
    CrowdKeys(c, w);
    YoungMatch(p, q, c.Keep());
    YoungerNames(q, 0, c.Keep());
    LessIrreflexive(q);
    SubsetSize(young, Newer(Backups(fs0, p), q));
  }

  lemma LongerThanStem(p: Path, q: Path)
    requires IsBackupOf(p, q)
    ensures |q| > |p| && |TempPath(q, 0)| > |p|
  {
  }

  /** Apply has renamed its file, scanned, and is about to remove the other call's file. */
  lemma {:induction false} ReadyToPrune(c: Ctx, w: Ctx) returns (es: seq<Event>, ps: seq<Prep>, fs: Fs)
    requires Clashing(c, w)
    ensures var p, q, fs0 := c.targets[0], w.targets[0], Crowd(c, w);
      && Reaches(c, fs0, es, St(Pruning(0, [q]), ps), fs) && fs.Keys == fs0.Keys + {p} && fs[q] == fs0[q]
  {
    hide Targets, Resolve, TempPath, SameDigest, Granted, StartCommit, Sibling, Doomed, Kept, Backups, NamesResolve,
      Reaches, Step, Crowd;
    var p, q, fs0 := c.targets[0], w.targets[0], Crowd(c, w);
    var odd := {Stat(p, None), ReadFile(p, None)};
    CrowdIsClear(c, w);
    Resolves(c, 0, None);
    es := Begins(c, fs0, [None], odd);
    ps := Preps(c, fs0, [None], 1);
    es := BackupsEnd(c, fs0, es, ps, fs0, 0, odd);
    es, fs := Stages(c, fs0, es, ps, fs0, 0, 0, true, odd);
    ps := ps[0 := ps[0].(temp := Some(TempPath(p, 0)))];
    es := Validates(c, fs0, es, ps, fs, odd);
    es, fs := Renames(c, fs0, es, ps, fs, 0, odd);
    if c.plan.hasPost { es, fs := ReloadsOne(c, fs0, es, ps, fs, odd); }
    es, fs := ScansFor(c, w, es, ps, fs, odd);
  }

  lemma ReloadsOne(c: Ctx, fs0: Fs, es0: seq<Event>, ps: seq<Prep>, fs1: Fs, odd: set<Event>)
      returns (es: seq<Event>, fs: Fs)
    requires c.Valid() && c.Keep() > 0 && Gets(c, fs0, es0, St(Reloading, ps), fs1, odd)
    ensures Gets(c, fs0, es, St(Listing(0), ps), fs, odd) && fs == fs1
  {
    hide Gets, Targets, CopyStep, StageStep, StepRestoring, BackupMap;
    es, fs := Then(c, fs0, es0, St(Reloading, ps), fs1, odd, PostCommit(true), St(Listing(0), ps));
  }

  lemma {:induction false} ScansFor(c: Ctx, w: Ctx, es0: seq<Event>, ps: seq<Prep>, fs1: Fs, odd: set<Event>)
      returns (es: seq<Event>, fs: Fs)
    requires Clashing(c, w) && Gets(c, Crowd(c, w), es0, St(Listing(0), ps), fs1, odd)
    requires fs1.Keys == Crowd(c, w).Keys + {c.targets[0]}
    ensures Gets(c, Crowd(c, w), es, St(Pruning(0, [w.targets[0]]), ps), fs, odd) && fs == fs1
  {
    hide Targets, Sibling, Kept, Gets, Step, NamesResolve, Sort, Crowd;
    var p, q, fs0 := c.targets[0], w.targets[0], Crowd(c, w);
    CrowdIsListed(c, w);
    CrowdIsClear(c, w);
    KindsAreDisjoint(p, p);
    var all := Backups(fs1, p);
    assert all == Backups(fs0, p);
    var names := Enumerate(all);
    ElementsSize(names);
    assert Elements(names) == all;
    var todo := Doomed(names, c.Keep());
    DoomedIsTheRest(names, all, c.Keep());
    assert q in Elements(todo);
    assert todo == [q];
    PruneSteps(c, ps, 0, todo, names);
    es, fs := Then(c, fs0, es0, St(Listing(0), ps), fs1, odd, ListBackups(p, Some(names)), St(Pruning(0, [q]), ps));
  }

  /** AtomicWriteFile has found its file, staged and backed up, and is about to rename. */
  lemma {:induction false} ReadyToSwap(w: Ctx, fs0: Fs) returns (es: seq<Event>, s: WriteSt, fs: Fs)
    requires OneFile(w) && NamesResolve(w) && w.targets[0] in fs0 && TempPath(w.targets[0], 0) !in fs0
    requires !IsMatch(w, fs0, w.targets[0], w.plan.files[0])
    ensures WriteReaches(w, fs0, es, s, fs) && s.pc.SwappingIn? && s.prep.Some? && s.prep.value.hadOrig
    ensures s.prep.value.temp == Some(TempPath(w.targets[0], 0)) && TempPath(w.targets[0], 0) in fs
    ensures w.targets[0] in fs
  {
    hide Targets, Resolve, TempPath, BackupPath, WriteReaches, SameDigest, Granted, NamesResolve;
    var q, t := w.targets[0], TempPath(w.targets[0], 0);
    Resolves(w, 0, Truth(fs0, q));
    var p := PrepFor(w, 0, Truth(fs0, q)).value;
    TempIsNoBackup(q, 0, 0);
    es := WriteBegins(w, fs0, {});
    es, fs := WriteStages(w, fs0, es, p, 0, true, {});
    p := p.(temp := Some(t));
    if Backed(w, p) {
      var fs1 := fs;
      es, fs := WriteCopies(w, fs0, es, p, fs, 0, {});
      assert Same(fs1, fs, t) && Same(fs1, fs, q);
      p := p.(backup := Some(BackupPath(q, 0)));
    }
    s := WriteSt(SwappingIn, Some(p));
  }

  lemma {:induction false} RemovesNext(c: Ctx, fs0: Fs, es: seq<Event>, ps: seq<Prep>, fs: Fs, q: Path)
    requires Reaches(c, fs0, es, St(Pruning(0, [q]), ps), fs)
    ensures CallRun(ApplyCall(c), es).Some? && CallRun(ApplyCall(c), es + [Remove(q, Removed)]).Some?
  {
    hide Replay, Targets, CallStep, Run, Report;
    RunSnoc(c, es, Remove(q, Removed));
    CallRunIsRun(c, es);
    CallRunIsRun(c, es + [Remove(q, Removed)]);
  }

  lemma {:induction false} SwapsNext(w: Ctx, fs0: Fs, es: seq<Event>, s: WriteSt, fs: Fs, t: Path)
    requires WriteReaches(w, fs0, es, s, fs) && s.pc.SwappingIn? && s.prep.Some? && s.prep.value.temp == Some(t)
    ensures var e := Rename(t, w.targets[0], true);
      && CallRun(WriteCall(w), es).Some? && CallRun(WriteCall(w), es + [e]).Some?
      && WriteRun(w, es + [e]).Some? && WriteRun(w, es + [e]).value.prep == s.prep
  {
    hide Replay, Targets, CallStep, WriteRun;
    WriteRunSnoc(w, es, Rename(t, w.targets[0], true));
    CallRunIsWriteRun(w, es);
    CallRunIsWriteRun(w, es + [Rename(t, w.targets[0], true)]);
  }

  /** Two calls on different destinations never wait for each other. */
  lemma {:induction false} LocksDiffer(c: Ctx, w: Ctx, es: seq<Event>, fs: seq<Event>)
    requires Clashing(c, w) && CallRun(ApplyCall(c), es).Some? && CallRun(WriteCall(w), fs).Some?
    requires (forall e | e in es :: Possible(e)) && (forall e | e in fs :: Possible(e))
    ensures forall l :: !(Lock(l) in es && Lock(l) in fs)
  {
    hide Sibling, CallRun, Possible, NamesResolve, Targets;
    LocksOwnTargets(ApplyCall(c), es);
    LocksOwnTargets(WriteCall(w), fs);
    LongerThanStem(c.targets[0], w.targets[0]);
  }

  /** The calls of Apply up to a point, then those of AtomicWriteFile up to a point. */
  lemma {:induction false} OneThenOther(c: Ctx, w: Ctx, a: seq<Event>, b: seq<Event>) returns (g: seq<Tagged>)
    requires Clashing(c, w) && CallRun(ApplyCall(c), a).Some? && CallRun(WriteCall(w), b).Some?
    requires (forall e | e in a :: Possible(e)) && (forall e | e in b :: Possible(e))
    ensures AllValid([ApplyCall(c), WriteCall(w)]) && Interleaving([ApplyCall(c), WriteCall(w)], g)
    ensures Events(g) == a + b
    ensures Proj(g, 0) == a && Proj(g, 1) == b && forall p | p > 1 :: Proj(g, p) == []
  {
    hide Sibling, Targets, NamesResolve, CallRun, Possible, Tag;
    var calls := [ApplyCall(c), WriteCall(w)];
    LocksDiffer(c, w, a, b);
    assert [] + a == a && [] + b == b;
    GoesOn(calls, [], 0, a);
    g := [] + Tag(0, a);
    hide Interleaving, Events, Proj;
    forall e | e in b && e.Lock? ensures LockFree(calls, g, 1, e.lock) { assert e == Lock(e.lock); }
    GoesOn(calls, g, 1, b);
    g := g + Tag(1, b);
  }

  lemma {:induction false} Interleaved(c: Ctx, w: Ctx, fs0: Fs, a: seq<Event>, fs1: Fs, b: seq<Event>, fs2: Fs, t: Path)
      returns (g: seq<Tagged>, fs: Fs)
    requires Clashing(c, w) && Replay(c.env, fs0, a) == Some(fs1) && Replay(c.env, fs1, b) == Some(fs2)
    requires w.targets[0] in fs2 && t in fs2 && t != w.targets[0]
    requires CallRun(ApplyCall(c), a).Some? && CallRun(ApplyCall(c), a + [Remove(w.targets[0], Removed)]).Some?
    requires CallRun(WriteCall(w), b).Some? && CallRun(WriteCall(w), b + [Rename(t, w.targets[0], true)]).Some?
    ensures var calls, q := [ApplyCall(c), WriteCall(w)], w.targets[0];
      && AllValid(calls) && Interleaving(calls, g) && Replay(c.env, fs0, Events(g)) == Some(fs) && q in fs
      && Proj(g, 0) == a + [Remove(q, Removed)] && Proj(g, 1) == b + [Rename(t, q, true)]
      && forall p | p > 1 :: Proj(g, p) == []
  {
    hide Sibling, Targets, NamesResolve, CallRun, Possible, Replay, Interleaving, Events, Proj, Enabled, Effect;
    var calls, q := [ApplyCall(c), WriteCall(w)], w.targets[0];
    var rm, mv := Remove(q, Removed), Rename(t, q, true);
    ReplayPossible(c.env, fs0, a);
    ReplayPossible(c.env, fs1, b);
    g := OneThenOther(c, w, a, b);
    fs := SwapAfterRemoval(c.env, fs2, t, q);
    OneMore(calls, g, 0, rm);
    g := g + [Tagged(0, rm)];
    OneMore(calls, g, 1, mv);
    g := g + [Tagged(1, mv)];
    ReplayConcat(c.env, fs0, a, b);
    ReplaySnoc(c.env, fs0, a + b, rm);
    ReplaySnoc(c.env, fs0, (a + b) + [rm], mv);
  }

  lemma SwapAfterRemoval(env: Env, fs: Fs, t: Path, q: Path) returns (fs': Fs)
    requires q in fs && t in fs && t != q
    ensures var rm, mv := Remove(q, Removed), Rename(t, q, true);
      && Enabled(rm, fs) && Enabled(mv, Effect(env, rm, fs)) && fs' == Effect(env, mv, Effect(env, rm, fs))
      && q in fs' && Possible(rm) && Possible(mv)
  {
    var rm, mv := Remove(q, Removed), Rename(t, q, true);
    fs' := Effect(env, mv, Effect(env, rm, fs));
    assert Enabled(rm, fs) && Enabled(mv, fs);
  }

  /** Apply is about to remove the file when AtomicWriteFile finds it, and removes it before
      AtomicWriteFile renames the new one into place. */
  lemma {:induction false} Raced(c: Ctx, w: Ctx) returns (a: seq<Event>, b: seq<Event>, g: seq<Tagged>, fs: Fs)
    requires Clashing(c, w)
    ensures var calls, q := [ApplyCall(c), WriteCall(w)], w.targets[0];
      && AllValid(calls) && Interleaving(calls, g) && Replay(c.env, Crowd(c, w), Events(g)) == Some(fs) && q in fs
      && Proj(g, 0) == a + [Remove(q, Removed)] && Proj(g, 1) == b != [] && (forall p | p > 1 :: Proj(g, p) == [])
      && WriteRun(w, b).Some? && WriteRun(w, b).value.prep.Some? && WriteRun(w, b).value.prep.value.hadOrig
  {
    hide Sibling, Targets, NamesResolve, Crowd, TempPath, CallRun, Possible, Run, WriteRun, Step, WriteStep, SameDigest;
    var q, t, fs0 := w.targets[0], TempPath(w.targets[0], 0), Crowd(c, w);
    var ps, fs1, s, fs2;
    CrowdIsClear(c, w);
    TempIsNoBackup(q, 0, 0);
    a, ps, fs1 := ReadyToPrune(c, w);
    CrowdDiffers(c, w, fs1);
    b, s, fs2 := ReadyToSwap(w, fs1);
    RemovesNext(c, fs0, a, ps, fs1, q);
    SwapsNext(w, fs1, b, s, fs2, t);
    g, fs := Interleaved(c, w, fs0, a, fs1, b, fs2, t);
    b := b + [Rename(t, q, true)];
  }

  lemma TwoOrders(order: seq<nat>)
    requires Distinct(order) && forall p :: p in order <==> p == 0 || p == 1
    ensures order == [0, 1] || order == [1, 0]
  {
    assert 0 in order && 1 in order;
    var i :| 0 <= i < |order| && order[i] == 0;
    var j :| 0 <= j < |order| && order[j] == 1;
    ElementsSize(order);
    assert Elements(order) == {0, 1};
  }

  /** After Apply, AtomicWriteFile would not have found the file; after AtomicWriteFile, Apply would
      have removed the new one. */
  lemma {:induction false} NeitherOrder(c: Ctx, w: Ctx, a: seq<Event>, b: seq<Event>, g: seq<Tagged>, fs: Fs,
                                        order: seq<nat>, trees: seq<Fs>)
    requires OneFile(w) && w.env == c.env && w.targets[0] in fs
    requires Proj(g, 0) == a + [Remove(w.targets[0], Removed)] && Proj(g, 1) == b != [] && forall p | p > 1 ::
        Proj(g, p) == []
    requires WriteRun(w, b).Some? && WriteRun(w, b).value.prep.Some? && WriteRun(w, b).value.prep.value.hadOrig
    requires SerialRun(c.env, g, order, trees)
    ensures trees[|order|] != fs
  {
    hide WriteRun, Replay, Proj, WriteShape, TempStands, Targets;
    var q := w.targets[0];
    TwoOrders(order);
    if order == [0, 1] {
      assert Replay(c.env, trees[0], Proj(g, order[0])) == Some(trees[1]);
      assert Replay(c.env, trees[1], Proj(g, order[1])) == Some(trees[2]);
      ReplaySnoc(c.env, trees[0], a, Remove(q, Removed));
      WriteInvReached(w, trees[1], b, WriteRun(w, b).value, trees[2]);
      assert false;
    } else {
      assert Replay(c.env, trees[1], Proj(g, order[1])) == Some(trees[2]);
      ReplaySnoc(c.env, trees[1], a, Remove(q, Removed));
    }
  }

  /** Separation is needed: whenever the backup prefix of an Apply that prunes matches the destination
      of an AtomicWriteFile, there are a tree and an interleaving without a fault that no serial
      order of the two calls explains. */
  lemma {:induction false} PruningRaces(c: Ctx, w: Ctx) returns (fs0: Fs, g: seq<Tagged>, fs: Fs)
    requires Clashing(c, w)
    ensures var calls := [ApplyCall(c), WriteCall(w)];
      AllValid(calls) && !AllApart(calls) && Interleaving(calls, g) && Replay(c.env, fs0, Events(g)) == Some(fs)
    ensures forall order, trees | SerialRun(c.env, g, order, trees) && trees[0] == fs0 :: trees[|order|] != fs
  {
    hide Sibling, Targets, NamesResolve, Crowd, WriteRun, Interleaving, Replay, Proj;
    var a, b;
    fs0 := Crowd(c, w);
    a, b, g, fs := Raced(c, w);
    forall order: seq<nat>, trees: seq<Fs> | SerialRun(c.env, g, order, trees) && trees[0] == fs0
      ensures trees[|order|] != fs
    {
      NeitherOrder(c, w, a, b, g, fs, order, trees);
    }
    NotApart(c, w);
  }

  lemma NotApart(c: Ctx, w: Ctx)
    requires Clashing(c, w)
    ensures !AllApart([ApplyCall(c), WriteCall(w)])
  {
    hide Targets, NamesResolve;
    var calls, p, q := [ApplyCall(c), WriteCall(w)], c.targets[0], w.targets[0];
    SiblingIsDestination(p, BACKUP_SUFFIX, q);
    LongerThanStem(p, q);
    assert p in calls[0].c.targets && q in calls[1].c.targets && p != q && !Apart(p, q);
  }
}
