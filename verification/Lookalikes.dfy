/** Plans that name a file the way a deployment names its own: runs in which one destination is
    taken for the temp file or the backup of another. */
module Lookalikes {
  import opened Text
  import opened Paths
  import opened Data
  import opened Os
  import opened Ownership
  import opened FileOps
  import opened ApplyProtocol
  import opened ApplySafety
  import opened ApplyOutcomes
  import opened Retention
  import opened Runs

  function Truths(c: Ctx, fs0: Fs): seq<Option<Meta>> {
    seq(|c.targets|, i requires 0 <= i < |c.targets| => Truth(fs0, c.targets[i]))
  }

  /** What is answered about the destinations that are not there. */
  function Absences(c: Ctx, fs0: Fs): set<Event> {
    (set i | 0 <= i < |c.targets| && c.targets[i] !in fs0 :: Stat(c.targets[i], None))
    + (set i | 0 <= i < |c.targets| && c.targets[i] !in fs0 :: ReadFile(c.targets[i], None))
  }

  /** Nothing is known of the temp files and backups yet. */
  ghost predicate Untaken(c: Ctx, fs0: Fs, ps: seq<Prep>) {
    && |ps| == |c.targets|
    && forall i | 0 <= i < |ps| :: ps[i].backup.None? && ps[i].temp.None? && ps[i].hadOrig == (c.targets[i] in fs0)
  }

  lemma Resolves(c: Ctx, i: nat, seen: Option<Meta>)
    requires c.Valid() && NamesResolve(c) && i < c.N()
    ensures PrepFor(c, i, seen).Some?
  {
    hide Resolve, Targets;
    assert c.plan.files[i] in c.plan.files;
  }

  lemma BeginsTruly(c: Ctx, fs0: Fs, odd: set<Event>) returns (es: seq<Event>, ps: seq<Prep>)
    requires c.Valid() && NamesResolve(c) && Absences(c, fs0) <= odd && !IsMatch(c, fs0, c.targets[0], c.plan.files[0])
    ensures Gets(c, fs0, es, St(BackupHead(0), ps), fs0, odd) && Untaken(c, fs0, ps)
  {
    hide Gets, Targets, Resolve, SameDigest, PrepFor, NamesResolve;
    var seen := Truths(c, fs0);
    forall i | 0 <= i < c.N() ensures Answers(c, fs0, i, seen[i]) { Resolves(c, i, seen[i]); }
    forall i | 0 <= i < c.N() && c.targets[i] !in fs0
      ensures Stat(c.targets[i], None) in odd && ReadFile(c.targets[i], None) in odd
    {
      assert Stat(c.targets[i], None) in Absences(c, fs0) && ReadFile(c.targets[i], None) in Absences(c, fs0);
    }
    es := Begins(c, fs0, seen, odd);
    ps := Preps(c, fs0, seen, c.N());
    forall i | 0 <= i < c.N() ensures ps[i].backup.None? && ps[i].temp.None? && ps[i].hadOrig == (c.targets[i] in fs0) {
      PrepIsNew(c, i, seen[i]);
    }
  }

  lemma PrepIsNew(c: Ctx, i: nat, seen: Option<Meta>)
    requires i < |c.plan.files| && PrepFor(c, i, seen).Some?
    ensures var p := PrepFor(c, i, seen).value; p.backup.None? && p.temp.None? && p.hadOrig == seen.Some?
  {
  }

  /** A tree in which neither a destination exists nor a temp file with the stamp `at`. */
  ghost predicate Vacant(c: Ctx, fs0: Fs, at: Nanos) {
    forall i | 0 <= i < |c.targets| :: c.targets[i] !in fs0 && TempPath(c.targets[i], at) !in fs0
  }

  /** The first `n` files are staged with the stamp `at`, where no destination exists yet. */
  lemma StagesFirst(c: Ctx, fs0: Fs, n: nat, at: Nanos, odd: set<Event>) returns (es: seq<Event>, ps: seq<Prep>, fs: Fs)
    requires c.Valid() && NamesResolve(c) && Vacant(c, fs0, at) && n < c.N() && Absences(c, fs0) <= odd
    ensures |ps| == c.N() && (forall k | 0 <= k < c.N() :: ps[k].temp.None?)
    ensures Gets(c, fs0, es, St(StagingFile(n, Opening), WithTemps(c, ps, at, n)), fs, odd)
    ensures TempsAdded(c, fs0, fs, 0, n, at) && TempPath(c.targets[n], at) !in fs
  {
    hide Gets, Targets, TempPath, Absences, WithTemps;
    es, ps := BeginsTruly(c, fs0, odd);
    es := BackupsEnd(c, fs0, es, ps, fs0, 0, odd);
    WithNoTemps(c, ps, at);
    es, fs := StagesMany(c, fs0, es, ps, fs0, 0, n, at, odd);
    forall k | 0 <= k < n
      ensures TempPath(c.targets[k], at) != TempPath(c.targets[n], at)
    {
      TempsDiffer(c, k, n, at, at);
    }
  }

  lemma {:induction false} WithNoTemps(c: Ctx, ps: seq<Prep>, at: Nanos)
    requires |ps| == |c.targets|
    ensures WithTemps(c, ps, at, 0) == ps
  {
  }

  lemma {:induction false} LastOwned(c: Ctx, ps: seq<Prep>, at: Nanos)
    requires |ps| == |c.targets| > 0
    ensures var n := c.N() - 1;
      && Owned(c, WithTemps(c, ps, at, n), n, TempPath(c.targets[n], at))
        == St(StartCommit(c), WithTemps(c, ps, at, c.N()))
      && AllTemps(c, WithTemps(c, ps, at, c.N()), at)
  {
    hide TempPath, StartCommit;
    WithOneMore(c, ps, at, c.N() - 1);
  }

  lemma AddsOne(c: Ctx, fs0: Fs, fs1: Fs, n: nat, at: Nanos, node: Node)
    requires n < |c.targets| && TempsAdded(c, fs0, fs1, 0, n, at)
    ensures TempsAdded(c, fs0, fs1[TempPath(c.targets[n], at) := node], 0, n + 1, at)
  {
    hide TempPath;
  }

  lemma StagesLast(c: Ctx, fs0: Fs, at: Nanos) returns (es: seq<Event>, ps: seq<Prep>, fs: Fs)
    requires c.Valid() && NamesResolve(c) && Vacant(c, fs0, at)
    ensures Gets(c, fs0, es, St(StartCommit(c), ps), fs, Absences(c, fs0)) && AllTemps(c, ps, at)
    ensures TempsAdded(c, fs0, fs, 0, c.N(), at)
  {
    hide Gets, Targets, TempPath, Absences, StartCommit, Owned, AllTemps, TempsAdded, NamesResolve, Vacant, Staged;
    var odd, n := Absences(c, fs0), c.N() - 1;
    es, ps, fs := StagesFirst(c, fs0, n, at, odd);
    var fs1 := fs;
    es, fs := Stages(c, fs0, es, WithTemps(c, ps, at, n), fs1, n, at, true, odd);
    AddsOne(c, fs0, fs1, n, at, fs[TempPath(c.targets[n], at)]);
    LastOwned(c, ps, at);
    ps := WithTemps(c, ps, at, c.N());
  }

  /** Every file is staged and renamed; each temp name is gone unless a later destination has it. */
  lemma CommitsAll(c: Ctx, fs0: Fs, at: Nanos) returns (es: seq<Event>, ps: seq<Prep>, fs: Fs)
    requires c.Valid() && NamesResolve(c) && Vacant(c, fs0, at)
    ensures Gets(c, fs0, es, AfterRename(c, ps, c.N() - 1), fs, Absences(c, fs0))
    ensures forall x | x in fs :: x in fs0 || x in c.targets
    ensures forall x | x in fs0 :: x in fs
    ensures forall i | 0 <= i < c.N() && TempPath(c.targets[i], at) in fs ::
              exists m | i <= m < c.N() :: TempPath(c.targets[i], at) == c.targets[m]
  {
    hide Gets, Targets, TempPath, Absences, StartCommit, AfterRename;
    var odd, fs1 := Absences(c, fs0), fs0;
    es, ps, fs1 := StagesLast(c, fs0, at);
    es := Validates(c, fs0, es, ps, fs1, odd);
    es, fs := RenamesMany(c, fs0, es, ps, fs1, 0, at, odd);
  }

  lemma {:induction false} PrunedSubset(c: Ctx, fs: Fs, i: nat)
    ensures forall x | x in PrunedFrom(c, fs, i) :: x in fs
    decreases |c.targets| - i
  {
    hide Backups, Kept;
    if i < |c.targets| { PrunedSubset(c, PrunedAt(fs, c.targets[i], c.Keep()), i + 1); }
  }

  lemma SettleSubset(c: Ctx, fs: Fs)
    ensures forall x | x in Settle(c, fs) :: x in fs
  {
    hide PrunedFrom;
    PrunedSubset(c, fs, 0);
  }

  /** A destination that has the name of a later destination's temp file is renamed away. No call
      fails, and nil error is returned. */
  lemma {:induction false} TempLookalikeLost(c: Ctx, i: nat, j: nat, at: Nanos)
      returns (es: seq<Event>, s: St, fs: Fs)
    requires c.Valid() && NamesResolve(c) && i < j < c.N() && c.targets[i] == TempPath(c.targets[j], at)
    ensures Reaches(c, map[], es, s, fs) && s.pc.Done? && s.pc.out.error.None? && s.pc.out != Skipped()
    ensures c.targets[i] !in fs && AllBut(es, Absences(c, map[]))
  {
    hide Reaches, Targets, TempPath, Absences, AfterRename, Settle, Granted;
    var ps, fs1, out;
    TargetsIff(c.env, c.plan.files);
    es, ps, fs1 := CommitsAll(c, map[], at);
    SettleSubset(c, fs1);
    es, out, fs := Finishes(c, map[], es, ps, fs1, Absences(c, map[]));
    s := St(Done(out), ps);
  }

  // ----- a destination that is pruned -----

  function Zs(n: nat): string {
    seq(n, _ => 'z')
  }

  /** `k` names that continue `q`, each longer than `q` by more than `n`. */
  function Younger(q: Path, n: nat, k: nat): set<Path> {
    if k == 0 then {} else Younger(q, n, k - 1) + {q + Zs(n + k)}
  }

  lemma {:induction false} YoungerNames(q: Path, n: nat, k: nat)
    ensures forall x :: x in Younger(q, n, k) <==> exists m | n < m <= n + k :: x == q + Zs(m)
    ensures |Younger(q, n, k)| == k
  {
    if k > 0 {
      YoungerNames(q, n, k - 1);
      forall m | n < m < n + k ensures q + Zs(m) != q + Zs(n + k) { assert |q + Zs(m)| != |q + Zs(n + k)|; }
    }
  }

  lemma {:induction false} PrefixIsLess(p: Path, q: Path)
    requires p < q
    ensures Less(p, q)
  {
    if p != "" { PrefixIsLess(p[1..], q[1..]); }
  }

  lemma {:induction false} YoungerIsNewer(d: Path, q: Path, m: nat)
    requires IsBackupOf(d, q) && m > 0
    ensures IsBackupOf(d, q + Zs(m)) && Less(q, q + Zs(m))
  {
    hide Sibling, Less;
    SiblingExtends(d, BACKUP_SUFFIX, q, Zs(m));
    PrefixIsLess(q, q + Zs(m));
  }

  /** The backup prefix ends with a dot, so it does not reach into the z's. */
  lemma YoungerOfOthers(d: Path, q: Path, m: nat)
    requires IsBackupOf(d, q + Zs(m))
    ensures IsBackupOf(d, q)
  {
    var x, n := q + Zs(m), |d| + 13;
    assert x[n - 1] == (d + BACKUP_SUFFIX)[n - 1] == '.';
    assert n <= |q|;
    assert q == x[..|q|];
    assert forall k | |d| <= k < |q| :: q[k] == x[|d|..][k - |d|];
  }

  function Longest(ts: seq<Path>): (n: nat)
    ensures forall x | x in ts :: |x| <= n
  {
    if ts == [] then 0
    else
      var n := Longest(ts[1..]);
      assert ts == [ts[0]] + ts[1..];
      if |ts[0]| > n then |ts[0]| else n
  }

  /** As many newer names as pruning keeps. */
  function Strangers(c: Ctx, j: nat): Fs
    requires j < |c.targets|
  {
    var names := Younger(c.targets[j], Longest(c.targets), Room(c));
    map x | x in names :: Node([], Meta(0, 0, 0))
  }

  function Room(c: Ctx): nat {
    if c.Keep() > 0 then c.Keep() else 0
  }

  lemma EndsInDigit(d: Path, at: Nanos)
    ensures TempPath(d, at) != "" && TempPath(d, at)[|TempPath(d, at)| - 1] != 'z'
  {
    hide Stamp;
    StampEndsInDigit(at);
    var x := TempPath(d, at);
    assert x[|x| - 1] == Stamp(at)[|Stamp(at)| - 1];
  }

  lemma StampEndsInDigit(at: Nanos)
    ensures |Stamp(at)| == 19 && Stamp(at)[18] != 'z'
  {
  }

  lemma StrangersAreVacant(c: Ctx, j: nat, at: Nanos)
    requires j < |c.targets|
    ensures Vacant(c, Strangers(c, j), at)
  {
    hide TempPath;
    var q, n, k := c.targets[j], Longest(c.targets), Room(c);
    YoungerNames(q, n, k);
    forall i | 0 <= i < |c.targets| ensures c.targets[i] !in Strangers(c, j)
      && TempPath(c.targets[i], at) !in Strangers(c, j) {
      assert c.targets[i] in c.targets;
      EndsInDigit(c.targets[i], at);
      forall m | n < m <= n + k ensures c.targets[i] != q + Zs(m) && TempPath(c.targets[i], at) != q + Zs(m) {
        assert (q + Zs(m))[|q| + m - 1] == 'z';
      }
    }
  }

  /** No destination before `i` matches another destination with its backup prefix. */
  ghost predicate FirstMatch(c: Ctx, i: nat, j: nat) {
    && i < |c.targets| && j < |c.targets| && i != j && IsBackupOf(c.targets[i], c.targets[j])
    && forall a, b | 0 <= a < i && 0 <= b < |c.targets| && a != b :: !IsBackupOf(c.targets[a], c.targets[b])
  }

  lemma NothingBefore(c: Ctx, fs: Fs, i: nat, j: nat, a: nat)
    requires FirstMatch(c, i, j) && a < i && forall x | x in fs :: x in Strangers(c, j) || x in c.targets
    ensures Backups(fs, c.targets[a]) == {}
  {
    hide Sibling;
    var d, q := c.targets[a], c.targets[j];
    var n, k := Longest(c.targets), Room(c);
    YoungerNames(q, n, k);
    KindsAreDisjoint(d, d);
    forall x | x in fs ensures !IsBackupOf(d, x) {
      if x in c.targets {
        var b :| 0 <= b < |c.targets| && c.targets[b] == x;
      } else {
        var m :| n < m <= n + k && x == q + Zs(m);
        if IsBackupOf(d, x) { YoungerOfOthers(d, q, m); }
      }
    }
  }

  lemma NewerEnough(c: Ctx, fs: Fs, i: nat, j: nat)
    requires FirstMatch(c, i, j) && c.Keep() > 0 && forall x | x in Strangers(c, j) :: x in fs
    ensures c.targets[j] !in Kept(Backups(fs, c.targets[i]), c.Keep())
  {
    hide Sibling, Less;
    var d, q, n := c.targets[i], c.targets[j], Longest(c.targets);
    YoungerNames(q, n, c.Keep());
    var all := Backups(fs, d);
    forall x | x in Younger(q, n, c.Keep()) ensures x in Newer(all, q) {
      var m :| n < m <= n + c.Keep() && x == q + Zs(m);
      YoungerIsNewer(d, q, m);
      assert x in Strangers(c, j);
    }
    SubsetSize(Younger(q, n, c.Keep()), Newer(all, q));
  }

  lemma {:induction false} PruningTakes(c: Ctx, fs: Fs, a: nat, i: nat, j: nat)
    requires FirstMatch(c, i, j) && c.Keep() > 0 && a <= i
    requires forall x | x in Strangers(c, j) :: x in fs
    requires forall x | x in fs :: x in Strangers(c, j) || x in c.targets
    ensures c.targets[j] !in PrunedFrom(c, fs, a)
    decreases i - a
  {
    hide Sibling, Kept, Strangers;
    var fs' := PrunedAt(fs, c.targets[a], c.Keep());
    if a < i {
      NothingBefore(c, fs, i, j, a);
      assert fs' == fs;
      PruningTakes(c, fs, a + 1, i, j);
    } else {
      NewerEnough(c, fs, i, j);
      assert c.targets[j] !in fs';
      PrunedSubset(c, fs', a + 1);
    }
  }

  lemma {:induction false} FindFirst(c: Ctx, i: nat, j: nat) returns (i': nat, j': nat)
    requires i < |c.targets| && j < |c.targets| && i != j && IsBackupOf(c.targets[i], c.targets[j])
    ensures FirstMatch(c, i', j')
    decreases i
  {
    hide Sibling;
    i', j' := i, j;
    if a, b :| 0 <= a < i && 0 <= b < |c.targets| && a != b && IsBackupOf(c.targets[a], c.targets[b]) {
      i', j' := FindFirst(c, a, b);
    }
  }

  /** A destination that the backup prefix of another one matches is pruned as soon as enough names
      come after it. No call fails, and nil error is returned. */
  lemma {:induction false} BackupLookalikeLost(c: Ctx, i: nat, j: nat)
      returns (q: nat, es: seq<Event>, s: St, fs: Fs)
    requires c.Valid() && NamesResolve(c) && c.Keep() > 0
    requires i < c.N() && j < c.N() && i != j && IsBackupOf(c.targets[i], c.targets[j])
    ensures q < c.N() && Reaches(c, Strangers(c, q), es, s, fs) && c.targets[q] !in fs
    ensures s.pc.Done? && s.pc.out.error.None? && s.pc.out != Skipped() && AllBut(es, Absences(c, Strangers(c, q)))
  {
    hide Reaches, Targets, Sibling, Absences, Strangers, AfterRename, PrunedFrom, Granted;
    var p, ps, fs1, out;
    p, q := FindFirst(c, i, j);
    var fs0 := Strangers(c, q);
    StrangersAreVacant(c, q, 0);
    es, ps, fs1 := CommitsAll(c, fs0, 0);
    PruningTakes(c, fs1, 0, p, q);
    es, out, fs := Finishes(c, fs0, es, ps, fs1, Absences(c, fs0));
    s := St(Done(out), ps);
  }

  // ----- a destination that is written before anything is renamed -----

  lemma FailureSteps(c: Ctx, ps: seq<Prep>, i: nat, at: Nanos)
    requires c.Valid() && i < c.N() == |ps|
    ensures var d, t, data := c.targets[i], TempPath(c.targets[i], at), c.plan.files[i].bytes;
      && Step(c, St(StagingFile(i, Opening), ps), CreateTemp(d, at, true)) == Some(St(StagingFile(i, Writing(t)), ps))
      && Step(c, St(StagingFile(i, Writing(t)), ps), Write(t, data, 0, false))
        == Some(St(StagingFile(i, Discarding(t)), ps))
      && Step(c, St(StagingFile(i, Discarding(t)), ps), Remove(t, Refused))
         == Some(St(DroppingTemps(0, Abort(TempFailed)), ps))
      && Step(c, St(StagingFile(i, Opening), ps), CreateTemp(d, at, false))
         == Some(St(DroppingTemps(0, Abort(TempFailed)), ps))
  {
    hide Targets, TempPath, StartCommit, CopyStep, StepRestoring;
  }

  /** The temp file of destination `i` cannot be filled and not be removed either. */
  lemma FailsToStage(c: Ctx, fs0: Fs, es0: seq<Event>, ps: seq<Prep>, fs1: Fs, i: nat, at: Nanos, odd: set<Event>)
      returns (es: seq<Event>, fs: Fs)
    requires Gets(c, fs0, es0, St(StagingFile(i, Opening), ps), fs1, odd) && c.Valid() && i < c.N() == |ps|
    requires TempPath(c.targets[i], at) !in fs1
    requires Write(TempPath(c.targets[i], at), c.plan.files[i].bytes, 0, false) in odd
    requires Remove(TempPath(c.targets[i], at), Refused) in odd
    ensures Gets(c, fs0, es, St(DroppingTemps(0, Abort(TempFailed)), ps), fs, odd)
    ensures fs.Keys == fs1.Keys + {TempPath(c.targets[i], at)}
  {
    hide Gets, Targets, TempPath, Step;
    var t := TempPath(c.targets[i], at);
    FailureSteps(c, ps, i, at);
    es, fs := Then(c, fs0, es0, St(StagingFile(i, Opening), ps), fs1, odd, CreateTemp(c.targets[i], at, true),
                   St(StagingFile(i, Writing(t)), ps));
    es, fs := Then(c, fs0, es, St(StagingFile(i, Writing(t)), ps), fs, odd, Write(t, c.plan.files[i].bytes, 0, false),
                   St(StagingFile(i, Discarding(t)), ps));
    es, fs := Then(c, fs0, es, St(StagingFile(i, Discarding(t)), ps), fs, odd, Remove(t, Refused),
                   St(DroppingTemps(0, Abort(TempFailed)), ps));
  }

  function StagingFaults(c: Ctx, i: nat, at: Nanos): set<Event>
    requires c.Valid() && i < c.N()
  {
    var t := TempPath(c.targets[i], at);
    {Write(t, c.plan.files[i].bytes, 0, false), Remove(t, Refused)}
  }

  /** Just the first `n` files are staged, with the stamp `at`. */
  ghost predicate FirstStaged(c: Ctx, ps: seq<Prep>, fs: Fs, n: nat, at: Nanos) {
    && n <= |ps| == |c.targets|
    && (forall k | 0 <= k < n :: ps[k].temp == Some(TempPath(c.targets[k], at)) && TempPath(c.targets[k], at) in fs)
    && (forall k | n <= k < |ps| :: ps[k].temp.None?)
  }

  lemma TempLeftBehind(c: Ctx, i: nat, at: Nanos) returns (es: seq<Event>, ps: seq<Prep>, fs: Fs)
    requires c.Valid() && NamesResolve(c) && i < c.N()
    ensures Gets(c, map[], es, St(DroppingTemps(0, Abort(TempFailed)), ps), fs,
        Absences(c, map[]) + StagingFaults(c, i, at))
    ensures FirstStaged(c, ps, fs, i, at) && TempPath(c.targets[i], at) in fs
  {
    hide Gets, Targets, TempPath, Absences;
    var odd := Absences(c, map[]) + StagingFaults(c, i, at);
    es, ps, fs := StagesFirst(c, map[], i, at, odd);
    ps := WithTemps(c, ps, at, i);
    es, fs := FailsToStage(c, map[], es, ps, fs, i, at, odd);
  }

  /** A file that stands where destination `i` will, and is not as planned. */
  function Old(c: Ctx, i: nat): Fs
    requires c.Valid() && i < c.N()
  {
    map[c.targets[i] := Node(c.plan.files[i].bytes + [0], Meta(0, 0, 0))]
  }

  lemma {:induction false} BackupLeftBehind(c: Ctx, i: nat, at: Nanos) returns (es: seq<Event>, ps: seq<Prep>, fs: Fs)
    requires c.Valid() && NamesResolve(c) && i < c.N() && c.plan.retention != NO_BACKUPS
    ensures Gets(c, Old(c, i), es, St(DroppingTemps(0, Abort(TempFailed)), ps), fs,
                 Absences(c, Old(c, i)) + {CreateTemp(c.targets[0], at, false)})
    ensures FirstStaged(c, ps, fs, 0, at) && BackupPath(c.targets[i], at) in fs
  {
    hide Gets, Targets, BackupPath, TempPath, Absences, Step;
    var fs0 := Old(c, i);
    var odd := Absences(c, fs0) + {CreateTemp(c.targets[0], at, false)};
    TargetsIff(c.env, c.plan.files);
    es, ps := BeginsTruly(c, fs0, odd);
    es := Passes(c, fs0, es, ps, fs0, 0, i, odd);
    es, fs := BacksUp(c, fs0, es, ps, fs0, i, at, odd);
    ps := ps[i := ps[i].(backup := Some(BackupPath(c.targets[i], at)))];
    es := BackupsEnd(c, fs0, es, ps, fs, i + 1, odd);
    FailureSteps(c, ps, 0, at);
    es, fs := Then(c, fs0, es, St(StagingFile(0, Opening), ps), fs, odd, CreateTemp(c.targets[0], at, false),
                   St(DroppingTemps(0, Abort(TempFailed)), ps));
  }

  lemma DropSteps(c: Ctx, ps: seq<Prep>, k: nat)
    requires c.Valid() && k <= |ps|
    ensures var s, next := St(DroppingTemps(k, Abort(TempFailed)), ps), St(DroppingTemps(k + 1, Abort(TempFailed)), ps);
      && (k == |ps| ==> Step(c, s, Internal) == Some(St(Unlocking(c.N(), Fail(TempFailed)), ps)))
      && (k < |ps| && ps[k].temp.None? ==> Step(c, s, Internal) == Some(next))
      && (k < |ps| && ps[k].temp.Some? ==> Step(c, s, Remove(ps[k].temp.value, Removed)) == Some(next))
  {
    hide Targets, CopyStep, StageStep, StepRestoring;
  }

  /** The temp files are removed, the locks released, and ErrTempFailed is returned. */
  lemma {:induction false} Withdraws(c: Ctx, fs0: Fs, es0: seq<Event>, ps: seq<Prep>, fs1: Fs, k: nat, n: nat,
      at: Nanos,
                                     odd: set<Event>)
      returns (es: seq<Event>, fs: Fs)
    requires c.Valid() && k <= c.N() && n <= |ps| == c.N()
    requires forall m | 0 <= m < n :: ps[m].temp == Some(TempPath(c.targets[m], at))
    requires forall m | n <= m < |ps| :: ps[m].temp.None?
    requires forall m | k <= m < n :: TempPath(c.targets[m], at) in fs1
    requires Gets(c, fs0, es0, St(DroppingTemps(k, Abort(TempFailed)), ps), fs1, odd)
    ensures Gets(c, fs0, es, St(Done(Fail(TempFailed)), ps), fs, odd)
    ensures forall x | x in fs1 && (forall m | 0 <= m < n :: x != TempPath(c.targets[m], at)) :: x in fs
    decreases c.N() - k
  {
    hide Gets, Targets, TempPath, Step;
    DropSteps(c, ps, k);
    fs := fs1;
    if k == c.N() {
      es, fs := Then(c, fs0, es0, St(DroppingTemps(k, Abort(TempFailed)), ps), fs, odd, Internal,
                     St(Unlocking(c.N(), Fail(TempFailed)), ps));
      es := Unlocks(c, fs0, es, ps, fs, c.N(), Fail(TempFailed), odd);
    } else {
      var e := if k < n then Remove(TempPath(c.targets[k], at), Removed) else Internal;
      es, fs := Then(c, fs0, es0, St(DroppingTemps(k, Abort(TempFailed)), ps), fs, odd, e,
                     St(DroppingTemps(k + 1, Abort(TempFailed)), ps));
      var fs2 := fs;
      forall m | k < m < n ensures TempPath(c.targets[m], at) in fs2 { TempsDiffer(c, k, m, at, at); }
      es, fs := Withdraws(c, fs0, es, ps, fs2, k + 1, n, at, odd);
    }
  }
}
