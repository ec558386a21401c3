/** Any number of agent jobs, each holding its target mutex around any number of deployments:
    whenever a job is unfinished, some job can take a step. */
module Deadlock {
  import opened Text
  import opened Paths
  import opened Data
  import opened Os
  import opened ApplyProtocol
  import opened Calls

  /** One deployment job: `DeployCertificate` runs inside the mutex of its target, if it has one. */
  datatype Job = Job(target: string, calls: seq<Call>)

  datatype JobSt =
    | Waiting                        // for the mutex of the target
    | Between(next: nat)
    | InCall(k: nat, st: CallSt)
    | Leaving
    | Over

  predicate JobValid(job: Job) {
    forall k | 0 <= k < |job.calls| :: CallValid(job.calls[k])
  }

  /** `targetDeployMutex` hands out no mutex for an empty target. */
  function JobStart(job: Job): JobSt {
    if job.target != "" then Waiting else Between(0)
  }

  function JobStep(job: Job, js: JobSt, e: Event): Option<JobSt>
    requires JobValid(job)
  {
    match js
    case Waiting => if e == Lock(TargetLock(job.target)) then Some(Between(0)) else None
    case Between(k) =>
      if !e.Internal? then None
      else if k < |job.calls| then Some(InCall(k, CallStart(job.calls[k])))
      else Some(if job.target != "" then Leaving else Over)
    case InCall(k, st) =>
      if k >= |job.calls| then None
      else if PhaseOf(st).Ends? then (if e.Internal? then Some(Between(k + 1)) else None)
      else (var r := CallStep(job.calls[k], st, e); if r.Some? then Some(InCall(k, r.value)) else None)
    case Leaving => if e == Unlock(TargetLock(job.target)) then Some(Over) else None
    case Over => None
  }

  ghost predicate JobShape(job: Job, js: JobSt)
    requires JobValid(job)
  {
    match js
    case Waiting => job.target != ""
    case Between(k) => k <= |job.calls|
    case InCall(k, st) => k < |job.calls| && CallShape(job.calls[k], st) && PhaseFits(job.calls[k], PhaseOf(st))
    case Leaving => job.target != ""
    case Over => true
  }

  predicate PhaseFits(call: Call, ph: Phase) {
    match ph
    case Acquires(i) => i < |Locks(call)|
    case Releases(k) => 0 < k <= |Locks(call)|
    case _ => true
  }

  /** The file locks held in a phase: a prefix of the ascending order. */
  function HeldFiles(call: Call, ph: Phase): set<LockId> {
    var n := |Locks(call)|;
    var held := match ph case Acquires(i) => i case Works => n case Releases(k) => k case Ends => 0;
    set m | 0 <= m < held && m < n :: FileLock(Locks(call)[m])
  }

  function HeldTarget(job: Job, js: JobSt): set<LockId> {
    if job.target != "" && !js.Waiting? && !js.Over? then {TargetLock(job.target)} else {}
  }

  function Held(job: Job, js: JobSt): set<LockId> {
    HeldTarget(job, js) +
    (if js.InCall? && js.k < |job.calls| then HeldFiles(job.calls[js.k], PhaseOf(js.st)) else {})
  }

  /** The lock the job asks for next, if that is all it can do. */
  function Wants(job: Job, js: JobSt): Option<LockId> {
    match js
    case Waiting => Some(TargetLock(job.target))
    case InCall(k, st) =>
      if k < |job.calls| && PhaseOf(st).Acquires? && PhaseOf(st).i < |Locks(job.calls[k])|
      then Some(FileLock(Locks(job.calls[k])[PhaseOf(st).i])) else None
    case _ => None
  }

  /** The lock hierarchy: target mutexes below file locks, file locks by path. */
  predicate Below(a: LockId, b: LockId) {
    match (a, b)
    case (TargetLock(_), FileLock(_)) => true
    case (FileLock(p), FileLock(q)) => Less(p, q)
    case _ => false
  }

  lemma BelowTransitive(a: LockId, b: LockId, c: LockId)
    requires Below(a, b) && Below(b, c)
    ensures Below(a, c)
  {
    if a.FileLock? { LessTransitive(a.path, b.path, c.path); }
  }

  lemma BelowIrreflexive(a: LockId)
    ensures !Below(a, a)
  {
    if a.FileLock? { LessIrreflexive(a.path); }
  }

  /** A job asks only for locks above all those it holds. */
  lemma AsksUpwards(job: Job, js: JobSt)
    requires JobValid(job) && JobShape(job, js) && Wants(job, js).Some?
    ensures forall h | h in Held(job, js) :: Below(h, Wants(job, js).value)
  {
    hide CallShape, Locks;
    if js.InCall? { LocksAscend(job.calls[js.k]); }
  }

  // ----- the system -----

  datatype World = World(fs: Fs, jobs: seq<JobSt>, owner: map<LockId, nat>)

  ghost predicate Sound(jobs: seq<Job>) {
    forall p | 0 <= p < |jobs| :: JobValid(jobs[p])
  }

  function Begin(jobs: seq<Job>, fs: Fs): World {
    World(fs, seq(|jobs|, i requires 0 <= i < |jobs| => JobStart(jobs[i])), map[])
  }

  /** Job `p` makes the call `e`. A taken mutex blocks. */
  ghost function Next(env: Env, jobs: seq<Job>, w: World, p: nat, e: Event): Option<World>
    requires Sound(jobs)
  {
    if p >= |jobs| || p >= |w.jobs| || !Enabled(e, w.fs) || (e.Lock? && e.lock in w.owner) then None
    else
      var r := JobStep(jobs[p], w.jobs[p], e);
      if r.None? then None
      else Some(World(Effect(env, e, w.fs), w.jobs[p := r.value],
                      if e.Lock? then w.owner[e.lock := p] else if e.Unlock? then w.owner - {e.lock} else w.owner))
  }

  ghost function Reached(env: Env, jobs: seq<Job>, fs: Fs, g: seq<(nat, Event)>): Option<World>
    requires Sound(jobs)
  {
    if g == [] then Some(Begin(jobs, fs))
    else
      var n := |g| - 1;
      var w := Reached(env, jobs, fs, g[..n]);
      if w.None? then None else Next(env, jobs, w.value, g[n].0, g[n].1)
  }

  /** The owner table and the jobs agree on who holds what. */
  ghost predicate Consistent(jobs: seq<Job>, w: World)
    requires Sound(jobs)
  {
    && |w.jobs| == |jobs|
    && (forall p | 0 <= p < |jobs| :: JobShape(jobs[p], w.jobs[p]))
    && (forall l | l in w.owner :: w.owner[l] < |jobs| && l in Held(jobs[w.owner[l]], w.jobs[w.owner[l]]))
    && (forall p, l | 0 <= p < |jobs| && l in Held(jobs[p], w.jobs[p]) :: l in w.owner && w.owner[l] == p)
  }

  /** What one step does to the locks a job holds. */
  ghost predicate Moves(job: Job, js: JobSt, e: Event, js': JobSt) {
    && (e.Lock? ==> Held(job, js') == Held(job, js) + {e.lock} && Wants(job, js) == Some(e.lock))
    && (e.Unlock? ==> e.lock in Held(job, js) && Held(job, js') == Held(job, js) - {e.lock})
    && (!e.Lock? && !e.Unlock? ==> Held(job, js') == Held(job, js))
  }

  lemma FilesMove(call: Call, st: CallSt, e: Event, st': CallSt)
    requires CallValid(call) && Protocol(call, st, e, st')
    ensures PhaseFits(call, PhaseOf(st')) && PhaseFits(call, PhaseOf(st))
    ensures e.Lock? ==>
      && e.lock.FileLock? && PhaseOf(st).Acquires? && e.lock == FileLock(Locks(call)[PhaseOf(st).i])
      && HeldFiles(call, PhaseOf(st')) == HeldFiles(call, PhaseOf(st)) + {e.lock}
    ensures e.Unlock? ==>
      && e.lock.FileLock? && e.lock in HeldFiles(call, PhaseOf(st))
      && HeldFiles(call, PhaseOf(st')) == HeldFiles(call, PhaseOf(st)) - {e.lock}
    ensures !e.Lock? && !e.Unlock? ==> HeldFiles(call, PhaseOf(st')) == HeldFiles(call, PhaseOf(st))
  {
    hide WorksWithin, Locks, PhaseOf;
    LocksAscend(call);
    var L := Locks(call);
    if PhaseOf(st).Works? {
      var t :| WorksWithin(call, e, t);
      WorkIsNoLock(call, e, t);
    }
    if PhaseOf(st).Releases? {
      var k := PhaseOf(st).left;
      forall m | 0 <= m < k - 1 ensures L[m] != L[k - 1] { LessIrreflexive(L[m]); assert Less(L[m], L[k - 1]); }
      assert FileLock(L[k - 1]) in HeldFiles(call, PhaseOf(st));
    }
  }

  lemma WorkIsNoLock(call: Call, e: Event, t: Path)
    requires WorksWithin(call, e, t)
    ensures !e.Lock? && !e.Unlock?
  {
  }

  lemma JobMoves(job: Job, js: JobSt, e: Event, js': JobSt, fs: Fs)
    requires JobValid(job) && JobShape(job, js) && JobStep(job, js, e) == Some(js') && Enabled(e, fs)
    ensures JobShape(job, js') && Moves(job, js, e, js')
  {
    hide CallShape, CallStep, Enabled, Locks;
    match js
    case InCall(k, st) =>
      if !PhaseOf(st).Ends? {
        assert Possible(e);
        CallProtocol(job.calls[k], st, e, js'.st);
        FilesMove(job.calls[k], st, e, js'.st);
      }
    case Between(k) =>
      if k < |job.calls| { CallShapeStart(job.calls[k]); LocksAscend(job.calls[k]); }
    case Waiting =>
    case Leaving =>
    case Over =>
  }

  lemma ConsistentStep(env: Env, jobs: seq<Job>, w: World, p: nat, e: Event, w': World)
    requires Sound(jobs) && Consistent(jobs, w) && Next(env, jobs, w, p, e) == Some(w')
    ensures Consistent(jobs, w')
  {
    hide JobStep, JobShape, Held, Wants, JobValid, Effect, Enabled;
    JobMoves(jobs[p], w.jobs[p], e, w'.jobs[p], w.fs);
    assert forall q | 0 <= q < |jobs| && q != p :: w'.jobs[q] == w.jobs[q];
    forall l | l in w'.owner ensures w'.owner[l] < |jobs| && l in Held(jobs[w'.owner[l]], w'.jobs[w'.owner[l]]) {
      if l in w.owner { assert l in Held(jobs[w.owner[l]], w.jobs[w.owner[l]]); }
    }
    forall q, l | 0 <= q < |jobs| && l in Held(jobs[q], w'.jobs[q]) ensures l in w'.owner && w'.owner[l] == q {
      if q != p || l in Held(jobs[q], w.jobs[q]) { assert l in w.owner && w.owner[l] == q; }
    }
  }

  lemma ConsistentBegin(jobs: seq<Job>, fs: Fs)
    requires Sound(jobs)
    ensures Consistent(jobs, Begin(jobs, fs))
  {
  }

  lemma {:induction false} ConsistentReached(env: Env, jobs: seq<Job>, fs: Fs, g: seq<(nat, Event)>, w: World)
    requires Sound(jobs) && Reached(env, jobs, fs, g) == Some(w)
    ensures Consistent(jobs, w)
  {
    hide Next, Consistent;
    if g == [] {
      ConsistentBegin(jobs, fs);
    } else {
      var n := |g| - 1;
      var w1 := Reached(env, jobs, fs, g[..n]).value;
      ConsistentReached(env, jobs, fs, g[..n], w1);
      ConsistentStep(env, jobs, w1, g[n].0, g[n].1, w);
    }
  }

  /** A job that waits for no lock can go on. */
  lemma JobProgress(job: Job, js: JobSt) returns (e: Event)
    requires JobValid(job) && JobShape(job, js) && !js.Over? && Wants(job, js).None?
    ensures (forall fs :: Enabled(e, fs)) && JobStep(job, js, e).Some? && !e.Lock?
  {
    hide CallShape, CallStep, Locks;
    match js
    case Between(_) => e := Internal;
    case Leaving => e := Unlock(TargetLock(job.target));
    case InCall(k, st) => if PhaseOf(st).Ends? { e := Internal; } else { e := CallProgress(job.calls[k], st); }
  }

  lemma AcquireProgress(env: Env, jobs: seq<Job>, w: World, p: nat, l: LockId)
    requires Sound(jobs) && Consistent(jobs, w) && p < |jobs| && Wants(jobs[p], w.jobs[p]) == Some(l) && l !in w.owner
    ensures Next(env, jobs, w, p, Lock(l)).Some?
  {
    hide Held, Sort;
    var js := w.jobs[p];
    assert JobShape(jobs[p], js);
    if js.InCall? { AcquireSteps(jobs[p].calls[js.k], js.st); }
  }

  lemma AcquireSteps(call: Call, st: CallSt)
    requires CallValid(call) && CallShape(call, st) && PhaseOf(st).Acquires? && PhaseOf(st).i < |Locks(call)|
    ensures CallStep(call, st, Lock(FileLock(Locks(call)[PhaseOf(st).i]))).Some?
  {
    hide Sibling, MadeBackup, MadeTemp, Targets, PrepNames;
    LocksAscend(call);
    assert Locks(call)[PhaseOf(st).i] in Locks(call);
  }

  function Higher(w: World, l: LockId): set<LockId> {
    set h | h in w.owner.Keys && Below(l, h)
  }

  /** Follow the chain of waiting jobs upwards; it ends at one that can move. */
  lemma {:induction false} Unblocks(env: Env, jobs: seq<Job>, w: World, p: nat, l: LockId) returns (q: nat, e: Event)
    requires Sound(jobs) && Consistent(jobs, w) && p < |jobs| && Wants(jobs[p], w.jobs[p]) == Some(l)
    ensures Next(env, jobs, w, q, e).Some?
    decreases |Higher(w, l)|
  {
    hide JobStep, JobShape, JobValid, Held, Wants, Below, Enabled, Effect;
    if l !in w.owner {
      q, e := p, Lock(l);
      AcquireProgress(env, jobs, w, p, l);
    } else {
      var o := w.owner[l];
      HolderUnfinished(jobs[o], w.jobs[o], l);
      if Wants(jobs[o], w.jobs[o]).None? {
        q := o;
        e := JobProgress(jobs[o], w.jobs[o]);
      } else {
        var m := Wants(jobs[o], w.jobs[o]).value;
        AsksUpwards(jobs[o], w.jobs[o]);
        if m !in w.owner {
          q, e := o, Lock(m);
          AcquireProgress(env, jobs, w, o, m);
        } else {
          forall h | h in Higher(w, m) ensures h in Higher(w, l) { BelowTransitive(l, m, h); }
          BelowIrreflexive(m);
          assert m in Higher(w, l) && m !in Higher(w, m);
          SmallerSet(Higher(w, m), Higher(w, l), m);
          q, e := Unblocks(env, jobs, w, o, m);
        }
      }
    }
  }

  lemma HolderUnfinished(job: Job, js: JobSt, l: LockId)
    requires l in Held(job, js)
    ensures !js.Over?
  {
  }

  lemma SmallerSet(a: set<LockId>, b: set<LockId>, x: LockId)
    requires a <= b && x in b && x !in a
    ensures |a| < |b|
  {
    assert a <= b - {x};
    SubsetSize(a, b - {x});
  }

  /** Deadlock freedom: in every reachable state with an unfinished job, some job has an enabled step. */
  lemma DeadlockFree(env: Env, jobs: seq<Job>, fs: Fs, g: seq<(nat, Event)>, w: World, p: nat)
      returns (q: nat, e: Event)
    requires Sound(jobs) && Reached(env, jobs, fs, g) == Some(w) && p < |jobs| && p < |w.jobs| && !w.jobs[p].Over?
    ensures Next(env, jobs, w, q, e).Some?
  {
    hide JobStep, JobShape, JobValid, Held, Wants, Enabled, Effect;
    ConsistentReached(env, jobs, fs, g, w);
    if Wants(jobs[p], w.jobs[p]).Some? {
      q, e := Unblocks(env, jobs, w, p, Wants(jobs[p], w.jobs[p]).value);
    } else {
      q := p;
      e := JobProgress(jobs[p], w.jobs[p]);
    }
  }

  /** Mutual exclusion: in every reachable state, of the jobs with one non-empty target at most one is
      between the first and the last of its deployments. */
  lemma {:induction false} OneJobPerTarget(env: Env, jobs: seq<Job>, fs: Fs, g: seq<(nat, Event)>, w: World, p: nat,
      q: nat)
    requires Sound(jobs) && Reached(env, jobs, fs, g) == Some(w) && p < |jobs| && q < |jobs| && p != q
    requires jobs[p].target == jobs[q].target != ""
    ensures |w.jobs| == |jobs| && !(Inside(w.jobs[p]) && Inside(w.jobs[q]))
  {
    hide JobShape, JobValid, Next;
    ConsistentReached(env, jobs, fs, g, w);
    var l := TargetLock(jobs[p].target);
    assert Inside(w.jobs[p]) ==> l in Held(jobs[p], w.jobs[p]);
    assert Inside(w.jobs[q]) ==> l in Held(jobs[q], w.jobs[q]) && l in w.owner && w.owner[l] == q;
  }

  predicate Inside(js: JobSt) {
    js.Between? || js.InCall?
  }
}
