/** Concurrent deployments: every interleaving of any number of Apply and AtomicWriteFile calls is
    equivalent to running the calls one after the other. */
module Serializability {
  import opened Text
  import opened Paths
  import opened Data
  import opened Os
  import opened ApplyProtocol
  import opened ApplySafety
  import opened WriteProtocol
  import opened Calls

  // ----- calls on disjoint paths commute -----

  ghost predicate DisjointCalls(e: Event, f: Event) {
    forall x :: !(Touches(e, x) && Touches(f, x))
  }

  lemma CommuteForward(env: Env, fs: Fs, e: Event, f: Event)
    requires DisjointCalls(e, f) && Enabled(e, fs) && Enabled(f, Effect(env, e, fs))
    ensures Enabled(f, fs) && Enabled(e, Effect(env, f, fs))
    ensures Effect(env, e, Effect(env, f, fs)) == Effect(env, f, Effect(env, e, fs))
  {
    hide Touches, Effect, Enabled;
    var fe := Effect(env, e, fs);
    forall x | Touches(f, x) ensures Same(fe, fs, x) { EffectIsLocal(env, e, fs, x); }
    AnswerIsLocal(env, f, fe, fs);
    var ff := Effect(env, f, fs);
    forall x | Touches(e, x) ensures Same(fs, ff, x) { EffectIsLocal(env, f, fs, x); }
    AnswerIsLocal(env, e, fs, ff);
    var a, b := Effect(env, e, ff), Effect(env, f, fe);
    forall x ensures Same(a, b, x) {
      if Touches(e, x) {
        EffectIsLocal(env, f, fe, x);
      } else {
        EffectIsLocal(env, e, ff, x);
        if !Touches(f, x) { EffectIsLocal(env, e, fs, x); EffectIsLocal(env, f, fs, x); EffectIsLocal(env, f, fe, x); }
      }
    }
    assert forall x :: x in a <==> x in b by { forall x ensures x in a <==> x in b { assert Same(a, b, x); } }
    assert forall x | x in a :: a[x] == b[x] by { forall x | x in a ensures a[x] == b[x] { assert Same(a, b, x); } }
    assert a == b;
  }

  /** A call that touches none of the paths of `es` can be made before them instead of after. */
  lemma {:induction false} MoveToFront(env: Env, fs: Fs, es: seq<Event>, e: Event)
    requires forall f | f in es :: DisjointCalls(f, e)
    requires Replay(env, fs, es + [e]).Some?
    ensures Replay(env, fs, [e] + es) == Replay(env, fs, es + [e])
  {
    hide Touches, Effect, Enabled;
    if es == [] {
      assert [e] + es == es + [e];
    } else {
      var n := |es| - 1;
      var init, f := es[..n], es[n];
      ReplaySnoc(env, fs, es, e);
      assert es == init + [f];
      ReplaySnoc(env, fs, init, f);
      var mid := Replay(env, fs, init).value;
      CommuteForward(env, mid, f, e);
      ReplaySnoc(env, fs, init, e);
      MoveToFront(env, fs, init, e);
      assert [e] + es == ([e] + init) + [f];
      ReplaySnoc(env, fs, [e] + init, f);
    }
  }

  // ----- interleavings -----

  datatype Tagged = Tagged(who: nat, what: Event)

  function Events(g: seq<Tagged>): seq<Event> {
    if g == [] then [] else Events(g[..|g| - 1]) + [g[|g| - 1].what]
  }

  /** The calls of `p`, in order. */
  function Proj(g: seq<Tagged>, p: nat): seq<Event> {
    if g == [] then []
    else
      var n := |g| - 1;
      if g[n].who == p then Proj(g[..n], p) + [g[n].what] else Proj(g[..n], p)
  }

  function Rest(g: seq<Tagged>, p: nat): seq<Tagged> {
    if g == [] then []
    else
      var n := |g| - 1;
      if g[n].who == p then Rest(g[..n], p) else Rest(g[..n], p) + [g[n]]
  }

  /** Mutual exclusion: whoever else took the lock has released it. */
  ghost predicate LockFree(calls: seq<Call>, g: seq<Tagged>, p: nat, l: LockId) {
    forall q | 0 <= q < |calls| && q != p :: Lock(l) in Proj(g, q) ==> Unlock(l) in Proj(g, q)
  }

  /** Every call makes the steps of its own protocol, in any interleaving that respects the locks. */
  ghost predicate Interleaving(calls: seq<Call>, g: seq<Tagged>)
    requires forall i | 0 <= i < |calls| :: CallValid(calls[i])
  {
    if g == [] then true
    else
      var n := |g| - 1;
      var p, e := g[n].who, g[n].what;
      && Interleaving(calls, g[..n])
      && p < |calls| && CallRun(calls[p], Proj(g, p)).Some? && Possible(e)
      && (e.Lock? ==> LockFree(calls, g[..n], p, e.lock))
  }

  ghost predicate AllValid(calls: seq<Call>) {
    forall i | 0 <= i < |calls| :: CallValid(calls[i])
  }

  /** No two different destinations of any of the calls share a derived name. */
  ghost predicate AllApart(calls: seq<Call>) {
    forall i, j, a, b | 0 <= i < |calls| && 0 <= j < |calls| && a in calls[i].c.targets && b in calls[j].c.targets ::
      a != b ==> Apart(a, b)
  }

  lemma {:induction false} ProjOfRest(g: seq<Tagged>, p: nat, q: nat)
    ensures Proj(Rest(g, p), q) == if q == p then [] else Proj(g, q)
  {
    if g != [] {
      var n := |g| - 1;
      ProjOfRest(g[..n], p, q);
      if g[n].who != p {
        assert (Rest(g[..n], p) + [g[n]])[..|Rest(g[..n], p)|] == Rest(g[..n], p);
      }
    }
  }

  lemma {:induction false} InterleavingOfRest(calls: seq<Call>, g: seq<Tagged>, p: nat)
    requires AllValid(calls) && Interleaving(calls, g)
    ensures Interleaving(calls, Rest(g, p))
  {
    hide Possible, CallRun;
    if g != [] {
      var n := |g| - 1;
      InterleavingOfRest(calls, g[..n], p);
      if g[n].who != p {
        var h := Rest(g[..n], p);
        assert Rest(g, p) == h + [g[n]];
        assert Rest(g, p)[..|h|] == h;
        ProjOfRest(g, p, g[n].who);
        if g[n].what.Lock? {
          forall q | 0 <= q < |calls| && q != g[n].who
            ensures Lock(g[n].what.lock) in Proj(h, q) ==> Unlock(g[n].what.lock) in Proj(h, q)
          {
            ProjOfRest(g[..n], p, q);
          }
        }
      }
    }
  }

  lemma {:induction false} MoveAcross(env: Env, fs: Fs, mine: seq<Event>, others: seq<Event>, e: Event)
    requires forall f | f in others :: DisjointCalls(f, e)
    requires Replay(env, fs, (mine + others) + [e]).Some?
    ensures Replay(env, fs, (mine + [e]) + others) == Replay(env, fs, (mine + others) + [e])
  {
    hide Touches, Effect, Enabled, DisjointCalls, Replay;
    assert (mine + others) + [e] == mine + (others + [e]);
    assert (mine + [e]) + others == mine + ([e] + others);
    ReplayConcat(env, fs, mine, others + [e]);
    ReplayConcat(env, fs, mine, [e] + others);
    MoveToFront(env, Replay(env, fs, mine).value, others, e);
  }

  /** Taking the calls of `p` first leads to the same tree, if they commute with what preceded them. */
  lemma {:induction false} PullFront(env: Env, fs: Fs, g: seq<Tagged>, p: nat)
    requires Replay(env, fs, Events(g)).Some?
    requires forall i, k | 0 <= i < k < |g| && g[i].who != p && g[k].who == p :: DisjointCalls(g[i].what, g[k].what)
    ensures Replay(env, fs, Proj(g, p) + Events(Rest(g, p))) == Replay(env, fs, Events(g))
  {
    hide Touches, Effect, Enabled, DisjointCalls;
    if g != [] {
      var n := |g| - 1;
      var h, t := g[..n], g[n];
      ReplaySnoc(env, fs, Events(h), t.what);
      PullFront(env, fs, h, p);
      var mine, others := Proj(h, p), Events(Rest(h, p));
      ReplaySnoc(env, fs, mine + others, t.what);
      if t.who != p {
        EventsSnoc(Rest(h, p), t);
        assert mine + (others + [t.what]) == (mine + others) + [t.what];
      } else {
        forall f | f in others ensures DisjointCalls(f, t.what) {
          var i := RestComesFrom(h, p, f);
        }
        MoveAcross(env, fs, mine, others, t.what);
      }
    }
  }

  lemma {:induction false} EventsSnoc(g: seq<Tagged>, t: Tagged)
    ensures Events(g + [t]) == Events(g) + [t.what]
  {
    assert (g + [t])[..|g|] == g;
  }

  lemma {:induction false} RestComesFrom(g: seq<Tagged>, p: nat, f: Event) returns (i: nat)
    requires f in Events(Rest(g, p))
    ensures i < |g| && g[i].who != p && g[i].what == f
  {
    var n := |g| - 1;
    if g[n].who != p {
      EventsSnoc(Rest(g[..n], p), g[n]);
      if f == g[n].what { i := n; return; }
    }
    i := RestComesFrom(g[..n], p, f);
  }

  // ----- two-phase locking -----

  ghost predicate NoUnlock(es: seq<Event>) {
    forall e | e in es :: !e.Unlock?
  }

  ghost predicate Holding(call: Call, es: seq<Event>, i: int) {
    forall m | 0 <= m < i && m < |Locks(call)| :: Lock(FileLock(Locks(call)[m])) in es
  }

  /** Until the first release a call has taken exactly the locks its phase says. */
  ghost predicate History(call: Call, es: seq<Event>, ph: Phase) {
    match ph
    case Acquires(i) => Holding(call, es, i) && NoUnlock(es)
    case Works => Holding(call, es, |Locks(call)|) && NoUnlock(es)
    case _ => true
  }

  lemma {:induction false} CallHistory(call: Call, es: seq<Event>, st: CallSt)
    requires CallValid(call) && CallRun(call, es) == Some(st) && forall e | e in es :: Possible(e)
    ensures CallShape(call, st) && History(call, es, PhaseOf(st))
  {
    hide CallStep, CallShape, Possible, Locks, WorksWithin;
    if es == [] {
      CallShapeStart(call);
    } else {
      var n := |es| - 1;
      var st1 := CallRun(call, es[..n]).value;
      CallHistory(call, es[..n], st1);
      CallProtocol(call, st1, es[n], st);
      assert es == es[..n] + [es[n]];
      if PhaseOf(st1) == Works {
        var t :| WorksWithin(call, es[n], t);
        assert !es[n].Unlock? by { WorkIsNoUnlock(call, es[n], t); }
      }
    }
  }

  lemma WorkIsNoUnlock(call: Call, e: Event, t: Path)
    requires WorksWithin(call, e, t)
    ensures !e.Unlock?
  {
  }

  lemma {:induction false} Prefix(calls: seq<Call>, g: seq<Tagged>, k: nat)
    requires AllValid(calls) && Interleaving(calls, g) && k <= |g|
    ensures Interleaving(calls, g[..k])
  {
    hide CallRun, Possible, LockFree;
    if k == |g| {
      assert g[..k] == g;
    } else {
      var n := |g| - 1;
      Prefix(calls, g[..n], k);
      assert g[..n][..k] == g[..k];
    }
  }

  lemma {:induction false} ProjMembers(g: seq<Tagged>, p: nat, e: Event)
    ensures e in Proj(g, p) <==> Tagged(p, e) in g
  {
    if g != [] {
      var n := |g| - 1;
      ProjMembers(g[..n], p, e);
      assert g == g[..n] + [g[n]];
    }
  }

  lemma {:induction false} EventsPossible(calls: seq<Call>, g: seq<Tagged>)
    requires AllValid(calls) && Interleaving(calls, g)
    ensures forall t | t in g :: Possible(t.what)
  {
    hide CallRun, Possible, LockFree;
    if g != [] {
      EventsPossible(calls, g[..|g| - 1]);
      assert g == g[..|g| - 1] + [g[|g| - 1]];
    }
  }

  /** What the last event of an interleaving did to its caller. */
  lemma LastMoves(calls: seq<Call>, g: seq<Tagged>) returns (st: CallSt, st': CallSt)
    requires AllValid(calls) && Interleaving(calls, g) && g != []
    ensures var n := |g| - 1;
      && g[n].who < |calls| && Possible(g[n].what)
      && CallRun(calls[g[n].who], Proj(g[..n], g[n].who)) == Some(st)
      && CallStep(calls[g[n].who], st, g[n].what) == Some(st')
  {
    hide CallStep, Possible, LockFree, CallStart;
    var n := |g| - 1;
    var p, e := g[n].who, g[n].what;
    var es := Proj(g[..n], p);
    assert Proj(g, p) == es + [e];
    assert (es + [e])[..|es|] == es;
    st := CallRun(calls[p], es).value;
    st' := CallStep(calls[p], st, e).value;
  }

  /** The state of the caller just before its call number `k` of the interleaving. */
  lemma StateBefore(calls: seq<Call>, g: seq<Tagged>, k: nat) returns (st: CallSt, st': CallSt)
    requires AllValid(calls) && Interleaving(calls, g) && k < |g|
    ensures g[k].who < |calls|
    ensures var call, es := calls[g[k].who], Proj(g[..k], g[k].who);
      && CallRun(call, es) == Some(st) && CallStep(call, st, g[k].what) == Some(st')
      && History(call, es, PhaseOf(st)) && Protocol(call, st, g[k].what, st')
  {
    hide CallStep, CallRun, Possible, LockFree, Protocol, History, CallShape, Proj, Interleaving;
    Prefix(calls, g, k + 1);
    assert g[..k + 1][..k] == g[..k];
    st, st' := LastMoves(calls, g[..k + 1]);
    var p := g[k].who;
    EventsPossible(calls, g);
    forall e | e in Proj(g[..k], p) ensures Possible(e) { ProjMembers(g[..k], p, e); assert Tagged(p, e) in g; }
    CallHistory(calls[p], Proj(g[..k], p), st);
    CallProtocol(calls[p], st, g[k].what, st');
  }

  /** While nobody has released anything, no lock has been taken twice. */
  lemma {:induction false} Exclusive(calls: seq<Call>, g: seq<Tagged>, p: nat, q: nat, l: LockId)
    requires AllValid(calls) && Interleaving(calls, g) && p < |calls| && q < |calls| && p != q
    requires forall t | t in g :: !t.what.Unlock?
    ensures !(Lock(l) in Proj(g, p) && Lock(l) in Proj(g, q))
  {
    hide CallRun, Possible;
    if g != [] {
      var n := |g| - 1;
      assert g == g[..n] + [g[n]];
      Exclusive(calls, g[..n], p, q, l);
      ProjMembers(g[..n], p, Unlock(l));
      ProjMembers(g[..n], q, Unlock(l));
    }
  }

  lemma NoPathsNoConflict(e: Event, f: Event)
    requires e.Lock? || e.Unlock? || f.Lock? || f.Unlock?
    ensures DisjointCalls(e, f)
  {
  }

  lemma FamiliesDoNotConflict(calls: seq<Call>, p: nat, q: nat, e: Event, f: Event, t: Path, u: Path)
    requires p < |calls| && q < |calls| && AllApart(calls) && t != u
    requires WorksWithin(calls[p], e, t) && WorksWithin(calls[q], f, u)
    ensures DisjointCalls(f, e)
  {
    hide Mine, Touches, Apart;
    forall x ensures !(Touches(f, x) && Touches(e, x)) {
      if Touches(f, x) && Touches(e, x) { ApartIsEnough(t, u, x); }
    }
  }

  /** Two calls made before any release touch different paths. */
  lemma {:induction false} NoConflict(calls: seq<Call>, g: seq<Tagged>, i: nat, k: nat)
    requires AllValid(calls) && AllApart(calls) && Interleaving(calls, g) && i < k < |g| && g[i].who != g[k].who
    requires forall t | t in g[..k] :: !t.what.Unlock?
    ensures DisjointCalls(g[i].what, g[k].what)
  {
    hide CallStep, CallRun, Interleaving, DisjointCalls, WorksWithin, AllApart;
    var p, q := g[k].who, g[i].who;
    var e, f := g[k].what, g[i].what;
    var st, st1 := StateBefore(calls, g, k);
    var su, su1 := StateBefore(calls, g, i);
    if e.Lock? || e.Unlock? || f.Lock? || f.Unlock? {
      NoPathsNoConflict(f, e);
    } else {
      var t :| WorksWithin(calls[p], e, t);
      var u :| WorksWithin(calls[q], f, u);
      if t == u {
        var l := FileLock(t);
        HoldsTarget(calls[p], Proj(g[..k], p), e, t);
        HoldsTarget(calls[q], Proj(g[..i], q), f, t);
        ProjMembers(g[..i], q, Lock(l));
        assert Tagged(q, Lock(l)) in g[..k] by { assert g[..i] == g[..k][..i]; }
        ProjMembers(g[..k], q, Lock(l));
        Prefix(calls, g, k);
        Exclusive(calls, g[..k], p, q, l);
      } else {
        FamiliesDoNotConflict(calls, p, q, e, f, t, u);
      }
    }
  }

  lemma HoldsTarget(call: Call, es: seq<Event>, e: Event, t: Path)
    requires CallValid(call) && WorksWithin(call, e, t) && Holding(call, es, |Locks(call)|)
    ensures Lock(FileLock(t)) in es
  {
    hide Touches, Mine, Sort;
    LocksAscend(call);
    var m :| 0 <= m < |Locks(call)| && Locks(call)[m] == t;
  }

  /** Real time: the call `q` had released a lock, as every call has that returned, and made all its
      system calls before the first one of `p`. */
  ghost predicate Precedes(g: seq<Tagged>, q: nat, p: nat) {
    && (exists i | 0 <= i < |g| :: g[i].who == q && g[i].what.Unlock?)
    && forall i, k | 0 <= i < |g| && 0 <= k < |g| && g[i].who == q && g[k].who == p :: i < k
  }

  /** The call that releases first (or any call, if none has) can be taken to the front. */
  lemma ChooseFirst(calls: seq<Call>, g: seq<Tagged>) returns (p: nat, at: nat)
    requires AllValid(calls) && AllApart(calls) && Interleaving(calls, g) && g != []
    ensures at < |g| && g[at].who == p
    ensures forall q :: !Precedes(g, q, p)
    ensures forall i, k | 0 <= i < k < |g| && g[i].who != p && g[k].who == p :: DisjointCalls(g[i].what, g[k].what)
  {
    hide CallStep, CallRun, Interleaving, DisjointCalls, AllApart, WorksWithin;
    var u := 0;
    while u < |g| && !g[u].what.Unlock?
      invariant u <= |g| && forall m | 0 <= m < u :: !g[m].what.Unlock?
    {
      u := u + 1;
    }
    at := if u < |g| then u else 0;
    p := g[at].who;
    assert forall q :: !Precedes(g, q, p);
    forall i, k | 0 <= i < k < |g| && g[i].who != p && g[k].who == p ensures DisjointCalls(g[i].what, g[k].what) {
      if k <= u {
        NoConflict(calls, g, i, k);
      } else {
        var st, st1 := StateBefore(calls, g, k);
        ProjMembers(g[..k], p, g[u].what);
        assert g[..k][u] == Tagged(p, g[u].what);
        NoPathsNoConflict(g[i].what, g[k].what);
      }
    }
  }

  // ----- the theorem -----

  /** The calls run one after the other in `order`, passing through `trees`, each making exactly the
      calls and getting exactly the replies it got in the interleaving. */
  ghost predicate SerialRun(env: Env, g: seq<Tagged>, order: seq<nat>, trees: seq<Fs>) {
    && Distinct(order) && |trees| == |order| + 1
    && (forall p :: p in order <==> Proj(g, p) != [])
    && forall k | 0 <= k < |order| :: Replay(env, trees[k], Proj(g, order[k])) == Some(trees[k + 1])
  }

  /** No call comes before one that had returned when it began. */
  ghost predicate KeepsTime(g: seq<Tagged>, order: seq<nat>) {
    forall a, b | 0 <= a < b < |order| :: !Precedes(g, order[b], order[a])
  }

  lemma {:induction false} PairInRest(g: seq<Tagged>, p: nat, j: nat, k: nat) returns (i: nat, m: nat)
    requires j <= k < |Rest(g, p)|
    ensures i <= m < |g| && g[i] == Rest(g, p)[j] && g[m] == Rest(g, p)[k] && (j < k ==> i < m)
  {
    var n := |g| - 1;
    var h := Rest(g[..n], p);
    if k < |h| {
      i, m := PairInRest(g[..n], p, j, k);
    } else {
      m := n;
      i := n;
      if j < k { var last; i, last := PairInRest(g[..n], p, j, j); }
    }
  }

  lemma {:induction false} ReleaseInRest(g: seq<Tagged>, p: nat, i: nat) returns (j: nat)
    requires i < |g| && g[i].who != p
    ensures j < |Rest(g, p)| && Rest(g, p)[j] == g[i]
  {
    var n := |g| - 1;
    if i == n { j := |Rest(g[..n], p)|; } else { j := ReleaseInRest(g[..n], p, i); }
  }

  /** The time order of two calls does not depend on a third one. */
  lemma {:induction false} PrecedesInRest(g: seq<Tagged>, p: nat, q: nat, r: nat)
    requires Precedes(g, q, r) && q != p && r != p && q != r
    ensures Precedes(Rest(g, p), q, r)
  {
    hide Rest;
    var h := Rest(g, p);
    var u :| 0 <= u < |g| && g[u].who == q && g[u].what.Unlock?;
    var v := ReleaseInRest(g, p, u);
    forall i, k | 0 <= i < |h| && 0 <= k < |h| && h[i].who == q && h[k].who == r ensures i < k {
      if k <= i { var a, b := PairInRest(g, p, k, i); }
    }
  }

  lemma {:induction false} TimeCons(g: seq<Tagged>, p: nat, order: seq<nat>)
    requires KeepsTime(Rest(g, p), order) && p !in order && Distinct(order) && forall q :: !Precedes(g, q, p)
    ensures KeepsTime(g, [p] + order)
  {
    hide Rest, Precedes;
    var whole := [p] + order;
    forall a, b | 0 <= a < b < |whole| ensures !Precedes(g, whole[b], whole[a]) {
      if a > 0 && Precedes(g, whole[b], whole[a]) {
        assert order[a - 1] in order && order[b - 1] in order;
        PrecedesInRest(g, p, order[b - 1], order[a - 1]);
      }
    }
  }

  /** Serializability: whatever the interleaving, finished or cut short, there is a serial order of
      the calls with the same replies, hence the same results, and the same final tree; it keeps
      every call that had returned in front of those that began later. */
  lemma {:induction false} Serializable(env: Env, calls: seq<Call>, fs0: Fs, g: seq<Tagged>, fs: Fs)
      returns (order: seq<nat>, trees: seq<Fs>)
    requires AllValid(calls) && AllApart(calls) && Interleaving(calls, g) && Replay(env, fs0, Events(g)) == Some(fs)
    ensures SerialRun(env, g, order, trees) && trees[0] == fs0 && trees[|order|] == fs && KeepsTime(g, order)
    decreases |g|
  {
    hide Replay, Interleaving, AllApart, DisjointCalls, Precedes, SerialRun, KeepsTime, Proj, Rest;
    if g == [] {
      order, trees := [], [fs0];
      SerialNothing(env, fs0);
    } else {
      var p, at := ChooseFirst(calls, g);
      PullFront(env, fs0, g, p);
      ReplayConcat(env, fs0, Proj(g, p), Events(Rest(g, p)));
      var fs1 := Replay(env, fs0, Proj(g, p)).value;
      InterleavingOfRest(calls, g, p);
      RestShrinks(g, p, at);
      var order1, trees1 := Serializable(env, calls, fs1, Rest(g, p), fs);
      order, trees := [p] + order1, [fs0] + trees1;
      ProjMembers(g, p, g[at].what);
      SerialCons(env, g, p, fs0, order1, trees1);
      TimeCons(g, p, order1);
    }
  }

  lemma {:induction false} SerialNothing(env: Env, fs0: Fs)
    ensures SerialRun(env, [], [], [fs0]) && KeepsTime([], [])
    ensures Replay(env, fs0, Events([])) == Some(fs0)
  {
  }

  lemma {:induction false} SerialCons(env: Env, g: seq<Tagged>, p: nat, fs0: Fs, order: seq<nat>, trees: seq<Fs>)
    requires SerialRun(env, Rest(g, p), order, trees) && Proj(g, p) != []
    requires Replay(env, fs0, Proj(g, p)) == Some(trees[0])
    ensures SerialRun(env, g, [p] + order, [fs0] + trees) && |trees| == |order| + 1 && p !in order && Distinct(order)
  {
    hide Replay, Proj, Rest;
    forall q ensures Proj(Rest(g, p), q) == if q == p then [] else Proj(g, q) { ProjOfRest(g, p, q); }
    assert p !in order;
    forall k | 0 <= k < |order| + 1
      ensures Replay(env, ([fs0] + trees)[k], Proj(g, ([p] + order)[k])) == Some(([fs0] + trees)[k + 1])
    {
      if k > 0 { assert order[k - 1] in order; }
    }
  }

  lemma {:induction false} RestShrinks(g: seq<Tagged>, p: nat, at: nat)
    requires at < |g| && g[at].who == p
    ensures |Rest(g, p)| < |g|
  {
    var n := |g| - 1;
    if at < n { RestShrinks(g[..n], p, at); } else { RestIsShort(g[..n], p); }
  }

  lemma {:induction false} RestIsShort(g: seq<Tagged>, p: nat)
    ensures |Rest(g, p)| <= |g|
  {
    if g != [] { RestIsShort(g[..|g| - 1], p); }
  }

  lemma {:induction false} CallRunIsRun(c: Ctx, es: seq<Event>)
    requires c.Valid()
    ensures CallRun(ApplyCall(c), es) == match Run(c, es) case Some(s) => Some(InApply(s)) case None => None
  {
    hide Step;
    if es != [] { CallRunIsRun(c, es[..|es| - 1]); }
  }

  /** So everything proved about one deployment on its own holds of each Apply among concurrent
      callers, between the two trees of its place in the serial order. */
  lemma {:induction false} EachApplyReaches(calls: seq<Call>, env: Env, g: seq<Tagged>, order: seq<nat>,
      trees: seq<Fs>, k: nat, s: St)
    requires AllValid(calls) && SerialRun(env, g, order, trees) && k < |order| && order[k] < |calls|
    requires calls[order[k]].ApplyCall? && calls[order[k]].c.env == env
    requires CallRun(calls[order[k]], Proj(g, order[k])) == Some(InApply(s))
    ensures Reaches(calls[order[k]].c, trees[k], Proj(g, order[k]), s, trees[k + 1])
  {
    hide Replay, Run, CallRun;
    CallRunIsRun(calls[order[k]].c, Proj(g, order[k]));
  }

  lemma {:induction false} CallRunIsWriteRun(c: Ctx, es: seq<Event>)
    requires OneFile(c)
    ensures CallRun(WriteCall(c), es) == match WriteRun(c, es) case Some(s) => Some(InWrite(s)) case None => None
  {
    hide WriteStep;
    if es != [] { CallRunIsWriteRun(c, es[..|es| - 1]); }
  }

  lemma {:induction false} EachWriteReaches(calls: seq<Call>, env: Env, g: seq<Tagged>, order: seq<nat>,
      trees: seq<Fs>, k: nat, s: WriteSt)
    requires AllValid(calls) && SerialRun(env, g, order, trees) && k < |order| && order[k] < |calls|
    requires calls[order[k]].WriteCall? && calls[order[k]].c.env == env
    requires CallRun(calls[order[k]], Proj(g, order[k])) == Some(InWrite(s))
    ensures WriteReaches(calls[order[k]].c, trees[k], Proj(g, order[k]), s, trees[k + 1])
  {
    hide Replay, WriteRun, CallRun;
    CallRunIsWriteRun(calls[order[k]].c, Proj(g, order[k]));
  }
}
