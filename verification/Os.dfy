/** The operating system as a deployment sees it: a file tree, and the calls made on it
    together with their replies. Every call may fail; a reply that claims success is truthful. */
module Os {
  import opened Data
  import opened Text
  import opened Paths

  datatype Meta = Meta(mode: nat, uid: nat, gid: nat)
  datatype Node = Node(bytes: Bytes, meta: Meta)
  type Fs = map<Path, Node>

  const OWNER_RW: nat := 0x180  // 0600

  /** What the process and the machine contribute: the effective user, the umask, the user
      database, path resolution and the hash function. */
  datatype Env = Env(
    root: bool,
    uid: nat,
    gid: nat,
    masked: nat -> nat,
    uidOf: string -> Option<int>,
    gidOf: string -> Option<int>,
    abs: string -> Option<Path>,
    digest: Bytes -> int)

  datatype LockId = TargetLock(id: string) | FileLock(path: Path)

  datatype Removal = Removed | Missing | Refused

  /** One call and its reply. `ok` is false, or the reply absent, when the call failed. */
  datatype Event =
    | Lock(lock: LockId)
    | Unlock(lock: LockId)
    | Context(live: bool)
    | ReadFile(path: Path, got: Option<Bytes>)
    | Stat(path: Path, meta: Option<Meta>)
    | CreateTemp(dest: Path, at: Nanos, ok: bool)
    | OpenBackup(dest: Path, at: Nanos, perm: nat, ok: bool)
    | Write(path: Path, data: Bytes, written: nat, ok: bool)
    | Sync(path: Path, ok: bool)
    | Close(path: Path, ok: bool)
    | Chmod(path: Path, mode: nat, ok: bool)
    | Chown(path: Path, uid: nat, gid: nat, ok: bool)
    | Remove(path: Path, reply: Removal)
    | Rename(from: Path, to: Path, ok: bool)
    | ListBackups(dest: Path, names: Option<seq<Path>>)
    | PreCommit(temps: map<Path, Path>, ok: bool)
    | PostCommit(ok: bool)
    | Internal  // a local decision; no call is made

  /** The files that a directory scan for backups of `d` reports. */
  function Backups(fs: Fs, d: Path): set<Path> {
    set x | x in fs && IsBackupOf(d, x)
  }

  ghost predicate Lists(names: seq<Path>, found: set<Path>) {
    Distinct(names) && forall x :: x in names <==> x in found
  }

  /** Can the call `e` be answered as it says in `fs`? */
  ghost predicate Enabled(e: Event, fs: Fs) {
    match e
    case ReadFile(p, got) => got.Some? ==> p in fs && fs[p].bytes == got.value
    case Stat(p, meta) => meta.Some? ==> p in fs && fs[p].meta == meta.value
    case CreateTemp(d, t, ok) => ok ==> TempPath(d, t) !in fs
    case Write(p, data, n, ok) => n <= |data| && (ok ==> p in fs && n == |data|)
    case Chmod(p, _, ok) => ok ==> p in fs
    case Chown(p, _, _, ok) => ok ==> p in fs
    case Remove(p, r) => (r.Removed? ==> p in fs) && (r.Missing? ==> p !in fs)
    case Rename(from, _, ok) => ok ==> from in fs
    case ListBackups(d, names) => names.Some? ==> Lists(names.value, Backups(fs, d))
    case _ => true
  }

  function Fresh(env: Env, perm: nat): Node {
    Node([], Meta(env.masked(perm), env.uid, env.gid))
  }

  function Effect(env: Env, e: Event, fs: Fs): Fs
    requires Enabled(e, fs)
  {
    match e
    case CreateTemp(d, t, ok) =>
      if ok then fs[TempPath(d, t) := Fresh(env, OWNER_RW)] else fs
    case OpenBackup(d, t, perm, ok) =>
      var b := BackupPath(d, t);
      if !ok then fs
      else if b in fs then fs[b := fs[b].(bytes := [])]
      else fs[b := Fresh(env, perm)]
    case Write(p, data, n, _) => if p in fs then fs[p := fs[p].(bytes := data[..n])] else fs
    case Chmod(p, mode, ok) => if ok then fs[p := fs[p].(meta := fs[p].meta.(mode := mode))] else fs
    case Chown(p, uid, gid, ok) =>
      if ok then fs[p := fs[p].(meta := fs[p].meta.(uid := uid, gid := gid))] else fs
    case Remove(p, r) => if r.Removed? then fs - {p} else fs
    case Rename(from, to, ok) => if ok then (fs - {from})[to := fs[from]] else fs
    case _ => fs
  }

  /** The paths on which the answer or the effect of `e` depends, and which it may change. */
  predicate Touches(e: Event, x: Path) {
    match e
    case ReadFile(p, _) => x == p
    case Stat(p, _) => x == p
    case CreateTemp(d, t, _) => x == TempPath(d, t)
    case OpenBackup(d, t, _, _) => x == BackupPath(d, t)
    case Write(p, _, _, _) => x == p
    case Chmod(p, _, _) => x == p
    case Chown(p, _, _, _) => x == p
    case Remove(p, _) => x == p
    case Rename(from, to, _) => x == from || x == to
    case ListBackups(d, _) => IsBackupOf(d, x)
    case _ => false
  }

  predicate Same(fs: Fs, fs': Fs, x: Path) {
    (x in fs <==> x in fs') && (x in fs ==> fs[x] == fs'[x])
  }

  lemma EffectIsLocal(env: Env, e: Event, fs: Fs, x: Path)
    requires Enabled(e, fs) && !Touches(e, x)
    ensures Same(fs, Effect(env, e, fs), x)
  {
  }

  lemma AnswerIsLocal(env: Env, e: Event, fs: Fs, fs': Fs)
    requires Enabled(e, fs)
    requires forall x | Touches(e, x) :: Same(fs, fs', x)
    ensures Enabled(e, fs')
    ensures forall x | Touches(e, x) :: Same(Effect(env, e, fs), Effect(env, e, fs'), x)
  {
    match e
    case ListBackups(d, names) =>
      assert forall x | IsBackupOf(d, x) :: Touches(e, x);
      assert Backups(fs, d) == Backups(fs', d);
    case ReadFile(p, _) => assert Touches(e, p);
    case Stat(p, _) => assert Touches(e, p);
    case CreateTemp(d, t, _) => assert Touches(e, TempPath(d, t));
    case OpenBackup(d, t, _, _) => assert Touches(e, BackupPath(d, t));
    case Write(p, _, _, _) => assert Touches(e, p);
    case Chmod(p, _, _) => assert Touches(e, p);
    case Chown(p, _, _, _) => assert Touches(e, p);
    case Remove(p, _) => assert Touches(e, p);
    case Rename(from, to, _) => assert Touches(e, from) && Touches(e, to);
    case _ =>
  }

  /** The tree after a whole sequence of calls, if every reply was possible when it was given. */
  ghost function Replay(env: Env, fs: Fs, es: seq<Event>): Option<Fs> {
    if es == [] then Some(fs)
    else
      var n := |es| - 1;
      var before := Replay(env, fs, es[..n]);
      if before.Some? && Enabled(es[n], before.value)
      then Some(Effect(env, es[n], before.value)) else None
  }

  lemma {:induction false} ReplayNothing(env: Env, fs: Fs)
    ensures Replay(env, fs, []) == Some(fs)
  {
  }

  lemma {:induction false} ReplaySnoc(env: Env, fs: Fs, es: seq<Event>, e: Event)
    ensures Replay(env, fs, es + [e]) ==
            var before := Replay(env, fs, es);
            if before.Some? && Enabled(e, before.value) then Some(Effect(env, e, before.value)) else None
  {
    assert (es + [e])[..|es|] == es;
  }

  lemma {:induction false} ReplayConcat(env: Env, fs: Fs, es: seq<Event>, gs: seq<Event>)
    ensures Replay(env, fs, es + gs) ==
            var mid := Replay(env, fs, es);
            if mid.Some? then Replay(env, mid.value, gs) else None
  {
    if gs == [] {
      assert es + gs == es;
    } else {
      var n := |gs| - 1;
      ReplayConcat(env, fs, es, gs[..n]);
      assert es + gs == (es + gs[..n]) + [gs[n]];
      ReplaySnoc(env, fs, es + gs[..n], gs[n]);
    }
  }
}
