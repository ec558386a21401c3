/** The machine a deployment runs on. Each method is one system call: it may fail at will, but a
    success it reports has happened. The log records every call with its reply. */
module Host {
  import opened Text
  import opened Paths
  import opened Data
  import opened Os

  predicate SameDir(p: Path, q: Path) {
    DirLen(p) == DirLen(q) && p[..DirLen(p)] == q[..DirLen(q)]
  }

  /** A scan of the directory that keeps the names with the backup prefix finds exactly the backups. */
  lemma PrefixScanFindsBackups(d: Path, x: Path)
    ensures IsBackupOf(d, x) <==> SameDir(d, x) && d + BACKUP_SUFFIX <= x
  {
    if IsBackupOf(d, x) {
      assert d <= x;
      DirLenExtends(d, x);
      assert x[..DirLen(d)] == d[..DirLen(d)];
    }
    if SameDir(d, x) && d + BACKUP_SUFFIX <= x {
      NameHasNoSlash(x);
      assert x[|d|..] == x[DirLen(x)..][|d| - DirLen(x)..];
    }
  }

  class Host {
    const env: Env
    var fs: Fs
    ghost var log: seq<Event>
    ghost var prev: Fs  // the tree before the last call

    constructor (env: Env, fs: Fs)
      ensures this.env == env && this.fs == fs && log == []
    {
      this.env := env;
      this.fs := fs;
      this.log := [];
      this.prev := fs;
    }

    /** The call `e` was the last one made. */
    ghost predicate Last(e: Event)
      reads this
    {
      log != [] && log[|log| - 1] == e && Enabled(e, prev) && fs == Effect(env, e, prev)
    }

    twostate predicate Did(e: Event)
      reads this
    {
      prev == old(fs) && log == old(log) + [e] && Last(e)
    }

    method Lock(p: Path)
      modifies this
      ensures Did(Event.Lock(FileLock(p)))
    {
      prev, log := fs, log + [Event.Lock(FileLock(p))];
    }

    method Unlock(p: Path)
      modifies this
      ensures Did(Event.Unlock(FileLock(p)))
    {
      prev, log := fs, log + [Event.Unlock(FileLock(p))];
    }

    /** `ctx.Err()`; false once the context is cancelled. */
    method ContextLive() returns (live: bool)
      modifies this
      ensures Did(Context(live))
    {
      live := *;
      prev, log := fs, log + [Context(live)];
    }

    method Now() returns (t: Nanos) {
      t := *;
    }

    method ReadFile(p: Path) returns (got: Option<Bytes>)
      modifies this
      ensures Did(Event.ReadFile(p, got))
    {
      var fails := *;
      got := if p in fs && !fails then Some(fs[p].bytes) else None;
      prev, log := fs, log + [Event.ReadFile(p, got)];
    }

    method Stat(p: Path) returns (meta: Option<Meta>)
      modifies this
      ensures Did(Event.Stat(p, meta))
    {
      var fails := *;
      meta := if p in fs && !fails then Some(fs[p].meta) else None;
      prev, log := fs, log + [Event.Stat(p, meta)];
    }

    /** Open with O_CREATE|O_EXCL and mode 0600. */
    method CreateTemp(d: Path, at: Nanos) returns (ok: bool)
      modifies this
      ensures Did(Event.CreateTemp(d, at, ok))
    {
      var fails := *;
      ok := TempPath(d, at) !in fs && !fails;
      prev, log := fs, log + [Event.CreateTemp(d, at, ok)];
      fs := Effect(env, Event.CreateTemp(d, at, ok), fs);
    }

    /** The opening half of `os.WriteFile`: create or truncate. */
    method OpenBackup(d: Path, at: Nanos, perm: nat) returns (ok: bool)
      modifies this
      ensures Did(Event.OpenBackup(d, at, perm, ok))
    {
      ok := *;
      prev, log := fs, log + [Event.OpenBackup(d, at, perm, ok)];
      fs := Effect(env, Event.OpenBackup(d, at, perm, ok), fs);
    }

    /** A failed write may have written any prefix. */
    method Write(p: Path, data: Bytes) returns (n: nat, ok: bool)
      modifies this
      ensures Did(Event.Write(p, data, n, ok))
    {
      var fails := *;
      ok := p in fs && !fails;
      if ok { n := |data|; } else { n :| 0 <= n <= |data|; }
      prev, log := fs, log + [Event.Write(p, data, n, ok)];
      fs := Effect(env, Event.Write(p, data, n, ok), fs);
    }

    method Sync(p: Path) returns (ok: bool)
      modifies this
      ensures Did(Event.Sync(p, ok))
    {
      ok := *;
      prev, log := fs, log + [Event.Sync(p, ok)];
    }

    method Close(p: Path) returns (ok: bool)
      modifies this
      ensures Did(Event.Close(p, ok))
    {
      ok := *;
      prev, log := fs, log + [Event.Close(p, ok)];
    }

    method Chmod(p: Path, mode: nat) returns (ok: bool)
      modifies this
      ensures Did(Event.Chmod(p, mode, ok))
    {
      var fails := *;
      ok := p in fs && !fails;
      prev, log := fs, log + [Event.Chmod(p, mode, ok)];
      fs := Effect(env, Event.Chmod(p, mode, ok), fs);
    }

    method Chown(p: Path, uid: nat, gid: nat) returns (ok: bool)
      modifies this
      ensures Did(Event.Chown(p, uid, gid, ok))
    {
      var fails := *;
      ok := p in fs && !fails;
      prev, log := fs, log + [Event.Chown(p, uid, gid, ok)];
      fs := Effect(env, Event.Chown(p, uid, gid, ok), fs);
    }

    method Remove(p: Path) returns (r: Removal)
      modifies this
      ensures Did(Event.Remove(p, r))
    {
      var fails := *;
      r := if fails then Refused else if p in fs then Removed else Missing;
      prev, log := fs, log + [Event.Remove(p, r)];
      fs := Effect(env, Event.Remove(p, r), fs);
    }

    method Rename(from: Path, to: Path) returns (ok: bool)
      modifies this
      ensures Did(Event.Rename(from, to, ok))
    {
      var fails := *;
      ok := from in fs && !fails;
      prev, log := fs, log + [Event.Rename(from, to, ok)];
      fs := Effect(env, Event.Rename(from, to, ok), fs);
    }

    /** `os.ReadDir` on the directory of `d`. Of the entries only the backups of `d` matter to the
        caller; the log records those. */
    method ReadDir(d: Path) returns (entries: Option<seq<Path>>)
      modifies this
      ensures entries.Some? ==> Distinct(entries.value) && forall x :: x in entries.value <==> x in fs && SameDir(d, x)
      ensures Did(ListBackups(d, if entries.Some? then Some(BackupNames(d, entries.value)) else None))
    {
      var fails := *;
      if fails {
        entries := None;
        prev, log := fs, log + [ListBackups(d, None)];
      } else {
        var names := [];
        var rest := set x | x in fs && SameDir(d, x);
        while rest != {}
          invariant Distinct(names) && (forall x | x in names :: x !in rest)
          invariant forall x :: x in fs && SameDir(d, x) <==> x in names || x in rest
          decreases rest
        {
          var x :| x in rest;
          names, rest := names + [x], rest - {x};
        }
        entries := Some(names);
        BackupNamesList(fs, d, names);
        prev, log := fs, log + [ListBackups(d, Some(BackupNames(d, names)))];
      }
    }

    method PreCommit(temps: map<Path, Path>) returns (ok: bool)
      modifies this
      ensures Did(Event.PreCommit(temps, ok))
    {
      ok := *;
      prev, log := fs, log + [Event.PreCommit(temps, ok)];
    }

    method PostCommit() returns (ok: bool)
      modifies this
      ensures Did(Event.PostCommit(ok))
    {
      ok := *;
      prev, log := fs, log + [Event.PostCommit(ok)];
    }

    /** A decision that needs no system call. */
    ghost method Decide()
      modifies this
      ensures Did(Internal)
    {
      prev, log := fs, log + [Internal];
    }
  }

  /** The directory entries with the backup prefix of `d`, in the order found. */
  function BackupNames(d: Path, entries: seq<Path>): seq<Path> {
    if entries == [] then []
    else
      var n := |entries| - 1;
      var before := BackupNames(d, entries[..n]);
      if d + BACKUP_SUFFIX <= entries[n] then before + [entries[n]] else before
  }

  lemma {:induction false} BackupNamesMembers(d: Path, entries: seq<Path>, x: Path)
    ensures x in BackupNames(d, entries) <==> x in entries && d + BACKUP_SUFFIX <= x
  {
    if entries != [] {
      var n := |entries| - 1;
      BackupNamesMembers(d, entries[..n], x);
      assert entries == entries[..n] + [entries[n]];
    }
  }

  lemma {:induction false} BackupNamesDistinct(d: Path, entries: seq<Path>)
    requires Distinct(entries)
    ensures Distinct(BackupNames(d, entries))
  {
    if entries != [] {
      var n := |entries| - 1;
      BackupNamesDistinct(d, entries[..n]);
      BackupNamesMembers(d, entries[..n], entries[n]);
    }
  }

  lemma {:induction false} BackupNamesList(fs: Fs, d: Path, entries: seq<Path>)
    requires Distinct(entries) && forall x :: x in entries <==> x in fs && SameDir(d, x)
    ensures Lists(BackupNames(d, entries), Backups(fs, d))
  {
    BackupNamesDistinct(d, entries);
    forall x ensures x in BackupNames(d, entries) <==> x in Backups(fs, d) {
      BackupNamesMembers(d, entries, x);
      PrefixScanFindsBackups(d, x);
    }
  }
}
