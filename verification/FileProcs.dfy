/** The file-level procedures of the deploy package, as programs on a host. Each is proved to make
    exactly the calls of its automaton. */
module FileProcs {
  import opened Text
  import opened Paths
  import opened Data
  import opened Os
  import opened Ownership
  import opened FileOps
  import opened ApplyProtocol
  import opened Host

  /** `es` are the calls made since the tree was `fs1`. */
  ghost predicate Made(h: Host, fs1: Fs, es: seq<Event>)
    reads h
  {
    Replay(h.env, fs1, es) == Some(h.fs)
  }

  /** Appends the last call to the calls made so far. */
  lemma Record(h: Host, e: Event, fs1: Fs, es: seq<Event>) returns (es': seq<Event>)
    requires h.Last(e) && Replay(h.env, fs1, es) == Some(h.prev)
    ensures es' == es + [e] && Made(h, fs1, es')
  {
    es' := es + [e];
    ReplaySnoc(h.env, fs1, es, e);
  }

  lemma {:induction false} RunsBegin(env: Env, fs: Fs, d: Path, data: Bytes, o: Resolved)
    ensures Replay(env, fs, []) == Some(fs)
    ensures StageRun(env, d, data, o, []) == Staging(Opening) && CopyRun(d, []) == Copying(Reading)
  {
  }

  /** Write, fsync and close a temp file that was just created. */
  lemma FillSteps(env: Env, t: Path, data: Bytes, d: Path, o: Resolved, n: nat)
    ensures forall ok ::
      && StageStep(env, d, data, o, Writing(t), Event.Write(t, data, n, ok))
        == Staging(if ok then Syncing(t) else Discarding(t))
      && StageStep(env, d, data, o, Syncing(t), Event.Sync(t, ok)) == Staging(if ok then Closing(t) else Discarding(t))
      && StageStep(env, d, data, o, Closing(t), Event.Close(t, ok))
        == (if ok then AfterClose(o, t) else Staging(Discarding(t)))
  {
  }

  method FillTemp(h: Host, t: Path, data: Bytes, ghost d: Path, ghost o: Resolved, ghost before: seq<Event>)
      returns (done: bool, ghost es: seq<Event>)
    requires StageRun(h.env, d, data, o, before) == Staging(Writing(t))
    modifies h
    ensures h.log == old(h.log) + es && Made(h, old(h.fs), es)
    ensures StageRun(h.env, d, data, o, before + es) == (if done then AfterClose(o, t) else Staging(Discarding(t)))
  {
    hide Sibling, MadeBackup, MadeTemp, Effect, Enabled, Replay, StageRun, StageStep;
    ghost var fs1 := h.fs;
    ReplayNothing(h.env, fs1);
    var n, wrote := h.Write(t, data);
    FillSteps(h.env, t, data, d, o, n);
    es := RecordStage(h, Event.Write(t, data, n, wrote), fs1, [], d, data, o, before);
    if !wrote { return false, es; }
    var synced := h.Sync(t);
    es := RecordStage(h, Event.Sync(t, synced), fs1, es, d, data, o, before);
    if !synced { return false, es; }
    done := h.Close(t);
    es := RecordStage(h, Event.Close(t, done), fs1, es, d, data, o, before);
  }

  lemma RecordStage(h: Host, e: Event, fs1: Fs, es: seq<Event>, d: Path, data: Bytes, o: Resolved, before: seq<Event>)
      returns (es': seq<Event>)
    requires h.Last(e) && Replay(h.env, fs1, es) == Some(h.prev)
    ensures es' == es + [e] && Made(h, fs1, es')
    ensures StageRun(h.env, d, data, o, before + es') ==
            var r := StageRun(h.env, d, data, o, before + es);
            if r.Staging? then StageStep(h.env, d, data, o, r.stage, e) else Wrong
    ensures before + [] == before
  {
    es' := Record(h, e, fs1, es);
    StageRunSnoc(h.env, d, data, o, before + es, e);
    assert before + es' == (before + es) + [e];
  }

  method WriteTempFile(h: Host, d: Path, data: Bytes, ghost o: Resolved)
      returns (temp: Option<Path>, ghost es: seq<Event>)
    modifies h
    ensures h.log == old(h.log) + es && Made(h, old(h.fs), es)
    ensures StageRun(h.env, d, data, o, es) == (if temp.Some? then AfterClose(o, temp.value) else NoTemp)
  {
    hide Sibling, MadeBackup, MadeTemp, Effect, Enabled, TempPath, Replay, StageRun;
    ghost var fs1 := h.fs;
    RunsBegin(h.env, fs1, d, data, o);
    var at := h.Now();
    var t := TempPath(d, at);
    var ok := h.CreateTemp(d, at);
    StageRunSnoc(h.env, d, data, o, [], Event.CreateTemp(d, at, ok));
    es := Record(h, Event.CreateTemp(d, at, ok), fs1, []);
    if !ok { return None, es; }
    var done;
    ghost var more;
    done, more := FillTemp(h, t, data, d, o, es);
    ReplayConcat(h.env, fs1, es, more);
    es := es + more;
    if done { return Some(t), es; }
    var r := h.Remove(t);
    StageRunSnoc(h.env, d, data, o, es, Event.Remove(t, r));
    es := Record(h, Event.Remove(t, r), fs1, es);
    return None, es;
  }

  method ApplyOwnership(h: Host, t: Path, o: Resolved, ghost d: Path, ghost data: Bytes, ghost before: seq<Event>)
      returns (done: bool, ghost es: seq<Event>)
    requires StageRun(h.env, d, data, o, before) == AfterClose(o, t)
    modifies h
    ensures h.log == old(h.log) + es && Made(h, old(h.fs), es)
    ensures StageRun(h.env, d, data, o, before + es) == (if done then Ready(t) else Unowned(t))
  {
    hide Sibling, MadeBackup, MadeTemp, Effect, Enabled, Replay, StageRun;
    ghost var fs1 := h.fs;
    es := [];
    ReplayNothing(h.env, fs1);
    assert before + es == before;
    if o.modeSet {
      var ok := h.Chmod(t, o.mode);
      StageRunSnoc(h.env, d, data, o, before, Event.Chmod(t, o.mode, ok));
      es := Record(h, Event.Chmod(t, o.mode, ok), fs1, es);
      assert before + es == before + [Event.Chmod(t, o.mode, ok)];
      if !ok { return false, es; }
    }
    if o.uid >= 0 && o.gid >= 0 {
      var ok := h.Chown(t, o.uid, o.gid);
      var e := Event.Chown(t, o.uid, o.gid, ok);
      StageRunSnoc(h.env, d, data, o, before + es, e);
      assert before + (es + [e]) == (before + es) + [e];
      es := Record(h, e, fs1, es);
      if !ok && h.env.root { return false, es; }
    }
    return true, es;
  }

  lemma RecordCopy(h: Host, e: Event, fs1: Fs, es: seq<Event>, d: Path, before: seq<Event>) returns (es': seq<Event>)
    requires h.Last(e) && Replay(h.env, fs1, es) == Some(h.prev)
    ensures es' == es + [e] && Made(h, fs1, es')
    ensures CopyRun(d, before + es') ==
            var r := CopyRun(d, before + es);
            if r.Copying? then CopyStep(d, r.copy, e) else BadCall
    ensures before + [] == before
  {
    es' := Record(h, e, fs1, es);
    CopyRunSnoc(d, before + es, e);
    assert before + es' == (before + es) + [e];
  }

  /** `os.WriteFile` for a backup: open, write, close. */
  method WriteFile(h: Host, d: Path, at: Nanos, src: Bytes, perm: nat, ghost meta: Meta, ghost before: seq<Event>)
      returns (done: bool, ghost es: seq<Event>)
    requires CopyRun(d, before) == Copying(OpeningCopy(src, meta)) && perm == Perm(meta.mode)
    modifies h
    ensures h.log == old(h.log) + es && Made(h, old(h.fs), es)
    ensures CopyRun(d, before + es) == (if done then Copying(Gifting(src, meta, BackupPath(d, at))) else NoCopy)
  {
    hide Sibling, MadeBackup, MadeTemp, Effect, Enabled, BackupPath, Replay, CopyRun;
    ghost var fs1 := h.fs;
    ReplayNothing(h.env, fs1);
    var b := BackupPath(d, at);
    var made := h.OpenBackup(d, at, perm);
    es := RecordCopy(h, Event.OpenBackup(d, at, perm, made), fs1, [], d, before);
    if !made { return false, es; }
    var n, wrote := h.Write(b, src);
    es := RecordCopy(h, Event.Write(b, src, n, wrote), fs1, es, d, before);
    if !wrote { return false, es; }
    done := h.Close(b);
    es := RecordCopy(h, Event.Close(b, done), fs1, es, d, before);
  }

  /** backupFile: a backup that was not there before is a copy of the destination, with its permission
      bits under the umask and, if the chown was granted, its owner. */
  method BackupFile(h: Host, d: Path) returns (backup: Option<Path>, ghost es: seq<Event>)
    modifies h
    ensures h.log == old(h.log) + es && Made(h, old(h.fs), es)
    ensures CopyRun(d, es) == (if backup.Some? then Copied(backup.value) else NoCopy)
    ensures backup.Some? ==> Duplicated(h.env, old(h.fs), d, es, h.fs, backup.value)
  {
    hide Sibling, MadeBackup, MadeTemp, Effect, Enabled, BackupPath, Replay, CopyRun, Duplicated;
    ghost var fs1 := h.fs;
    RunsBegin(h.env, fs1, d, [], Resolved(0, false, -1, -1));
    var src := h.ReadFile(d);
    CopyRunSnoc(d, [], Event.ReadFile(d, src));
    es := Record(h, Event.ReadFile(d, src), fs1, []);
    if src.None? { return None, es; }
    var stat := h.Stat(d);
    CopyRunSnoc(d, es, Event.Stat(d, stat));
    es := Record(h, Event.Stat(d, stat), fs1, es);
    if stat.None? { return None, es; }
    var at := h.Now();
    var done;
    ghost var more;
    done, more := WriteFile(h, d, at, src.value, Perm(stat.value.mode), stat.value, es);
    ReplayConcat(h.env, fs1, es, more);
    es := es + more;
    if !done { return None, es; }
    var b := BackupPath(d, at);
    var owned := h.Chown(b, stat.value.uid, stat.value.gid);
    CopyRunSnoc(d, es, Event.Chown(b, stat.value.uid, stat.value.gid, owned));
    es := Record(h, Event.Chown(b, stat.value.uid, stat.value.gid, owned), fs1, es);
    CopyComplete(h.env, fs1, d, es, h.fs, b);
    return Some(b), es;
  }

  /** `es` removes the names `todo`, one after the other. */
  ghost predicate Removals(todo: seq<Path>, es: seq<Event>) {
    |es| == |todo| && forall k | 0 <= k < |es| :: es[k].Remove? && es[k].path == todo[k]
  }

  /** The calls of pruneBackups: one scan, then the removal of what falls out of the window. */
  ghost predicate Prunes(d: Path, keep: nat, es: seq<Event>) {
    && es != [] && es[0].ListBackups? && es[0].dest == d
    && Removals(if es[0].names.None? then [] else Doomed(es[0].names.value, keep), es[1..])
  }

  method PruneBackups(h: Host, d: Path, keep: nat) returns (ghost es: seq<Event>)
    requires keep > 0
    modifies h
    ensures h.log == old(h.log) + es && Made(h, old(h.fs), es) && Prunes(d, keep, es)
  {
    hide Sibling, MadeBackup, MadeTemp, Effect, Enabled, Replay, Sort;
    ghost var fs1 := h.fs;
    es := [];
    ReplayNothing(h.env, fs1);
    var entries := h.ReadDir(d);
    ghost var scan := ListBackups(d, if entries.Some? then Some(BackupNames(d, entries.value)) else None);
    es := Record(h, scan, fs1, es);
    if entries.None? { return; }
    var matches: seq<Path> := [];
    for i := 0 to |entries.value|
      invariant matches == BackupNames(d, entries.value[..i])
    {
      assert entries.value[..i + 1][..i] == entries.value[..i];
      if d + BACKUP_SUFFIX <= entries.value[i] {
        matches := matches + [entries.value[i]];
      }
    }
    assert entries.value[..|entries.value|] == entries.value;
    if |matches| <= keep { return; }
    var sorted := Sort(matches);
    var todo := sorted[..|matches| - keep];
    for k := 0 to |todo|
      invariant |es| == k + 1 && es[0] == scan && Removals(todo[..k], es[1..])
      invariant h.log == old(h.log) + es && Made(h, fs1, es)
    {
      var r := h.Remove(todo[k]);
      es := Record(h, Event.Remove(todo[k], r), fs1, es);
    }
    assert todo[..|todo|] == todo;
  }
}
