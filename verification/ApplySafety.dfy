/** What every reachable state of one deployment guarantees about the file tree. */
module ApplySafety {
  import opened Text
  import opened Paths
  import opened Data
  import opened Os
  import opened Ownership
  import opened FileOps
  import opened ApplyProtocol

  // ----- which destinations a claim can be made of -----

  /** The paths that Apply writes for the destination `d`, apart from pruning. */
  ghost predicate Handles(c: Ctx, d: Path, x: Path) {
    x == d || MadeTemp(d, x) || (c.plan.retention != NO_BACKUPS && MadeBackup(d, x))
  }

  /** Destination `j` is not written for the sake of another one, nor another one for its sake. */
  ghost predicate Clear(c: Ctx, j: nat)
    requires j < |c.targets|
  {
    forall i | 0 <= i < |c.targets| && i != j ::
      !Handles(c, c.targets[i], c.targets[j]) && !Handles(c, c.targets[j], c.targets[i])
  }

  ghost predicate AllClear(c: Ctx) {
    forall j | 0 <= j < |c.targets| :: Clear(c, j)
  }

  /** Pruning does not take destination `j` for a backup of another one. */
  ghost predicate Spared(c: Ctx, j: nat)
    requires j < |c.targets|
  {
    c.Keep() > 0 ==> forall i | 0 <= i < |c.targets| && i != j :: !IsBackupOf(c.targets[i], c.targets[j])
  }

  predicate PruningBegan(pc: Pc) {
    pc.Listing? || pc.Pruning? || ((pc.Unlocking? || pc.Done?) && pc.out.error.None? && pc.out != Skipped())
  }

  ghost predicate Covered(c: Ctx, pc: Pc, j: nat)
    requires j < |c.targets|
  {
    Clear(c, j) && (PruningBegan(pc) ==> Spared(c, j))
  }

  /** What is written for two destinations that are clear of each other is never the same path. */
  lemma HandledByOne(c: Ctx, i: nat, j: nat, x: Path)
    requires c.Valid() && i < c.N() && j < c.N() && i != j && Clear(c, j)
    ensures !(Handles(c, c.targets[i], x) && Handles(c, c.targets[j], x))
  {
    hide Sibling, MadeBackup, MadeTemp, Targets;
    TargetsIff(c.env, c.plan.files);
    var d, d' := c.targets[i], c.targets[j];
    MadeForOne(d, d', x);
    MadeForOne(d', d, x);
  }

  /** Destination `j` shares no name at all, stamped or not, with what belongs to the others. */
  ghost predicate Alone(ts: seq<Path>, j: nat)
    requires j < |ts|
  {
    forall i | 0 <= i < |ts| && i != j :: Apart(ts[i], ts[j])
  }

  lemma AloneIsClear(c: Ctx, j: nat)
    requires c.Valid() && j < c.N() && Alone(c.targets, j)
    ensures Clear(c, j) && Spared(c, j)
  {
    hide Sibling, MadeBackup, MadeTemp, Targets, Apart;
    TargetsIff(c.env, c.plan.files);
    var d := c.targets[j];
    forall i | 0 <= i < c.N() && i != j
      ensures !Handles(c, c.targets[i], d) && !Handles(c, d, c.targets[i]) && !IsBackupOf(c.targets[i], d)
    {
      ApartIsEnough(c.targets[i], d, d);
      ApartIsEnough(c.targets[i], d, c.targets[i]);
    }
  }

  // ----- one destination, seen from the control state -----

  /** Which contents a destination may have: the old node untouched, the new bytes,
      or the old contents put back by a rollback. */
  datatype Contents = Contents(old_: bool, new_: bool, back: bool)

  const OLD := Contents(true, false, false)
  const NEW := Contents(false, true, false)
  const BACK := Contents(false, false, true)
  const NEW_OR_BACK := Contents(false, true, true)
  const ANY := Contents(true, true, true)

  /** Has the backup been taken: no claim, not yet, completely, or taken but perhaps pruned. */
  datatype Saved = Unclaimed | NotYet | Complete | Named

  datatype Work =
    | Quiet
    | Matched
    | CopyingOut(copy: Copy)
    | WritingTemp(stage: Stage)
    | TempReady
    | PuttingBack(undo: Undo)

  datatype View = View(dest: Contents, saved: Saved, work: Work)

  function Final(out: Outcome): Contents {
    if out.error.None? then (if out.result.Some? && !out.result.value.skipped then NEW else OLD)
    else match out.error.value
      case RenameFailed => Contents(true, false, true)
      case ReloadFailed => BACK
      case RollbackFailed => ANY
      case _ => OLD
  }

  function ViewOf(c: Ctx, pc: Pc, j: nat): View
    requires j < |c.plan.files|
  {
    match pc
    case Locking(_) => View(OLD, NotYet, Quiet)
    case Checking => View(OLD, NotYet, Quiet)
    case Comparing(i) => View(OLD, NotYet, if j < i then Matched else Quiet)
    case Statting(_) => View(OLD, NotYet, Quiet)
    case BackupHead(i) => View(OLD, if j < i then Complete else NotYet, Quiet)
    case BackingUp(i, copy) =>
      View(OLD, if j < i then Complete else NotYet, if j == i then CopyingOut(copy) else Quiet)
    case DroppingBackups(_) => View(OLD, Unclaimed, Quiet)
    case StagingFile(i, stage) =>
      View(OLD, Complete, if j < i then TempReady else if j == i then WritingTemp(stage) else Quiet)
    case Validating => View(OLD, Complete, TempReady)
    case Renaming(i) => View(if j < i then NEW else OLD, Complete, if j < i then Quiet else TempReady)
    case DroppingTemps(_, cause) =>
      View(match cause
           case Abort(_) => OLD
           case Partial(upto, failed) => if j >= upto then OLD else if failed then NEW_OR_BACK else BACK,
           Complete, Quiet)
    case Restoring(i, undo, upto, failed, _) =>
      View(if j >= upto then OLD else if j >= i then NEW else if failed then NEW_OR_BACK else BACK,
           Complete, if j == i && j < upto then PuttingBack(undo) else Quiet)
    case Reloading => View(NEW, Complete, Quiet)
    case ReloadingOld => View(BACK, Complete, Quiet)
    case Listing(_) => View(NEW, Named, Quiet)
    case Pruning(_, _) => View(NEW, Named, Quiet)
    case Unlocking(_, out) => ViewOut(out)
    case Done(out) => ViewOut(out)
  }

  function ViewOut(out: Outcome): View {
    View(Final(out),
         if out.result.None? || out == Skipped() then Unclaimed else if out.error.Some? then Complete else Named,
         if out == Skipped() then Matched else Quiet)
  }

  /** Was this destination copied to a backup? */
  predicate Backed(c: Ctx, p: Prep) {
    p.hadOrig && c.plan.retention != NO_BACKUPS
  }

  predicate IsNew(c: Ctx, fs: Fs, d: Path, f: File, p: Prep) {
    d in fs && Placed(c.env, fs[d], f.bytes, p.owner)
  }

  predicate IsBack(c: Ctx, fs0: Fs, fs: Fs, d: Path, p: Prep) {
    if Backed(c, p) then d in fs0 && d in fs && Placed(c.env, fs[d], fs0[d].bytes, p.owner) else d !in fs
  }

  ghost predicate PrepHolds(c: Ctx, fs0: Fs, d: Path, f: File, p: Prep) {
    && PrepNames(d, p)
    && (p.hadOrig ==> d in fs0)
    && Resolve(c.env, f, c.plan.defaults, if p.hadOrig then Some(fs0[d].meta) else None) == Some(p.owner)
  }

  predicate SavedHolds(c: Ctx, fs0: Fs, fs: Fs, d: Path, p: Prep, v: Saved) {
    match v
    case Unclaimed => true
    case NotYet => p.backup.None?
    case Named => p.backup.Some? <==> Backed(c, p)
    case Complete =>
      if Backed(c, p)
      then d in fs0 && p.backup.Some? && p.backup.value in fs && fs[p.backup.value].bytes == fs0[d].bytes
      else p.backup.None?
  }

  ghost predicate UndoHolds(c: Ctx, fs0: Fs, fs: Fs, d: Path, p: Prep, u: Undo) {
    match u
    case Choosing => true
    case Deleting => !Backed(c, p)
    case Fetching => Backed(c, p)
    case Rewriting(data, stage) =>
      Backed(c, p) && d in fs0 && data == fs0[d].bytes && StageNames(d, stage)
        && StageOk(c.env, data, p.owner, fs, stage)
    case Swapping(t) =>
      Backed(c, p) && d in fs0 && MadeTemp(d, t) && t in fs && Placed(c.env, fs[t], fs0[d].bytes, p.owner)
    case Scrapping(_) => true
  }

  /** The destination already had the planned contents, as far as the hash can tell. */
  predicate IsMatch(c: Ctx, fs: Fs, d: Path, f: File) {
    d in fs && SameDigest(c.env, fs[d].bytes, f.bytes)
  }

  ghost predicate WorkHolds(c: Ctx, fs0: Fs, fs: Fs, d: Path, f: File, p: Prep, w: Work) {
    match w
    case Quiet => true
    case Matched => IsMatch(c, fs, d, f)
    case CopyingOut(copy) => d in fs0 && Backed(c, p) && CopyNames(d, copy) && CopyOk(fs0[d].bytes, fs, copy)
    case WritingTemp(stage) => StageNames(d, stage) && StageOk(c.env, f.bytes, p.owner, fs, stage)
    case TempReady => p.temp.Some? && p.temp.value in fs && Placed(c.env, fs[p.temp.value], f.bytes, p.owner)
    case PuttingBack(u) => UndoHolds(c, fs0, fs, d, p, u)
  }

  /** What the control state claims about one destination holds of the tree. */
  ghost predicate Holds(c: Ctx, fs0: Fs, fs: Fs, d: Path, f: File, p: Option<Prep>, v: View) {
    match p
    case None => v.dest.old_ && Same(fs0, fs, d) && v.saved != Complete
      && (v.work == Quiet || (v.work == Matched && IsMatch(c, fs, d, f)))
    case Some(p) =>
      && ((v.dest.old_ && Same(fs0, fs, d)) || (v.dest.new_ && IsNew(c, fs, d, f, p))
        || (v.dest.back && IsBack(c, fs0, fs, d, p)))
      && PrepHolds(c, fs0, d, f, p)
      && SavedHolds(c, fs0, fs, d, p, v.saved)
      && WorkHolds(c, fs0, fs, d, f, p, v.work)
  }

  predicate Weaker(w: View, v: View) {
    && (v.dest.old_ ==> w.dest.old_) && (v.dest.new_ ==> w.dest.new_) && (v.dest.back ==> w.dest.back)
    && (w.saved == Unclaimed || w.saved == v.saved || (w.saved == Named && v.saved == Complete))
    && (w.work == Quiet || w.work == v.work
        || (v.saved == Complete && (w.work == WritingTemp(Opening) || w.work == PuttingBack(Choosing))))
  }

  /** Claims about one destination survive whatever happens to other paths; without a backup or
      work in progress nothing but the destination itself matters. */
  lemma HoldsFrame(c: Ctx, fs0: Fs, fs: Fs, fs': Fs, d: Path, f: File, p: Option<Prep>, v: View, w: View)
    requires Holds(c, fs0, fs, d, f, p, v) && Weaker(w, v) && Same(fs, fs', d)
    requires w.saved == Complete || w.work != Quiet ==> forall x | Handles(c, d, x) :: Same(fs, fs', x)
    ensures Holds(c, fs0, fs', d, f, p, w)
  {
    hide Sibling, MadeBackup, MadeTemp;
    if p.Some? && (w.saved == Complete || w.work != Quiet) {
      var q := p.value;
      if q.backup.Some? && c.plan.retention != NO_BACKUPS { assert Handles(c, d, q.backup.value); }
      if q.temp.Some? { assert Handles(c, d, q.temp.value); }
      match v.work
      case CopyingOut(copy) =>
        if !copy.Reading? && !copy.Examining? && !copy.OpeningCopy? { assert Handles(c, d, copy.backup); }
      case WritingTemp(stage) => if !stage.Opening? { assert Handles(c, d, stage.temp); }
      case PuttingBack(u) =>
        if u.Rewriting? && !u.stage.Opening? { assert Handles(c, d, u.stage.temp); }
        if u.Swapping? { assert Handles(c, d, u.temp); }
      case _ =>
    }
  }

  function PrepAt(s: St, j: nat): Option<Prep> {
    if j < |s.preps| then Some(s.preps[j]) else None
  }

  ghost predicate FileInv(c: Ctx, fs0: Fs, fs: Fs, s: St, j: nat)
    requires c.Valid() && j < c.N()
  {
    Holds(c, fs0, fs, c.targets[j], c.plan.files[j], PrepAt(s, j), ViewOf(c, s.pc, j))
  }

  /** What is claimed of every destination of which claims can be made. */
  ghost predicate ClaimsHold(c: Ctx, fs0: Fs, fs: Fs, s: St)
    requires c.Valid()
  {
    forall j | 0 <= j < c.N() && Covered(c, s.pc, j) :: FileInv(c, fs0, fs, s, j)
  }

  ghost predicate Inv(c: Ctx, fs0: Fs, fs: Fs, s: St)
    requires c.Valid()
  {
    Shape(c, s) && ClaimsHold(c, fs0, fs, s)
  }

  // ----- every step preserves it -----

  /** The step concerns destination `i` only: the others keep their claims. */
  lemma OthersKeep(c: Ctx, fs0: Fs, fs: Fs, e: Event, s: St, s': St, i: nat)
    requires c.Valid() && Inv(c, fs0, fs, s) && Enabled(e, fs) && i < c.N() && !PruningBegan(s.pc)
    requires forall x | Touches(e, x) :: Handles(c, c.targets[i], x)
    requires forall j | 0 <= j < c.N() && j != i ::
               PrepAt(s', j) == PrepAt(s, j) && Weaker(ViewOf(c, s'.pc, j), ViewOf(c, s.pc, j))
    ensures forall j | 0 <= j < c.N() && j != i && Covered(c, s'.pc, j) :: FileInv(c, fs0, Effect(c.env, e, fs), s', j)
  {
    hide Shape, Touches, Effect, Enabled, Holds, ViewOf, Weaker, Handles, Clear, Spared, Targets;
    var fs' := Effect(c.env, e, fs);
    forall j | 0 <= j < c.N() && j != i && Covered(c, s'.pc, j) ensures FileInv(c, fs0, fs', s', j) {
      var d := c.targets[j];
      assert FileInv(c, fs0, fs, s, j);
      forall x | Handles(c, d, x) ensures Same(fs, fs', x) {
        HandledByOne(c, i, j, x);
        EffectIsLocal(c.env, e, fs, x);
      }
      assert Handles(c, d, d) by { HandlesItself(c, d); }
      HoldsFrame(c, fs0, fs, fs', d, c.plan.files[j], PrepAt(s, j), ViewOf(c, s.pc, j), ViewOf(c, s'.pc, j));
    }
  }

  lemma HandlesItself(c: Ctx, d: Path)
    ensures Handles(c, d, d)
  {
  }

  /** Pruning the backups of destination `i` leaves the destinations that are spared. */
  lemma OthersSpared(c: Ctx, fs0: Fs, fs: Fs, e: Event, s: St, s': St, i: nat)
    requires c.Valid() && Inv(c, fs0, fs, s) && Enabled(e, fs) && i < c.N() && c.Keep() > 0
    requires PruningBegan(s.pc) && PruningBegan(s'.pc) && s'.preps == s.preps
    requires forall j | 0 <= j < c.N() :: ViewOf(c, s'.pc, j) == ViewOf(c, s.pc, j) == View(NEW, Named, Quiet)
    requires forall x | Touches(e, x) :: IsBackupOf(c.targets[i], x)
    ensures forall j | 0 <= j < c.N() && j != i && Covered(c, s'.pc, j) :: FileInv(c, fs0, Effect(c.env, e, fs), s', j)
  {
    hide Shape, Touches, Effect, Enabled, Holds, Clear, Targets, IsBackupOf, ViewOf;
    var fs' := Effect(c.env, e, fs);
    forall j | 0 <= j < c.N() && j != i && Covered(c, s'.pc, j) ensures FileInv(c, fs0, fs', s', j) {
      var d := c.targets[j];
      assert FileInv(c, fs0, fs, s, j);
      EffectIsLocal(c.env, e, fs, d);
      HoldsFrame(c, fs0, fs, fs', d, c.plan.files[j], PrepAt(s, j), ViewOf(c, s.pc, j), ViewOf(c, s'.pc, j));
    }
  }

  /** A step that leaves the tree and the per-file state alone. */
  lemma QuietKeeps(c: Ctx, fs0: Fs, fs: Fs, s: St, s': St)
    requires c.Valid() && Inv(c, fs0, fs, s)
    requires s'.preps == s.preps && (PruningBegan(s.pc) ==> PruningBegan(s'.pc))
    requires forall j | 0 <= j < c.N() :: Weaker(ViewOf(c, s'.pc, j), ViewOf(c, s.pc, j))
    ensures ClaimsHold(c, fs0, fs, s')
  {
    hide Shape, Holds, ViewOf, Weaker, Clear, Spared, Handles, PruningBegan;
    forall j | 0 <= j < c.N() && Covered(c, s'.pc, j) ensures FileInv(c, fs0, fs, s', j) {
      assert FileInv(c, fs0, fs, s, j);
      HoldsFrame(c, fs0, fs, fs, c.targets[j], c.plan.files[j], PrepAt(s, j), ViewOf(c, s.pc, j), ViewOf(c, s'.pc, j));
    }
  }

  /** The situation before a step. */
  ghost predicate Before(c: Ctx, fs0: Fs, fs: Fs, s: St, e: Event) {
    c.Valid() && Inv(c, fs0, fs, s) && Enabled(e, fs)
  }

  lemma SafeQuiet(c: Ctx, fs0: Fs, fs: Fs, s: St, e: Event, s': St)
    requires Before(c, fs0, fs, s, e) && Effect(c.env, e, fs) == fs
    requires s'.preps == s.preps && (PruningBegan(s.pc) ==> PruningBegan(s'.pc))
    requires forall j | 0 <= j < c.N() :: Weaker(ViewOf(c, s'.pc, j), ViewOf(c, s.pc, j))
    ensures ClaimsHold(c, fs0, Effect(c.env, e, fs), s')
  {
    hide Sibling, MadeBackup, MadeTemp, Holds, Shape, ViewOf, Weaker, Effect, Enabled;
    QuietKeeps(c, fs0, fs, s, s');
  }

  lemma EarlyViews(c: Ctx, s: St, e: Event, s': St)
    requires c.Valid() && Step(c, s, e) == Some(s')
    requires s.pc.Locking? || s.pc.Checking? || s.pc.Unlocking?
    ensures s'.preps == s.preps && (e.Lock? || e.Unlock? || e.Context?) && (PruningBegan(s.pc) ==> PruningBegan(s'.pc))
    ensures forall j | 0 <= j < c.N() :: Weaker(ViewOf(c, s'.pc, j), ViewOf(c, s.pc, j))
  {
    hide Sort, Targets, BackupMap;
  }

  lemma LocksChangeNothing(env: Env, e: Event, fs: Fs)
    requires e.Lock? || e.Unlock? || e.Context?
    ensures Enabled(e, fs) && Effect(env, e, fs) == fs
  {
  }

  lemma SafeEarly(c: Ctx, fs0: Fs, fs: Fs, s: St, e: Event, s': St)
    requires Before(c, fs0, fs, s, e) && Step(c, s, e) == Some(s')
    requires s.pc.Locking? || s.pc.Checking? || s.pc.Unlocking?
    ensures ClaimsHold(c, fs0, Effect(c.env, e, fs), s')
  {
    hide Step, Inv, ClaimsHold, Weaker, ViewOf, Effect, Enabled, Targets, PruningBegan;
    EarlyViews(c, s, e, s');
    LocksChangeNothing(c.env, e, fs);
    SafeQuiet(c, fs0, fs, s, e, s');
  }

  lemma SafeComparing(c: Ctx, fs0: Fs, fs: Fs, s: St, e: Event, s': St)
    requires Before(c, fs0, fs, s, e) && s.pc.Comparing? && StepComparing(c, s, e) == Some(s')
    ensures ClaimsHold(c, fs0, Effect(c.env, e, fs), s')
  {
    hide Sibling, MadeBackup, MadeTemp, SameDigest, Clear, Spared;
    forall j | 0 <= j < c.N() && Covered(c, s'.pc, j) ensures FileInv(c, fs0, fs, s', j) {
      assert FileInv(c, fs0, fs, s, j);
    }
  }

  lemma SafeStattingOwn(c: Ctx, fs0: Fs, fs: Fs, d: Path, f: File, meta: Option<Meta>, p: Prep)
    requires Holds(c, fs0, fs, d, f, None, View(OLD, NotYet, Quiet)) && Enabled(Stat(d, meta), fs)
    requires Resolve(c.env, f, c.plan.defaults, meta) == Some(p.owner)
    requires p.hadOrig == meta.Some? && p.backup.None? && p.temp.None?
    ensures Holds(c, fs0, fs, d, f, Some(p), View(OLD, NotYet, Quiet))
  {
  }

  lemma SafeStatting(c: Ctx, fs0: Fs, fs: Fs, s: St, e: Event, s': St)
    requires Before(c, fs0, fs, s, e) && s.pc.Statting? && StepStatting(c, s, e) == Some(s')
    ensures ClaimsHold(c, fs0, Effect(c.env, e, fs), s')
  {
    hide Sibling, MadeBackup, MadeTemp, Holds, Resolve, Clear, Spared;
    var i := s.pc.i;
    if s'.preps == s.preps {
      SafeQuiet(c, fs0, fs, s, e, s');
    } else {
      if Covered(c, s'.pc, i) {
        assert FileInv(c, fs0, fs, s, i);
        SafeStattingOwn(c, fs0, fs, c.targets[i], c.plan.files[i], e.meta, s'.preps[i]);
      }
      OthersKeep(c, fs0, fs, e, s, s', i);
    }
  }

  lemma SafeBackupHead(c: Ctx, fs0: Fs, fs: Fs, s: St, e: Event, s': St)
    requires Before(c, fs0, fs, s, e) && s.pc.BackupHead? && StepBackupHead(c, s, e) == Some(s')
    ensures ClaimsHold(c, fs0, Effect(c.env, e, fs), s')
  {
    hide Sibling, MadeBackup, MadeTemp, Shape, Resolve, Clear, Spared;
    forall j | 0 <= j < c.N() && Covered(c, s'.pc, j) ensures FileInv(c, fs0, fs, s', j) {
      assert FileInv(c, fs0, fs, s, j);
    }
  }

  lemma SafeBackingUpOwn(c: Ctx, fs0: Fs, fs: Fs, d: Path, f: File, p: Prep, copy: Copy, e: Event)
    requires Holds(c, fs0, fs, d, f, Some(p), View(OLD, NotYet, CopyingOut(copy))) && Enabled(e, fs)
    requires !CopyStep(d, copy, e).BadCall?
    ensures var fs', r := Effect(c.env, e, fs), CopyStep(d, copy, e);
      match r
      case Copying(copy') => Holds(c, fs0, fs', d, f, Some(p), View(OLD, NotYet, CopyingOut(copy')))
      case Copied(b) => Holds(c, fs0, fs', d, f, Some(p.(backup := Some(b))), View(OLD, Complete, Quiet))
      case _ => Holds(c, fs0, fs', d, f, Some(p), View(OLD, Unclaimed, Quiet))
  {
    hide Sibling, MadeBackup, MadeTemp, Resolve;
    CopyStepNames(d, copy, e);
    CopyStepOk(c.env, d, fs, copy, e);
    KindsAreDisjoint(d, d);
    assert !e.ReadFile? && !e.Stat? ==> !Touches(e, d);
    if !Touches(e, d) { EffectIsLocal(c.env, e, fs, d); }
    assert Same(fs, Effect(c.env, e, fs), d);
  }

  lemma SafeBackingUp(c: Ctx, fs0: Fs, fs: Fs, s: St, e: Event, s': St)
    requires Before(c, fs0, fs, s, e) && s.pc.BackingUp? && Step(c, s, e) == Some(s')
    ensures ClaimsHold(c, fs0, Effect(c.env, e, fs), s')
  {
    hide Sibling, MadeBackup, MadeTemp, Holds, Resolve, Effect, Enabled, Clear, Spared;
    var i := s.pc.i;
    var d := c.targets[i];
    if Covered(c, s'.pc, i) {
      assert FileInv(c, fs0, fs, s, i);
      SafeBackingUpOwn(c, fs0, fs, d, c.plan.files[i], s.preps[i], s.pc.copy, e);
    }
    CopyStepNames(d, s.pc.copy, e);
    OthersKeep(c, fs0, fs, e, s, s', i);
  }

  /** Removing a backup or a temp file, or failing to, leaves the destinations alone. */
  lemma RemovingKeeps(c: Ctx, fs0: Fs, fs: Fs, d: Path, f: File, p: Option<Prep>, v: View, e: Event)
    requires Holds(c, fs0, fs, d, f, p, v) && Enabled(e, fs)
    requires e.Remove? && (IsBackupOf(d, e.path) || IsTempOf(d, e.path))
    requires v.saved == Complete ==> IsTempOf(d, e.path)
    requires v.work == Quiet || (v.work.PuttingBack? && v.work.undo.Scrapping?)
    ensures Holds(c, fs0, Effect(c.env, e, fs), d, f, p, v)
  {
    hide Sibling, MadeBackup, MadeTemp, Resolve;
    KindsAreDisjoint(d, e.path);
    KindsAreDisjoint(d, d);
  }

  lemma SafeDroppingBackups(c: Ctx, fs0: Fs, fs: Fs, s: St, e: Event, s': St)
    requires Before(c, fs0, fs, s, e) && s.pc.DroppingBackups? && StepDroppingBackups(c, s, e) == Some(s')
    ensures ClaimsHold(c, fs0, Effect(c.env, e, fs), s')
  {
    hide Sibling, MadeBackup, MadeTemp, Holds, Resolve, Clear, Spared, Enabled, Targets, PrepNames, BackupMap;
    if e.Internal? {
      SafeQuiet(c, fs0, fs, s, e, s');
    } else {
      var i :| 0 <= i < c.N() && MadeBackup(c.targets[i], e.path);
      if Covered(c, s'.pc, i) {
        assert FileInv(c, fs0, fs, s, i);
        RemovingKeeps(c, fs0, fs, c.targets[i], c.plan.files[i], PrepAt(s, i), ViewOf(c, s.pc, i), e);
      }
      OthersKeep(c, fs0, fs, e, s, s', i);
    }
  }

  lemma SafeStagingOwn(c: Ctx, fs0: Fs, fs: Fs, d: Path, f: File, p: Prep, stage: Stage, e: Event, v: Saved)
    requires Holds(c, fs0, fs, d, f, Some(p), View(OLD, v, WritingTemp(stage))) && Enabled(e, fs)
    requires !StageStep(c.env, d, f.bytes, p.owner, stage, e).Wrong?
    ensures var fs', r := Effect(c.env, e, fs), StageStep(c.env, d, f.bytes, p.owner, stage, e);
      match r
      case Staging(stage') => Holds(c, fs0, fs', d, f, Some(p), View(OLD, v, WritingTemp(stage')))
      case Ready(t) => Holds(c, fs0, fs', d, f, Some(p.(temp := Some(t))), View(OLD, v, TempReady))
      case Unowned(t) => Holds(c, fs0, fs', d, f, Some(p.(temp := Some(t))), View(OLD, v, Quiet))
      case _ => Holds(c, fs0, fs', d, f, Some(p), View(OLD, v, Quiet))
  {
    hide Sibling, MadeBackup, MadeTemp, Resolve;
    TempCallsSpare(c, fs, d, f.bytes, p, stage, e);
    StageStepOk(c.env, d, f.bytes, p.owner, fs, stage, e);
    StageStepNames(c.env, d, f.bytes, p.owner, stage, e);
  }

  /** Writing a temp file changes neither the destination nor its backup. */
  lemma TempCallsSpare(c: Ctx, fs: Fs, d: Path, data: Bytes, p: Prep, stage: Stage, e: Event)
    requires StageNames(d, stage) && PrepNames(d, p) && Enabled(e, fs)
    requires !StageStep(c.env, d, data, p.owner, stage, e).Wrong?
    ensures Same(fs, Effect(c.env, e, fs), d)
    ensures p.backup.Some? ==> Same(fs, Effect(c.env, e, fs), p.backup.value)
  {
    hide Sibling, MadeBackup, MadeTemp, Effect, Enabled, StageStep, StageNames, Touches;
    StageStepNames(c.env, d, data, p.owner, stage, e);
    KindsAreDisjoint(d, d);
    EffectIsLocal(c.env, e, fs, d);
    if p.backup.Some? {
      KindsAreDisjoint(d, p.backup.value);
      EffectIsLocal(c.env, e, fs, p.backup.value);
    }
  }

  lemma SafeStaging(c: Ctx, fs0: Fs, fs: Fs, s: St, e: Event, s': St)
    requires Before(c, fs0, fs, s, e) && s.pc.StagingFile? && Step(c, s, e) == Some(s')
    ensures ClaimsHold(c, fs0, Effect(c.env, e, fs), s')
  {
    hide Sibling, MadeBackup, MadeTemp, Holds, Resolve, Effect, Enabled, StageStep, Clear, Spared;
    var i := s.pc.i;
    var d := c.targets[i];
    if Covered(c, s'.pc, i) {
      assert FileInv(c, fs0, fs, s, i);
      SafeStagingOwn(c, fs0, fs, d, c.plan.files[i], s.preps[i], s.pc.stage, e, Complete);
    }
    StageStepNames(c.env, d, c.plan.files[i].bytes, s.preps[i].owner, s.pc.stage, e);
    OthersKeep(c, fs0, fs, e, s, s', i);
  }

  lemma SafeDroppingTemps(c: Ctx, fs0: Fs, fs: Fs, s: St, e: Event, s': St)
    requires Before(c, fs0, fs, s, e) && s.pc.DroppingTemps? && StepDroppingTemps(c, s, e) == Some(s')
    ensures ClaimsHold(c, fs0, Effect(c.env, e, fs), s')
  {
    hide Sibling, MadeBackup, MadeTemp, Holds, Resolve, Clear, Spared, BackupMap, Targets, Enabled;
    if e.Internal? {
      SafeQuiet(c, fs0, fs, s, e, s');
    } else {
      var i := s.pc.i;
      if Covered(c, s'.pc, i) {
        assert FileInv(c, fs0, fs, s, i);
        RemovingKeeps(c, fs0, fs, c.targets[i], c.plan.files[i], PrepAt(s, i), ViewOf(c, s.pc, i), e);
      }
      OthersKeep(c, fs0, fs, e, s, s', i);
    }
  }

  lemma SafeValidating(c: Ctx, fs0: Fs, fs: Fs, s: St, e: Event, s': St)
    requires Before(c, fs0, fs, s, e) && s.pc.Validating? && StepValidating(c, s, e) == Some(s')
    ensures ClaimsHold(c, fs0, Effect(c.env, e, fs), s')
  {
    hide Sibling, MadeBackup, MadeTemp, Holds, ClaimsHold, FileInv, TempMap;
    SafeQuiet(c, fs0, fs, s, e, s');
  }

  lemma SafeReloadingOld(c: Ctx, fs0: Fs, fs: Fs, s: St, e: Event, s': St)
    requires Before(c, fs0, fs, s, e) && s.pc.ReloadingOld? && StepReloadingOld(c, s, e) == Some(s')
    ensures ClaimsHold(c, fs0, Effect(c.env, e, fs), s')
  {
    hide Sibling, MadeBackup, MadeTemp, Holds, ClaimsHold, FileInv, BackupMap;
    SafeQuiet(c, fs0, fs, s, e, s');
  }

  lemma SafeReloading(c: Ctx, fs0: Fs, fs: Fs, s: St, e: Event, s': St)
    requires Before(c, fs0, fs, s, e) && s.pc.Reloading? && StepReloading(c, s, e) == Some(s')
    ensures ClaimsHold(c, fs0, Effect(c.env, e, fs), s')
  {
    hide Sibling, MadeBackup, MadeTemp, Holds, ClaimsHold, FileInv, BackupMap, TempMap, Sort;
    SafeQuiet(c, fs0, fs, s, e, s');
  }

  lemma SafeListing(c: Ctx, fs0: Fs, fs: Fs, s: St, e: Event, s': St)
    requires Before(c, fs0, fs, s, e) && s.pc.Listing? && StepListing(c, s, e) == Some(s')
    ensures ClaimsHold(c, fs0, Effect(c.env, e, fs), s')
  {
    hide Sibling, MadeBackup, MadeTemp, Holds, ClaimsHold, FileInv, BackupMap, Doomed;
    SafeQuiet(c, fs0, fs, s, e, s');
  }

  lemma RenameOwn(c: Ctx, fs0: Fs, fs: Fs, d: Path, f: File, p: Prep, t: Path, fs': Fs)
    requires t in fs && fs' == (fs - {t})[d := fs[t]] && p.temp == Some(t)
    requires Holds(c, fs0, fs, d, f, Some(p), View(OLD, Complete, TempReady))
    ensures Holds(c, fs0, fs', d, f, Some(p), View(NEW, Complete, Quiet))
  {
    hide Sibling, MadeBackup, MadeTemp, Resolve;
    KindsAreDisjoint(d, d);
    if p.backup.Some? { KindsAreDisjoint(d, p.backup.value); }
  }

  lemma SafeRenaming(c: Ctx, fs0: Fs, fs: Fs, s: St, e: Event, s': St)
    requires Before(c, fs0, fs, s, e) && s.pc.Renaming? && StepRenaming(c, s, e) == Some(s')
    ensures ClaimsHold(c, fs0, Effect(c.env, e, fs), s')
  {
    hide Sibling, MadeBackup, MadeTemp, Holds, Resolve, Clear, Spared, BackupMap, Targets;
    var i := s.pc.i;
    var d, f, p := c.targets[i], c.plan.files[i], s.preps[i];
    if !e.ok {
      SafeQuiet(c, fs0, fs, s, e, s');
    } else {
      if Covered(c, s'.pc, i) {
        assert FileInv(c, fs0, fs, s, i);
        var fs' := Effect(c.env, e, fs);
        RenameOwn(c, fs0, fs, d, f, p, e.from, fs');
        HoldsFrame(c, fs0, fs', fs', d, f, Some(p), View(NEW, Complete, Quiet), ViewOf(c, s'.pc, i));
      }
      OthersKeep(c, fs0, fs, e, s, s', i);
    }
  }

  lemma SafePruning(c: Ctx, fs0: Fs, fs: Fs, s: St, e: Event, s': St)
    requires Before(c, fs0, fs, s, e) && s.pc.Pruning? && StepPruning(c, s, e) == Some(s')
    ensures ClaimsHold(c, fs0, Effect(c.env, e, fs), s')
  {
    hide Sibling, MadeBackup, MadeTemp, Holds, Resolve, Clear, Spared;
    var i := s.pc.i;
    if Covered(c, s'.pc, i) {
      assert FileInv(c, fs0, fs, s, i);
      RemovingKeeps(c, fs0, fs, c.targets[i], c.plan.files[i], PrepAt(s, i), ViewOf(c, s.pc, i), e);
    }
    OthersSpared(c, fs0, fs, e, s, s', i);
  }

  // Putting destination `i` back, one call at a time.

  ghost predicate UndoBefore(c: Ctx, fs0: Fs, fs: Fs, d: Path, f: File, p: Prep, u: Undo, e: Event) {
    Holds(c, fs0, fs, d, f, Some(p), View(NEW, Complete, PuttingBack(u))) && Enabled(e, fs)
  }

  lemma UndoDelete(c: Ctx, fs0: Fs, fs: Fs, d: Path, f: File, p: Prep, e: Event)
    requires UndoBefore(c, fs0, fs, d, f, p, Deleting, e) && e.Remove? && e.path == d
    ensures Holds(c, fs0, Effect(c.env, e, fs), d, f, Some(p),
                  View(if e.reply.Refused? then NEW else BACK, Complete, Quiet))
  {
    hide Sibling, MadeBackup, MadeTemp, Resolve;
    KindsAreDisjoint(d, d);
  }

  lemma UndoFetch(c: Ctx, fs0: Fs, fs: Fs, d: Path, f: File, p: Prep, e: Event)
    requires UndoBefore(c, fs0, fs, d, f, p, Fetching, e)
    requires e.ReadFile? && p.backup == Some(e.path) && e.got.Some?
    ensures Holds(c, fs0, fs, d, f, Some(p), View(NEW, Complete, PuttingBack(Rewriting(e.got.value, Opening))))
  {
    hide Sibling, MadeBackup, MadeTemp, Resolve;
  }

  lemma UndoRewrite(c: Ctx, fs0: Fs, fs: Fs, d: Path, f: File, p: Prep, data: Bytes, stage: Stage, e: Event)
    requires UndoBefore(c, fs0, fs, d, f, p, Rewriting(data, stage), e)
    requires !StageStep(c.env, d, data, p.owner, stage, e).Wrong?
    ensures var fs', r := Effect(c.env, e, fs), StageStep(c.env, d, data, p.owner, stage, e);
      Holds(c, fs0, fs', d, f, Some(p), View(NEW, Complete,
        match r
        case Staging(stage') => PuttingBack(Rewriting(data, stage'))
        case Ready(t) => PuttingBack(Swapping(t))
        case Unowned(t) => PuttingBack(Scrapping(t))
        case _ => Quiet))
  {
    hide Sibling, MadeBackup, MadeTemp, Resolve, StageStep, Effect, Enabled;
    TempCallsSpare(c, fs, d, data, p, stage, e);
    StageStepOk(c.env, d, data, p.owner, fs, stage, e);
    StageStepNames(c.env, d, data, p.owner, stage, e);
  }

  lemma UndoSwap(c: Ctx, fs0: Fs, fs: Fs, d: Path, f: File, p: Prep, t: Path, fs': Fs)
    requires t in fs && fs' == (fs - {t})[d := fs[t]]
    requires Holds(c, fs0, fs, d, f, Some(p), View(NEW, Complete, PuttingBack(Swapping(t))))
    ensures Holds(c, fs0, fs', d, f, Some(p), View(BACK, Complete, Quiet))
  {
    hide Sibling, MadeBackup, MadeTemp, Resolve;
    KindsAreDisjoint(d, d);
    if p.backup.Some? { KindsAreDisjoint(d, p.backup.value); }
  }

  /** After the call on destination `i` its claims, if there are any, are `v`; then all claims hold in `s'`. */
  lemma RestoringKeeps(c: Ctx, fs0: Fs, fs: Fs, s: St, e: Event, s': St, v: View)
    requires Before(c, fs0, fs, s, e) && s.pc.Restoring? && StepRestoring(c, s, e) == Some(s') && s.pc.i < s.pc.upto
    requires forall x | Touches(e, x) :: Handles(c, c.targets[s.pc.i], x)
    requires Clear(c, s.pc.i) ==>
      Holds(c, fs0, Effect(c.env, e, fs), c.targets[s.pc.i], c.plan.files[s.pc.i], Some(s.preps[s.pc.i]), v)
    requires Weaker(ViewOf(c, s'.pc, s.pc.i), v)
    ensures ClaimsHold(c, fs0, Effect(c.env, e, fs), s')
  {
    hide Sibling, MadeBackup, MadeTemp, Handles, Touches, Holds, Resolve, Effect, Enabled, StepRestoring, PrepNames,
      Clear, Spared;
    RestoringGoesOn(c, s, e, s');
    var i, fs' := s.pc.i, Effect(c.env, e, fs);
    if Covered(c, s'.pc, i) {
      HoldsFrame(c, fs0, fs', fs', c.targets[i], c.plan.files[i], Some(s.preps[i]), v, ViewOf(c, s'.pc, i));
    }
    OthersKeep(c, fs0, fs, e, s, s', i);
  }

  lemma SafeRestoring(c: Ctx, fs0: Fs, fs: Fs, s: St, e: Event, s': St)
    requires Before(c, fs0, fs, s, e) && s.pc.Restoring? && StepRestoring(c, s, e) == Some(s') && s.pc.i < s.pc.upto
    ensures ClaimsHold(c, fs0, Effect(c.env, e, fs), s')
  {
    hide Sibling, MadeBackup, MadeTemp, Holds, Resolve, Effect, Enabled, StageStep, ClaimsHold, Clear, Spared;
    var u := s.pc.undo;
    match u
    case Choosing => SafeChoosing(c, fs0, fs, s, e, s');
    case Deleting => SafeDeleting(c, fs0, fs, s, e, s');
    case Fetching => SafeFetching(c, fs0, fs, s, e, s');
    case Rewriting(data, stage) => SafeRewriting(c, fs0, fs, s, e, s');
    case Swapping(t) => SafeSwapping(c, fs0, fs, s, e, s');
    case Scrapping(t) => SafeScrapping(c, fs0, fs, s, e, s');
  }

  lemma SafeChoosing(c: Ctx, fs0: Fs, fs: Fs, s: St, e: Event, s': St)
    requires Before(c, fs0, fs, s, e) && s.pc.Restoring? && StepRestoring(c, s, e) == Some(s') && s.pc.i < s.pc.upto
    requires s.pc.undo.Choosing?
    ensures ClaimsHold(c, fs0, Effect(c.env, e, fs), s')
  {
    hide Sibling, MadeBackup, MadeTemp, Resolve, IsNew, PrepHolds, Clear, Spared;
    var i := s.pc.i;
    if Covered(c, s'.pc, i) { assert FileInv(c, fs0, fs, s, i); }
    RestoringKeeps(c, fs0, fs, s, e, s', View(NEW, Complete, PuttingBack(s'.pc.undo)));
  }

  lemma SafeDeleting(c: Ctx, fs0: Fs, fs: Fs, s: St, e: Event, s': St)
    requires Before(c, fs0, fs, s, e) && s.pc.Restoring? && StepRestoring(c, s, e) == Some(s') && s.pc.i < s.pc.upto
    requires s.pc.undo.Deleting?
    ensures ClaimsHold(c, fs0, Effect(c.env, e, fs), s')
  {
    hide Sibling, MadeBackup, MadeTemp, Resolve, Holds, Alone, Effect, Enabled;
    var i := s.pc.i;
    if Covered(c, s'.pc, i) {
      assert FileInv(c, fs0, fs, s, i);
      UndoDelete(c, fs0, fs, c.targets[i], c.plan.files[i], s.preps[i], e);
    }
    RestoringKeeps(c, fs0, fs, s, e, s', View(if e.reply.Refused? then NEW else BACK, Complete, Quiet));
  }

  lemma SafeFetching(c: Ctx, fs0: Fs, fs: Fs, s: St, e: Event, s': St)
    requires Before(c, fs0, fs, s, e) && s.pc.Restoring? && StepRestoring(c, s, e) == Some(s') && s.pc.i < s.pc.upto
    requires s.pc.undo.Fetching?
    ensures ClaimsHold(c, fs0, Effect(c.env, e, fs), s')
  {
    hide Sibling, MadeBackup, MadeTemp, Resolve, Holds, Clear, Spared;
    var i := s.pc.i;
    if Covered(c, s'.pc, i) {
      assert FileInv(c, fs0, fs, s, i);
      if e.got.Some? { UndoFetch(c, fs0, fs, c.targets[i], c.plan.files[i], s.preps[i], e); }
    }
    RestoringKeeps(c, fs0, fs, s, e, s', View(NEW, Complete,
      PuttingBack(if e.got.Some? then s'.pc.undo else Fetching)));
  }

  lemma SafeRewriting(c: Ctx, fs0: Fs, fs: Fs, s: St, e: Event, s': St)
    requires Before(c, fs0, fs, s, e) && s.pc.Restoring? && StepRestoring(c, s, e) == Some(s') && s.pc.i < s.pc.upto
    requires s.pc.undo.Rewriting?
    ensures ClaimsHold(c, fs0, Effect(c.env, e, fs), s')
  {
    hide Sibling, MadeBackup, MadeTemp, Holds, Resolve, Effect, Enabled, StageStep, Clear, Spared;
    var i := s.pc.i;
    var d, f, p, data, stage := c.targets[i], c.plan.files[i], s.preps[i], s.pc.undo.data, s.pc.undo.stage;
    if Covered(c, s'.pc, i) {
      assert FileInv(c, fs0, fs, s, i);
      UndoRewrite(c, fs0, fs, d, f, p, data, stage, e);
    }
    StageStepNames(c.env, d, data, p.owner, stage, e);
    var r := StageStep(c.env, d, data, p.owner, stage, e);
    RestoringKeeps(c, fs0, fs, s, e, s', View(NEW, Complete,
      if r.Staging? then PuttingBack(Rewriting(data, r.stage)) else if r.Ready? then PuttingBack(Swapping(r.temp))
      else if r.Unowned? then PuttingBack(Scrapping(r.temp)) else Quiet));
  }

  lemma SafeSwapping(c: Ctx, fs0: Fs, fs: Fs, s: St, e: Event, s': St)
    requires Before(c, fs0, fs, s, e) && s.pc.Restoring? && StepRestoring(c, s, e) == Some(s') && s.pc.i < s.pc.upto
    requires s.pc.undo.Swapping?
    ensures ClaimsHold(c, fs0, Effect(c.env, e, fs), s')
  {
    hide Sibling, MadeBackup, MadeTemp, Resolve, Clear, Spared, Targets, BackupMap, Placed, StageStep, PrepNames;
    var i, t := s.pc.i, s.pc.undo.temp;
    if Covered(c, s'.pc, i) {
      assert FileInv(c, fs0, fs, s, i);
      if e.ok { UndoSwap(c, fs0, fs, c.targets[i], c.plan.files[i], s.preps[i], t, Effect(c.env, e, fs)); }
    }
    RestoringKeeps(c, fs0, fs, s, e, s', if e.ok then View(BACK, Complete, Quiet)
      else View(NEW, Complete, PuttingBack(Scrapping(t))));
  }

  lemma SafeScrapping(c: Ctx, fs0: Fs, fs: Fs, s: St, e: Event, s': St)
    requires Before(c, fs0, fs, s, e) && s.pc.Restoring? && StepRestoring(c, s, e) == Some(s') && s.pc.i < s.pc.upto
    requires s.pc.undo.Scrapping?
    ensures ClaimsHold(c, fs0, Effect(c.env, e, fs), s')
  {
    hide Sibling, MadeBackup, MadeTemp, Holds, Resolve, Effect, Enabled, Clear, Spared;
    var i := s.pc.i;
    var v := View(NEW, Complete, PuttingBack(s.pc.undo));
    if Covered(c, s'.pc, i) {
      assert FileInv(c, fs0, fs, s, i);
      RemovingKeeps(c, fs0, fs, c.targets[i], c.plan.files[i], Some(s.preps[i]), v, e);
    }
    RestoringKeeps(c, fs0, fs, s, e, s', v);
  }

  lemma SafeRestored(c: Ctx, fs0: Fs, fs: Fs, s: St, e: Event, s': St)
    requires Before(c, fs0, fs, s, e) && s.pc.Restoring? && StepRestoring(c, s, e) == Some(s') && s.pc.i == s.pc.upto
    ensures ClaimsHold(c, fs0, Effect(c.env, e, fs), s')
  {
    hide Sibling, MadeBackup, MadeTemp, Holds, ClaimsHold, FileInv, BackupMap;
    SafeQuiet(c, fs0, fs, s, e, s');
  }

  lemma SafeStep(c: Ctx, fs0: Fs, fs: Fs, s: St, e: Event, s': St)
    requires Before(c, fs0, fs, s, e) && Step(c, s, e) == Some(s')
    ensures Inv(c, fs0, Effect(c.env, e, fs), s')
  {
    hide Sibling, MadeBackup, MadeTemp, Holds, FileInv, Effect, Enabled;
    ShapeStep(c, s, e, s', fs);
    if s.pc.Comparing? { SafeComparing(c, fs0, fs, s, e, s'); }
    else if s.pc.Statting? { SafeStatting(c, fs0, fs, s, e, s'); }
    else if s.pc.BackupHead? { SafeBackupHead(c, fs0, fs, s, e, s'); }
    else if s.pc.BackingUp? { SafeBackingUp(c, fs0, fs, s, e, s'); }
    else if s.pc.DroppingBackups? { SafeDroppingBackups(c, fs0, fs, s, e, s'); }
    else if s.pc.StagingFile? { SafeStaging(c, fs0, fs, s, e, s'); }
    else if s.pc.DroppingTemps? { SafeDroppingTemps(c, fs0, fs, s, e, s'); }
    else if s.pc.Renaming? { SafeRenaming(c, fs0, fs, s, e, s'); }
    else if s.pc.Restoring? {
      if s.pc.i < s.pc.upto { SafeRestoring(c, fs0, fs, s, e, s'); } else { SafeRestored(c, fs0, fs, s, e, s'); }
    } else if s.pc.Listing? { SafeListing(c, fs0, fs, s, e, s'); }
    else if s.pc.Pruning? { SafePruning(c, fs0, fs, s, e, s'); }
    else if s.pc.Locking? || s.pc.Checking? || s.pc.Unlocking? { SafeEarly(c, fs0, fs, s, e, s'); }
    else if s.pc.Validating? { SafeValidating(c, fs0, fs, s, e, s'); }
    else if s.pc.Reloading? { SafeReloading(c, fs0, fs, s, e, s'); }
    else { SafeReloadingOld(c, fs0, fs, s, e, s'); }
  }

  // ----- whole runs -----

  /** After the calls `es`, started on the tree `fs0`, the deployment is in state `s` and the tree is `fs`. */
  ghost predicate Reaches(c: Ctx, fs0: Fs, es: seq<Event>, s: St, fs: Fs) {
    c.Valid() && Run(c, es) == Some(s) && Replay(c.env, fs0, es) == Some(fs)
  }

  lemma Extend(c: Ctx, fs0: Fs, es: seq<Event>, s: St, fs: Fs, e: Event, s': St)
    requires Reaches(c, fs0, es, s, fs) && Enabled(e, fs) && Step(c, s, e) == Some(s')
    ensures Reaches(c, fs0, es + [e], s', Effect(c.env, e, fs))
  {
    hide Step, Effect, Enabled;
    RunSnoc(c, es, e);
    ReplaySnoc(c.env, fs0, es, e);
  }

  lemma {:induction false} InvReached(c: Ctx, fs0: Fs, es: seq<Event>, s: St, fs: Fs)
    requires Reaches(c, fs0, es, s, fs)
    ensures Inv(c, fs0, fs, s)
  {
    hide Sibling, MadeBackup, MadeTemp, Holds, Step, Effect, Enabled, Shape, Inv;
    if es == [] {
      InvStart(c, fs0);
    } else {
      var n := |es| - 1;
      var s1, fs1 := Run(c, es[..n]).value, Replay(c.env, fs0, es[..n]).value;
      InvReached(c, fs0, es[..n], s1, fs1);
      SafeStep(c, fs0, fs1, s1, es[n], s);
    }
  }

  lemma InvStart(c: Ctx, fs0: Fs)
    requires c.Valid()
    ensures Inv(c, fs0, fs0, Start())
  {
    hide Sibling, MadeBackup, MadeTemp;
  }

  /** A Stat that fails although the file is there would make Apply forget the original. */
  ghost predicate HonestStats(fs0: Fs, es: seq<Event>) {
    forall e | e in es :: e.Stat? && e.meta.None? ==> e.path !in fs0
  }

  predicate FromStat(d: Path, p: Prep, es: seq<Event>) {
    p.hadOrig || Stat(d, None) in es
  }

  lemma PrepsKeptBefore(c: Ctx, s: St, e: Event, s': St)
    requires c.Valid() && Step(c, s, e) == Some(s')
    requires s.pc.Locking? || s.pc.Checking? || s.pc.Comparing? || s.pc.BackupHead? || s.pc.DroppingBackups?
          || s.pc.DroppingTemps? || s.pc.Validating?
    ensures s'.preps == s.preps
  {
    hide BackupMap, TempMap, Sort, Targets, SameDigest;
  }

  lemma PrepsKeptAfter(c: Ctx, s: St, e: Event, s': St)
    requires c.Valid() && Step(c, s, e) == Some(s')
    requires s.pc.Renaming? || s.pc.Reloading? || s.pc.ReloadingOld? || s.pc.Listing? || s.pc.Pruning?
        || s.pc.Unlocking?
    ensures s'.preps == s.preps
  {
    hide BackupMap, Sort, Targets, Doomed;
  }

  lemma PrepsKeptRestoring(c: Ctx, s: St, e: Event, s': St)
    requires c.Valid() && s.pc.Restoring? && StepRestoring(c, s, e) == Some(s')
    ensures s'.preps == s.preps
  {
    hide BackupMap, Sort, Targets, StageStep;
    if s.pc.i < s.pc.upto { RestoringGoesOn(c, s, e, s'); }
  }

  lemma StepKeepsHadOrig(c: Ctx, s: St, e: Event, s': St)
    requires c.Valid() && Step(c, s, e) == Some(s')
    ensures |s'.preps| >= |s.preps|
    ensures forall j | 0 <= j < |s.preps| ::
        s'.preps[j].hadOrig == s.preps[j].hadOrig && s'.preps[j].owner == s.preps[j].owner
    ensures |s'.preps| > |s.preps| ==>
      && s.pc.Statting? && |s'.preps| == |s.preps| + 1
      && e.Stat? && s.pc.i < c.N() && e.path == c.targets[s.pc.i]
      && s'.preps[|s.preps|].hadOrig == e.meta.Some?
      && Resolve(c.env, c.plan.files[s.pc.i], c.plan.defaults, e.meta) == Some(s'.preps[|s.preps|].owner)
  {
    hide StageStep, CopyStep, Resolve, StepLocking, StepChecking, StepComparing, StepBackupHead, StepDroppingBackups,
      StepDroppingTemps, StepValidating, StepRenaming, StepReloading, StepReloadingOld, StepRestoring, StepListing,
      StepPruning, StepUnlocking, Targets;
    if s.pc.Restoring? { PrepsKeptRestoring(c, s, e, s'); }
    else if s.pc.Renaming? || s.pc.Reloading? || s.pc.ReloadingOld? || s.pc.Listing? || s.pc.Pruning?
      || s.pc.Unlocking? {
      PrepsKeptAfter(c, s, e, s');
    } else if !s.pc.Statting? && !s.pc.BackingUp? && !s.pc.StagingFile? {
      PrepsKeptBefore(c, s, e, s');
    }
  }

  lemma {:induction false} PrepsFromStats(c: Ctx, fs0: Fs, es: seq<Event>, s: St, fs: Fs)
    requires Reaches(c, fs0, es, s, fs)
    ensures |s.preps| <= c.N() && forall j | 0 <= j < |s.preps| :: FromStat(c.targets[j], s.preps[j], es)
  {
    hide Sibling, MadeBackup, MadeTemp, Holds, Step, Effect, Enabled, FileInv;
    InvReached(c, fs0, es, s, fs);
    if es != [] {
      var n := |es| - 1;
      var s1, fs1 := Run(c, es[..n]).value, Replay(c.env, fs0, es[..n]).value;
      InvReached(c, fs0, es[..n], s1, fs1);
      PrepsFromStats(c, fs0, es[..n], s1, fs1);
      StepKeepsHadOrig(c, s1, es[n], s);
      assert es == es[..n] + [es[n]];
    }
  }

  // ----- what Stat saw -----

  /** Some Stat of the path found a file. */
  ghost predicate Seen(es: seq<Event>, d: Path) {
    exists meta: Meta :: Stat(d, Some(meta)) in es
  }

  lemma SeenSnoc(es: seq<Event>, e: Event, d: Path)
    ensures Seen(es + [e], d) <==> Seen(es, d) || (e.Stat? && e.path == d && e.meta.Some?)
  {
    var es' := es + [e];
    assert forall x :: x in es' <==> x in es || x == e;
    if e.Stat? && e.path == d && e.meta.Some? { assert Stat(d, Some(e.meta.value)) in es'; }
    if meta: Meta :| Stat(d, Some(meta)) in es { assert Stat(d, Some(meta)) in es'; }
  }

  /** Apply asks Stat when it prepares a file and while it copies one it has found. */
  ghost predicate AsksFor(c: Ctx, s: St, e: Event) {
    e.Stat? ==> (s.pc.Statting? || s.pc.BackingUp?) && s.pc.i < |c.targets| && e.path == c.targets[s.pc.i]
  }

  predicate Preparing(pc: Pc) {
    pc.Locking? || pc.Checking? || pc.Comparing? || pc.Statting?
  }

  lemma AsksEarly(c: Ctx, s: St, e: Event, s': St)
    requires c.Valid() && Step(c, s, e) == Some(s')
    requires s.pc.Locking? || s.pc.Checking? || s.pc.Comparing? || s.pc.Statting? || s.pc.BackupHead? || s.pc.BackingUp?
          || s.pc.DroppingBackups? || s.pc.StagingFile?
    ensures AsksFor(c, s, e) && (Preparing(s'.pc) ==> Preparing(s.pc) && (s.pc.Statting? ==> |s'.preps| > |s.preps|))
    ensures s'.pc.BackingUp? ==>
      && (s.pc.BackingUp? || s.pc.BackupHead?) && s'.pc.i == s.pc.i && s.preps == s'.preps && s.pc.i < |s.preps|
      && (s.pc.BackupHead? ==> s.preps[s.pc.i].hadOrig)
    ensures s'.pc.BackupHead? ==> s.pc.Statting? || s.pc.BackupHead? || s.pc.BackingUp?
  {
    hide Resolve, SameDigest, BackupMap, TempMap, Sort, Targets;
  }

  lemma AsksLate(c: Ctx, s: St, e: Event, s': St)
    requires c.Valid() && Step(c, s, e) == Some(s')
    requires s.pc.DroppingTemps? || s.pc.Validating? || s.pc.Renaming? || s.pc.Reloading? || s.pc.ReloadingOld?
          || s.pc.Listing? || s.pc.Pruning? || s.pc.Unlocking? || s.pc.Done?
    ensures !e.Stat? && !s'.pc.BackupHead? && !s'.pc.BackingUp? && !Preparing(s'.pc)
  {
    hide BackupMap, TempMap, Sort, Targets, Doomed, StageStep;
  }

  lemma AsksRestoring(c: Ctx, s: St, e: Event, s': St)
    requires c.Valid() && s.pc.Restoring? && Step(c, s, e) == Some(s')
    ensures !e.Stat? && !s'.pc.BackupHead? && !s'.pc.BackingUp? && !Preparing(s'.pc)
  {
    hide BackupMap, Sort, Targets, Resolve;
  }

  ghost predicate SeenInv(c: Ctx, es: seq<Event>, s: St)
    requires c.Valid()
  {
    && |s.preps| <= c.N()
    && (forall j | 0 <= j < |s.preps| :: Seen(es, c.targets[j]) <==> s.preps[j].hadOrig)
    && (Preparing(s.pc) ==> forall j | |s.preps| <= j < c.N() :: !Seen(es, c.targets[j]))
    && (s.pc.BackingUp? ==> s.pc.i < |s.preps| && s.preps[s.pc.i].hadOrig)
  }

  lemma SeenStep(c: Ctx, es: seq<Event>, s: St, e: Event, s': St)
    requires c.Valid() && Shape(c, s) && Step(c, s, e) == Some(s') && SeenInv(c, es, s)
    ensures SeenInv(c, es + [e], s')
  {
    hide Step, Seen, Targets, PrepNames, ShapeFull;
    TargetsIff(c.env, c.plan.files);
    StepKeepsHadOrig(c, s, e, s');
    if s.pc.Restoring? { AsksRestoring(c, s, e, s'); }
    else if Preparing(s.pc) || s.pc.BackupHead? || s.pc.BackingUp? || s.pc.DroppingBackups? || s.pc.StagingFile? {
      AsksEarly(c, s, e, s');
    } else { AsksLate(c, s, e, s'); }
    forall j | 0 <= j < c.N()
      ensures Seen(es + [e], c.targets[j]) <==>
        Seen(es, c.targets[j]) || (e.Stat? && e.path == c.targets[j] && e.meta.Some?)
    {
      SeenSnoc(es, e, c.targets[j]);
    }
  }

  /** Apply remembers a file as existing exactly when a Stat has found it. */
  lemma {:induction false} SeenReached(c: Ctx, fs0: Fs, es: seq<Event>, s: St, fs: Fs)
    requires Reaches(c, fs0, es, s, fs)
    ensures SeenInv(c, es, s)
  {
    hide Step, Effect, Enabled, SeenInv, Inv;
    if es == [] {
      NothingSeen(c);
    } else {
      var n := |es| - 1;
      var s1, fs1 := Run(c, es[..n]).value, Replay(c.env, fs0, es[..n]).value;
      SeenReached(c, fs0, es[..n], s1, fs1);
      InvReached(c, fs0, es[..n], s1, fs1);
      InvShape(c, fs0, fs1, s1);
      SeenStep(c, es[..n], s1, es[n], s);
      assert es == es[..n] + [es[n]];
    }
  }

  lemma NothingSeen(c: Ctx)
    requires c.Valid()
    ensures SeenInv(c, [], Start())
  {
  }

  lemma InvShape(c: Ctx, fs0: Fs, fs: Fs, s: St)
    requires c.Valid() && Inv(c, fs0, fs, s)
    ensures Shape(c, s)
  {
  }
}
