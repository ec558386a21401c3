/** `Apply` as a protocol: a deterministic automaton that consumes, one at a time, the calls
    that one deployment makes and their replies. */
module ApplyProtocol {
  import opened Text
  import opened Paths
  import opened Data
  import opened Os
  import opened Ownership
  import opened FileOps

  const NO_BACKUPS := -1
  const DEFAULT_RETENTION := 3

  /** `hasPre` and `hasPost` say whether the validate and the reload hook are set. */
  datatype Plan = Plan(
    files: seq<File>,
    defaults: Defaults,
    hasPre: bool,
    hasPost: bool,
    retention: int,
    skipIdempotent: bool)

  datatype Error =
    | PlanInvalid | PathUnresolved | Canceled | OwnershipUnresolved | BackupFailed | TempFailed
    | ValidateFailed | RenameFailed | ReloadFailed | RollbackFailed

  datatype Result = Result(
    skipped: bool,
    backups: map<Path, Option<Path>>,
    validateOk: bool,
    reloaded: bool,
    rolledBack: bool)

  datatype Outcome = Outcome(error: Option<Error>, result: Option<Result>)

  // ----- validatePlan -----

  /** The absolute destinations in plan order; None when the plan is malformed. */
  function Targets(env: Env, files: seq<File>): Option<seq<Path>>
    decreases |files|
  {
    if files == [] then Some([])
    else
      var n := |files| - 1;
      var before := Targets(env, files[..n]);
      if before.None? || files[n].path == "" then None
      else
        var abs := env.abs(files[n].path);
        if abs.None? || abs.value in before.value then None else Some(before.value + [abs.value])
  }

  /** What the duplicate check buys: a plan is accepted exactly when every entry has a path that
      resolves, and no two resolve to the same destination. */
  lemma {:induction false} TargetsIff(env: Env, files: seq<File>)
    ensures Targets(env, files).Some? <==>
      && (forall i | 0 <= i < |files| :: files[i].path != "" && env.abs(files[i].path).Some?)
      && (forall i, j | 0 <= i < j < |files| :: env.abs(files[i].path) != env.abs(files[j].path))
    ensures Targets(env, files).Some? ==>
      var ts := Targets(env, files).value;
      && |ts| == |files| && Distinct(ts)
      && (forall i | 0 <= i < |files| :: env.abs(files[i].path) == Some(ts[i]))
    decreases |files|
  {
    if files != [] {
      var n := |files| - 1;
      TargetsIff(env, files[..n]);
      assert forall i | 0 <= i < n :: files[..n][i] == files[i];
      if Targets(env, files).Some? {
        var ts := Targets(env, files[..n]).value;
        forall i | 0 <= i < n ensures env.abs(files[i].path) != env.abs(files[n].path) {
          assert ts[i] in ts;
        }
      }
    }
  }

  /** One call of Apply on a valid plan. */
  datatype Ctx = Ctx(env: Env, plan: Plan, targets: seq<Path>) {
    predicate Valid() {
      && Targets(env, plan.files) == Some(targets)
      && |targets| == |plan.files|
      && targets != []
    }

    function N(): nat {
      |targets|
    }

    function Order(): (r: seq<Path>)
      ensures |r| == |targets|
    {
      Sort(targets)
    }

    function Keep(): int {
      if plan.retention == 0 then DEFAULT_RETENTION else plan.retention
    }
  }

  /** The working state kept per destination. */
  datatype Prep = Prep(owner: Resolved, hadOrig: bool, backup: Option<Path>, temp: Option<Path>)

  /** Putting one destination back. */
  datatype Undo =
    | Choosing
    | Deleting
    | Fetching
    | Rewriting(data: Bytes, stage: Stage)
    | Swapping(temp: Path)
    | Scrapping(temp: Path)

  /** Why the remaining temp files are being removed. */
  datatype Cause = Abort(error: Error) | Partial(upto: nat, failed: bool)

  datatype Pc =
    | Locking(i: nat)
    | Checking
    | Comparing(i: nat)
    | Statting(i: nat)
    | BackupHead(i: nat)
    | BackingUp(i: nat, copy: Copy)
    | DroppingBackups(taken: set<Path>)
    | StagingFile(i: nat, stage: Stage)
    | DroppingTemps(i: nat, cause: Cause)
    | Validating
    | Renaming(i: nat)
    | Restoring(i: nat, undo: Undo, upto: nat, failed: bool, reload: bool)
    | Reloading
    | ReloadingOld
    | Listing(i: nat)
    | Pruning(i: nat, todo: seq<Path>)
    | Unlocking(left: nat, out: Outcome)
    | Done(out: Outcome)

  datatype St = St(pc: Pc, preps: seq<Prep>)

  function Start(): St {
    St(Locking(0), [])
  }

  function SameDigest(env: Env, a: Bytes, b: Bytes): bool {
    |a| == |b| && env.digest(a) == env.digest(b)
  }

  function BackupMap(ts: seq<Path>, preps: seq<Prep>): map<Path, Option<Path>>
    requires |preps| <= |ts|
  {
    if preps == [] then map[]
    else
      var n := |preps| - 1;
      BackupMap(ts, preps[..n])[ts[n] := preps[n].backup]
  }

  function TempMap(ts: seq<Path>, preps: seq<Prep>): map<Path, Path>
    requires |preps| <= |ts|
  {
    if preps == [] then map[]
    else
      var n := |preps| - 1;
      var before := TempMap(ts, preps[..n]);
      if preps[n].temp.Some? then before[ts[n] := preps[n].temp.value] else before
  }

  // ----- results -----

  function Exit(c: Ctx, preps: seq<Prep>, out: Outcome): Option<St> {
    Some(St(Unlocking(c.N(), out), preps))
  }

  function Fail(error: Error): Outcome {
    Outcome(Some(error), None)
  }

  function Skipped(): Outcome {
    Outcome(None, Some(Result(true, map[], false, false, false)))
  }

  /** A result with the backups taken so far; validation has passed. */
  function Report(c: Ctx, preps: seq<Prep>, error: Option<Error>, reloaded: bool, rolledBack: bool): Outcome {
    var backups := if c.plan.retention == NO_BACKUPS || |preps| != c.N() then map[] else BackupMap(c.targets, preps);
    Outcome(error, Some(Result(false, backups, true, reloaded, rolledBack)))
  }

  // ----- transitions -----

  function Go(s: St, pc: Pc): Option<St> {
    Some(s.(pc := pc))
  }

  function StepLocking(c: Ctx, s: St, e: Event): Option<St>
    requires s.pc.Locking?
  {
    var i := s.pc.i;
    if i < c.N() && e == Lock(FileLock(c.Order()[i]))
    then Go(s, if i + 1 == c.N() then Checking else Locking(i + 1))
    else None
  }

  function StepChecking(c: Ctx, s: St, e: Event): Option<St> {
    if !e.Context? then None
    else if !e.live then Exit(c, s.preps, Fail(Canceled))
    else Go(s, if c.plan.skipIdempotent then Statting(0) else Comparing(0))
  }

  function StepComparing(c: Ctx, s: St, e: Event): Option<St>
    requires s.pc.Comparing? && c.Valid()
  {
    var i := s.pc.i;
    if i >= c.N() || !e.ReadFile? || e.path != c.targets[i] then None
    else if e.got.None? || !SameDigest(c.env, e.got.value, c.plan.files[i].bytes) then Go(s, Statting(0))
    else if i + 1 == c.N() then Exit(c, s.preps, Skipped())
    else Go(s, Comparing(i + 1))
  }

  function StepStatting(c: Ctx, s: St, e: Event): Option<St>
    requires s.pc.Statting? && c.Valid()
  {
    var i := s.pc.i;
    if i >= c.N() || !e.Stat? || e.path != c.targets[i] then None
    else
      var owner := Resolve(c.env, c.plan.files[i], c.plan.defaults, e.meta);
      if owner.None? then Exit(c, s.preps, Fail(OwnershipUnresolved))
      else Some(St(if i + 1 == c.N() then BackupHead(0) else Statting(i + 1),
                   s.preps + [Prep(owner.value, e.meta.Some?, None, None)]))
  }

  function StepBackupHead(c: Ctx, s: St, e: Event): Option<St>
    requires s.pc.BackupHead?
  {
    var i := s.pc.i;
    if !e.Internal? || |s.preps| != c.N() then None
    else if c.plan.retention == NO_BACKUPS || i >= c.N() then Go(s, StagingFile(0, Opening))
    else Go(s, if s.preps[i].hadOrig then BackingUp(i, Reading) else BackupHead(i + 1))
  }

  function Taken(preps: seq<Prep>): set<Path> {
    set i | 0 <= i < |preps| && preps[i].backup.Some? :: preps[i].backup.value
  }

  function AfterCopy(c: Ctx, s: St, i: nat, r: CopyResult): Option<St>
    requires i < |s.preps|
  {
    match r
    case Copying(copy) => Go(s, BackingUp(i, copy))
    case Copied(b) => Some(St(BackupHead(i + 1), s.preps[i := s.preps[i].(backup := Some(b))]))
    case NoCopy => Go(s, DroppingBackups(Taken(s.preps)))
    case BadCall => None
  }

  /** The source removes the partial set in the unspecified order of a map. */
  function StepDroppingBackups(c: Ctx, s: St, e: Event): Option<St>
    requires s.pc.DroppingBackups?
  {
    var taken := s.pc.taken;
    if taken == {} then (if e.Internal? then Exit(c, s.preps, Fail(BackupFailed)) else None)
    else if e.Remove? && e.path in taken then Go(s, DroppingBackups(taken - {e.path}))
    else None
  }

  function StartCommit(c: Ctx): Pc {
    if c.plan.hasPre then Validating else Renaming(0)
  }

  function AfterStage(c: Ctx, s: St, i: nat, r: StageResult): Option<St>
    requires i < |s.preps|
  {
    match r
    case Staging(stage) => Go(s, StagingFile(i, stage))
    case Ready(t) =>
      Some(St(if i + 1 == c.N() then StartCommit(c) else StagingFile(i + 1, Opening),
              s.preps[i := s.preps[i].(temp := Some(t))]))
    case NoTemp => Go(s, DroppingTemps(0, Abort(TempFailed)))
    case Unowned(t) =>
      Some(St(DroppingTemps(0, Abort(TempFailed)), s.preps[i := s.preps[i].(temp := Some(t))]))
    case Wrong => None
  }

  function StepDroppingTemps(c: Ctx, s: St, e: Event): Option<St>
    requires s.pc.DroppingTemps?
  {
    var i := s.pc.i;
    if i >= |s.preps| then
      if !e.Internal? then None
      else match s.pc.cause
        case Abort(error) => Exit(c, s.preps, Fail(error))
        case Partial(_, failed) =>
          Exit(c, s.preps, Report(c, s.preps, Some(if failed then RollbackFailed else RenameFailed), false, false))
    else if s.preps[i].temp.None? then
      if e.Internal? then Go(s, DroppingTemps(i + 1, s.pc.cause)) else None
    else if e.Remove? && e.path == s.preps[i].temp.value then Go(s, DroppingTemps(i + 1, s.pc.cause))
    else None
  }

  function StepValidating(c: Ctx, s: St, e: Event): Option<St> {
    if !e.PreCommit? || |s.preps| != c.N() || e.temps != TempMap(c.targets, s.preps) then None
    else Go(s, if e.ok then Renaming(0) else DroppingTemps(0, Abort(ValidateFailed)))
  }

  function StartPrune(c: Ctx, s: St): Option<St> {
    if c.Keep() > 0 then Go(s, Listing(0)) else Exit(c, s.preps, Report(c, s.preps, None, true, false))
  }

  function StepRenaming(c: Ctx, s: St, e: Event): Option<St>
    requires s.pc.Renaming?
  {
    var i := s.pc.i;
    if i >= c.N() || |s.preps| != c.N() || s.preps[i].temp.None? || !e.Rename?
       || e.from != s.preps[i].temp.value || e.to != c.targets[i] then None
    else if !e.ok then Go(s, Restoring(0, Choosing, i, false, false))
    else if i + 1 < c.N() then Go(s, Renaming(i + 1))
    else if c.plan.hasPost then Go(s, Reloading)
    else StartPrune(c, s)
  }

  function StepReloading(c: Ctx, s: St, e: Event): Option<St> {
    if !e.PostCommit? then None
    else if e.ok then StartPrune(c, s)
    else Go(s, Restoring(0, Choosing, c.N(), false, true))
  }

  function StepReloadingOld(c: Ctx, s: St, e: Event): Option<St> {
    if !e.PostCommit? then None
    else Exit(c, s.preps, Report(c, s.preps, Some(if e.ok then ReloadFailed else RollbackFailed), false, e.ok))
  }

  function AfterUndo(s: St, failed: bool): Option<St>
    requires s.pc.Restoring?
  {
    Go(s, s.pc.(i := s.pc.i + 1, undo := Choosing, failed := s.pc.failed || failed))
  }

  function AfterRewrite(s: St, data: Bytes, r: StageResult): Option<St>
    requires s.pc.Restoring?
  {
    match r
    case Staging(stage) => Go(s, s.pc.(undo := Rewriting(data, stage)))
    case Ready(t) => Go(s, s.pc.(undo := Swapping(t)))
    case NoTemp => AfterUndo(s, true)
    case Unowned(t) => Go(s, s.pc.(undo := Scrapping(t)))
    case Wrong => None
  }

  function AfterRestore(c: Ctx, s: St): Option<St>
    requires s.pc.Restoring?
  {
    if !s.pc.reload then Go(s, DroppingTemps(0, Partial(s.pc.upto, s.pc.failed)))
    else if s.pc.failed then Exit(c, s.preps, Report(c, s.preps, Some(RollbackFailed), false, false))
    else Go(s, ReloadingOld)
  }

  function StepRestoring(c: Ctx, s: St, e: Event): Option<St>
    requires s.pc.Restoring?
  {
    var i := s.pc.i;
    if s.pc.upto > c.N() || |s.preps| != c.N() then None
    else if i >= s.pc.upto then
      if s.pc.undo.Choosing? && e.Internal? then AfterRestore(c, s) else None
    else
      var d := c.targets[i];
      match s.pc.undo
      case Choosing =>
        if !e.Internal? then None
        else Go(s, s.pc.(undo := if s.preps[i].backup.None? then Deleting else Fetching))
      case Deleting =>
        if e.Remove? && e.path == d then AfterUndo(s, e.reply.Refused?) else None
      case Fetching =>
        if s.preps[i].backup.None? || !e.ReadFile? || e.path != s.preps[i].backup.value then None
        else if e.got.None? then AfterUndo(s, true)
        else Go(s, s.pc.(undo := Rewriting(e.got.value, Opening)))
      case Rewriting(data, stage) =>
        AfterRewrite(s, data, StageStep(c.env, d, data, s.preps[i].owner, stage, e))
      case Swapping(t) =>
        if !e.Rename? || e.from != t || e.to != d then None
        else if e.ok then AfterUndo(s, false)
        else Go(s, s.pc.(undo := Scrapping(t)))
      case Scrapping(t) =>
        if e.Remove? && e.path == t then AfterUndo(s, true) else None
  }

  /** The backups that fall out of the window: all but the last `keep` in name order. */
  function Doomed(names: seq<Path>, keep: nat): seq<Path> {
    if |names| <= keep then [] else Sort(names)[..|names| - keep]
  }

  function PruneNext(c: Ctx, s: St, i: nat): Option<St> {
    if i + 1 < c.N() then Go(s, Listing(i + 1))
    else Exit(c, s.preps, Report(c, s.preps, None, true, false))
  }

  function PruneRest(c: Ctx, s: St, i: nat, todo: seq<Path>): Option<St> {
    if todo == [] then PruneNext(c, s, i) else Go(s, Pruning(i, todo))
  }

  function StepListing(c: Ctx, s: St, e: Event): Option<St>
    requires s.pc.Listing?
  {
    var i := s.pc.i;
    if i >= c.N() || c.Keep() <= 0 || !e.ListBackups? || e.dest != c.targets[i] then None
    else PruneRest(c, s, i, if e.names.None? then [] else Doomed(e.names.value, c.Keep()))
  }

  function StepPruning(c: Ctx, s: St, e: Event): Option<St>
    requires s.pc.Pruning?
  {
    if s.pc.todo == [] || !e.Remove? || e.path != s.pc.todo[0] then None
    else PruneRest(c, s, s.pc.i, s.pc.todo[1..])
  }

  function StepUnlocking(c: Ctx, s: St, e: Event): Option<St>
    requires s.pc.Unlocking?
  {
    var k := s.pc.left;
    if 0 < k <= c.N() && e == Unlock(FileLock(c.Order()[k - 1]))
    then Go(s, if k == 1 then Done(s.pc.out) else Unlocking(k - 1, s.pc.out))
    else None
  }

  function Step(c: Ctx, s: St, e: Event): Option<St>
    requires c.Valid()
  {
    match s.pc
    case Locking(_) => StepLocking(c, s, e)
    case Checking => StepChecking(c, s, e)
    case Comparing(_) => StepComparing(c, s, e)
    case Statting(_) => StepStatting(c, s, e)
    case BackupHead(_) => StepBackupHead(c, s, e)
    case BackingUp(i, copy) =>
      if i < c.N() && |s.preps| == c.N() then AfterCopy(c, s, i, CopyStep(c.targets[i], copy, e)) else None
    case DroppingBackups(_) => StepDroppingBackups(c, s, e)
    case StagingFile(i, stage) =>
      if i < c.N() && |s.preps| == c.N()
      then AfterStage(c, s, i, StageStep(c.env, c.targets[i], c.plan.files[i].bytes, s.preps[i].owner, stage, e))
      else None
    case DroppingTemps(_, _) => StepDroppingTemps(c, s, e)
    case Validating => StepValidating(c, s, e)
    case Renaming(_) => StepRenaming(c, s, e)
    case Restoring(_, _, _, _, _) => StepRestoring(c, s, e)
    case Reloading => StepReloading(c, s, e)
    case ReloadingOld => StepReloadingOld(c, s, e)
    case Listing(_) => StepListing(c, s, e)
    case Pruning(_, _) => StepPruning(c, s, e)
    case Unlocking(_, _) => StepUnlocking(c, s, e)
    case Done(_) => None
  }

  /** The state after the calls `es`; None if Apply would not have made them. */
  function Run(c: Ctx, es: seq<Event>): Option<St>
    requires c.Valid()
  {
    if es == [] then Some(Start())
    else
      var n := |es| - 1;
      var s := Run(c, es[..n]);
      if s.Some? then Step(c, s.value, es[n]) else None
  }

  lemma {:induction false} RunSnoc(c: Ctx, es: seq<Event>, e: Event)
    requires c.Valid()
    ensures Run(c, es + [e]) == var s := Run(c, es); if s.Some? then Step(c, s.value, e) else None
  {
    assert (es + [e])[..|es|] == es;
  }

  // ----- shape of reachable states -----

  ghost predicate PrepNames(d: Path, p: Prep) {
    && (p.backup.Some? ==> MadeBackup(d, p.backup.value))
    && (p.temp.Some? ==> MadeTemp(d, p.temp.value))
  }

  ghost predicate UndoNames(d: Path, p: Prep, u: Undo) {
    match u
    case Rewriting(_, stage) => StageNames(d, stage)
    case Swapping(t) => MadeTemp(d, t)
    case Scrapping(t) => MadeTemp(d, t)
    case Deleting => p.backup.None?
    case Fetching => p.backup.Some?
    case Choosing => true
  }

  /** Apply returns no error only with a result, a skipped run reports nothing else, and the
      errors after the first rename come with the backups. */
  predicate Sensible(out: Outcome) {
    && (out.error.None? ==> out == Skipped() || (out.result.Some? && !out.result.value.skipped))
    && (out.error.Some? ==> (out.result.Some? <==>
         out.error.value == RenameFailed || out.error.value == ReloadFailed || out.error.value == RollbackFailed))
  }

  ghost predicate Shape(c: Ctx, s: St)
    requires c.Valid()
  {
    match s case St(pc, preps) =>
      && |preps| <= c.N()
      && (forall j | 0 <= j < |preps| :: PrepNames(c.targets[j], preps[j]))
      && (c.plan.retention == NO_BACKUPS ==> forall j | 0 <= j < |preps| :: preps[j].backup.None?)
      && match pc
         case Locking(i) => i < c.N() && preps == []
         case Checking => preps == []
         case Comparing(i) => i < c.N() && preps == [] && !c.plan.skipIdempotent
         case Statting(i) => i < c.N() && |preps| == i && forall j | 0 <= j < i :: preps[j].temp.None?
         case Unlocking(k, out) => 0 < k <= c.N() && Sensible(out) && (out == Skipped() ==> !c.plan.skipIdempotent)
         case Done(out) => Sensible(out) && (out == Skipped() ==> !c.plan.skipIdempotent)
         case _ => |preps| == c.N() && ShapeFull(c, s)
  }

  ghost predicate ShapeFull(c: Ctx, s: St)
    requires c.Valid() && |s.preps| == c.N()
  {
    match s.pc
    case BackupHead(i) => i <= c.N() && forall j | 0 <= j < c.N() :: s.preps[j].temp.None?
    case Reloading => true
    case BackingUp(i, copy) =>
      && i < c.N() && c.plan.retention != NO_BACKUPS && CopyNames(c.targets[i], copy)
      && forall j | 0 <= j < c.N() :: s.preps[j].temp.None?
    case DroppingBackups(taken) =>
      && c.plan.retention != NO_BACKUPS
      && forall b | b in taken :: exists j | 0 <= j < c.N() :: MadeBackup(c.targets[j], b)
    case StagingFile(i, stage) =>
      i < c.N() && StageNames(c.targets[i], stage) && forall j | 0 <= j < c.N() :: s.preps[j].temp.Some? <==> j < i
    case DroppingTemps(i, cause) =>
      && i <= c.N()
      && (cause.Partial? ==> cause.upto <= c.N())
      && (cause.Abort? ==> cause.error == TempFailed || cause.error == ValidateFailed)
    case Renaming(i) => i < c.N() && forall j | 0 <= j < c.N() :: s.preps[j].temp.Some?
    case Validating => forall j | 0 <= j < c.N() :: s.preps[j].temp.Some?
    case Restoring(i, undo, upto, _, reload) =>
      i <= upto <= c.N() && (reload ==> upto == c.N()) && (i == upto ==> undo.Choosing?)
        && (i < upto ==> UndoNames(c.targets[i], s.preps[i], undo))
    case Listing(i) => i < c.N() && c.Keep() > 0
    case Pruning(i, todo) =>
      i < c.N() && c.Keep() > 0 && todo != [] && Distinct(todo) && forall b | b in todo :: IsBackupOf(c.targets[i], b)
    case _ => true
  }

  lemma ShapeStart(c: Ctx)
    requires c.Valid()
    ensures Shape(c, Start())
  {
  }

  lemma ShapeStaging(c: Ctx, s: St, e: Event, s': St)
    requires c.Valid() && Shape(c, s) && s.pc.StagingFile? && Step(c, s, e) == Some(s')
    ensures Shape(c, s')
  {
    hide Sibling, MadeBackup, MadeTemp;
    var i := s.pc.i;
    StageStepNames(c.env, c.targets[i], c.plan.files[i].bytes, s.preps[i].owner, s.pc.stage, e);
  }

  lemma ShapeBackingUp(c: Ctx, s: St, e: Event, s': St)
    requires c.Valid() && Shape(c, s) && s.pc.BackingUp? && Step(c, s, e) == Some(s')
    ensures Shape(c, s')
  {
    hide Sibling, MadeBackup, MadeTemp;
    CopyStepNames(c.targets[s.pc.i], s.pc.copy, e);
  }

  /** A restore goes on with the same destination, or moves to the next one. */
  lemma RestoringGoesOn(c: Ctx, s: St, e: Event, s': St)
    requires c.Valid() && s.pc.Restoring? && StepRestoring(c, s, e) == Some(s') && s.pc.i < s.pc.upto
    ensures s'.preps == s.preps && s'.pc.Restoring? && s'.pc.upto == s.pc.upto && s'.pc.reload == s.pc.reload
    ensures || (s'.pc.i == s.pc.i && s'.pc.failed == s.pc.failed)
            || (s'.pc.i == s.pc.i + 1 && s'.pc.undo == Choosing && (s.pc.failed ==> s'.pc.failed))
  {
    hide StageStep, Targets;
  }

  lemma ShapeRestoring(c: Ctx, s: St, e: Event, s': St)
    requires c.Valid() && Shape(c, s) && s.pc.Restoring? && StepRestoring(c, s, e) == Some(s')
    requires !s.pc.undo.Rewriting?
    ensures Shape(c, s')
  {
    hide Sibling, MadeBackup, MadeTemp, BackupMap, Targets, StageStep;
    if s.pc.i < s.pc.upto { RestoringGoesOn(c, s, e, s'); }
  }

  lemma ShapeRewriting(c: Ctx, s: St, e: Event, s': St)
    requires c.Valid() && Shape(c, s) && s.pc.Restoring? && StepRestoring(c, s, e) == Some(s')
    requires s.pc.undo.Rewriting?
    ensures Shape(c, s')
  {
    hide Sibling, MadeBackup, MadeTemp;
    var i := s.pc.i;
    StageStepNames(c.env, c.targets[i], s.pc.undo.data, s.preps[i].owner, s.pc.undo.stage, e);
  }

  lemma ShapeListing(c: Ctx, s: St, e: Event, s': St, fs: Fs)
    requires c.Valid() && Shape(c, s) && s.pc.Listing? && StepListing(c, s, e) == Some(s') && Enabled(e, fs)
    ensures Shape(c, s')
  {
    hide Sibling, MadeBackup, MadeTemp, Doomed, Targets, BackupMap, PrepNames, Sort;
    if e.names.Some? { DoomedAreListed(e.names.value, c.Keep()); }
  }

  lemma DoomedAreListed(names: seq<Path>, keep: nat)
    requires Distinct(names)
    ensures Distinct(Doomed(names, keep)) && forall b | b in Doomed(names, keep) :: b in names
  {
    hide Sort;
    SortMembers(names);
    SortAscending(names);
    assert forall b | b in Doomed(names, keep) :: b in Sort(names);
  }

  lemma ShapeStatting(c: Ctx, s: St, e: Event, s': St)
    requires c.Valid() && Shape(c, s) && s.pc.Statting? && StepStatting(c, s, e) == Some(s')
    ensures Shape(c, s')
  {
    hide Sibling, MadeBackup, MadeTemp;
  }

  lemma ShapeBackupHead(c: Ctx, s: St, e: Event, s': St)
    requires c.Valid() && Shape(c, s) && s.pc.BackupHead? && StepBackupHead(c, s, e) == Some(s')
    ensures Shape(c, s')
  {
    hide Sibling, MadeBackup, MadeTemp;
  }

  lemma ShapeRenaming(c: Ctx, s: St, e: Event, s': St)
    requires c.Valid() && Shape(c, s) && s.pc.Renaming? && StepRenaming(c, s, e) == Some(s')
    ensures Shape(c, s')
  {
    hide Sibling, MadeBackup, MadeTemp;
  }

  lemma ShapeEarly(c: Ctx, s: St, e: Event, s': St)
    requires c.Valid() && Shape(c, s) && Step(c, s, e) == Some(s')
    requires s.pc.Locking? || s.pc.Checking? || s.pc.Comparing? || s.pc.DroppingBackups? || s.pc.Unlocking?
    ensures Shape(c, s')
  {
    hide Sibling, MadeBackup, MadeTemp, Targets, Sort, SameDigest, BackupMap, TempMap, PrepNames, Resolve, StageStep,
      CopyStep, StepRestoring, StepRenaming, StepListing, StepPruning, StepStatting;
  }

  lemma ShapeLate(c: Ctx, s: St, e: Event, s': St)
    requires c.Valid() && Shape(c, s) && Step(c, s, e) == Some(s')
    requires s.pc.Validating? || s.pc.Reloading? || s.pc.ReloadingOld? || s.pc.Pruning? || s.pc.DroppingTemps?
    ensures Shape(c, s')
  {
    hide Sibling, MadeBackup, MadeTemp, Targets, BackupMap, TempMap, PrepNames, StageStep, CopyStep, StepRestoring,
      Sort, Resolve;
  }

  /** Every state keeps its shape: indices stay in range and each tracked name belongs to
      the destination it is tracked for. */
  lemma ShapeStep(c: Ctx, s: St, e: Event, s': St, fs: Fs)
    requires c.Valid() && Shape(c, s) && Step(c, s, e) == Some(s') && Enabled(e, fs)
    ensures Shape(c, s')
  {
    hide Sibling, MadeBackup, MadeTemp;
    if s.pc.StagingFile? { ShapeStaging(c, s, e, s'); }
    else if s.pc.BackingUp? { ShapeBackingUp(c, s, e, s'); }
    else if s.pc.Restoring? {
      if s.pc.undo.Rewriting? { ShapeRewriting(c, s, e, s'); } else { ShapeRestoring(c, s, e, s'); }
    } else if s.pc.Listing? { ShapeListing(c, s, e, s', fs); }
    else if s.pc.BackupHead? { ShapeBackupHead(c, s, e, s'); }
    else if s.pc.Statting? { ShapeStatting(c, s, e, s'); }
    else if s.pc.Renaming? { ShapeRenaming(c, s, e, s'); }
    else if s.pc.Validating? || s.pc.Reloading? || s.pc.ReloadingOld? || s.pc.Pruning? || s.pc.DroppingTemps? {
      ShapeLate(c, s, e, s');
    } else { ShapeEarly(c, s, e, s'); }
  }
}
