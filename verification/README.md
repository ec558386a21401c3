# certctl, verified

A Dafny model of four parts of certctl whose behaviour is easy to get wrong, with proofs of what
they promise:

* the **deployment transaction** (`internal/deploy`): several certificate files replaced together,
  under faults, crashes, hooks, rollback, backups and concurrent callers;
* the **channel-binding walk** (`internal/cms`): a cursor over raw DER and the decision on top;
* the **named API keys** (`internal/config`, `internal/auth`): the parser with its rotation rules
  and the first-match store behind it;
* the **ciphertext envelope** (`internal/crypto`): three blob formats told apart by trial.

`dafny verify dfyconfig.toml` checks all of it.

## How the deployment is modelled

`Os` is a file tree and the system calls on it, each an event with its reply. Every call may fail;
a failed write may have written any prefix. `ApplyProtocol` and `WriteProtocol` are the control flow
of `Apply` and `AtomicWriteFile` as automata that consume these events one at a time, built from
the two file procedures of `FileOps`. A run is any event sequence the automaton accepts and the tree
can answer, so a theorem over runs covers every fault and, since a prefix of a run is a run, every
crash point. `ApplySafety` holds the inductive invariant; `ApplyTheorems`, `ApplyAborts`,
`ApplySuccess`, `ApplyHooks`, `ApplyHygiene`, `ApplyFootprint`, `Retention`, `Reports`,
`ApplyOutcomes`, `WriteOutcomes` and `Agreement` draw the consequences. `ApplyCauses` and
`WriteCauses` say of every error by which calls of the run it is returned, `ApplyRestores` when a
rollback succeeds, `ApplyBackups` and `WriteBackups` what a backup is a copy of.

A plan may name a file the way a deployment names its own temp files and backups, and then the
promises fail. Three conditions on a destination, all read off the plan before the call, say when:

* it is *clear*: no other destination is a temp or backup name of it, made with a stamp, nor it of
  another (backup names only when backups are on). Nothing that is said about a deployment before
  and without success needs more;
* it is *spared*: with pruning on, the backup prefix of no other destination matches it;
* it *survives*: it is spared, and of the pair it forms with any other destination the earlier one
  in plan order has no temp name of the later one. Success needs no more.

`Runs` and `WriteRuns` put concrete runs together, for any number of files. `Lookalikes` builds from
them a run against every plan that breaks a condition, so that `Exactness` can state each promise as
an if and only if over all trees and runs. `Limits` shows where the promises end for other reasons.
The retention theorems are about backups and ask more: the destination shares no name at all with
the others, which `SeparationIff` makes precise.

`Host` is a class with one method per system call, free to fail. `FileProcs`, `Deploy` and
`AtomicWrite` are the source's procedures as imperative methods on it, loops and all. Each is proved
to make exactly the calls of the protocol, so the theorems hold of the programs.

`Calls` reduces both operations to one locking discipline, from which `Serializability` and
`Deadlock` follow for any number of callers, the agent's per-target mutex included; `Races` shows
what goes wrong between callers whose names are not separated.

## Where the code and its documentation differ

* Retention 0 means the default of 3, not "no backups" as `internal/deploy/doc.go:58` says.
* The errors of context, backup, temp file, plain rename and ownership wrap no sentinel, although
  `internal/deploy/types.go:13-15` says every error does. The model gives each its own constructor.
* `applyOwnership` is described as best effort; a failed chmod, and as root a failed chown, fails
  the deployment.
* With backups off (-1), or when a Stat fails on a file that exists, a rollback deletes the
  destination and still reports success of the rollback (`AbortIff`, `RollbackIff`,
  `RollbackCanDelete`, `RenewalLost`).
* `restoreFromBackups` says that it reapplies the original ownership; it applies what the plan
  resolves to, so a rolled-back file keeps a mode or owner that the plan overrides
  (`RestoredOwnership`, `RollbackReowns`, `ModeNotRestored`).
* `FileMode.Perm` drops setuid, setgid and sticky, so "preserved" means the nine permission bits
  (`OwnershipPreserved`, `SpecialBitsLost`).
* `validatePlan` accepts plans in which one destination looks like a temp file or a backup of
  another. Apply may then rename it away or prune it and report success (`TempLookalikeLost`,
  `BackupLookalikeLost`), and a deployment that is given up may leave it behind (`MakesAppear`).
  `SuccessIff`, `AbortExactIff`, `CrashConsistencyIff`, `UntouchedIff`, `OldUntilValidatedIff` and
  `AllOrNothingIff` name the plans that are safe.
* A destination whose name ends in `.certctl-bak` shares backup names with its stem
  (`ClosingDotOverlaps`); `SeparationIff` is the exact condition.
* For a process that is not root a refused chown is ignored, so AtomicWriteFile and Apply may leave
  a file to different users (`SameDestinationIff`).
* Two names may be configured with one key; the second never authenticates (`SharedKeyShadows`,
  `AllResolveIff`).
* A malformed request passes the binding check when nothing is required and the connection has no
  exporter (`MalformedAcceptedIff`).
* A legacy blob can, in principle, be shadowed by a later-format reading of the same bytes
  (`LegacyRoundTripIff`, `AmbiguousLegacyBlob`).

## Model

| member | source | states |
|---|---|---|
| Text.DecimalOrder | internal/deploy/atomic.go:295-301 | zero-padded decimals of one width compare, as strings, exactly as the numbers do, and are equal only for equal numbers |
| Paths.NamesFollowTime | internal/deploy/atomic.go:295-301 | two backups of one destination sort by name if and only if they sort by time |
| Paths.DerivedNames | internal/deploy/types.go:239-248 | the derived names written out: the path, `.certctl-bak.` or `.certctl-tmp.`, nineteen digits |
| Paths.SeparationIff | internal/deploy/types.go:239-248 | two destinations share no destination, backup or temp name if and only if neither name spells out the other followed by a suffix, the closing dot included |
| Paths.MadeForOne | internal/deploy/atomic.go:179-241 | a stamped temp or backup name tells the destination it was made for and which of the two it is |
| Paths.PlainNamesAreApart | internal/deploy/types.go:239-248 | base names without `.certctl-bak` and `.certctl-tmp` are separated in that sense |
| Paths.PruningSparesOthers | internal/deploy/atomic.go:246-279 | if no base name contains `.certctl-bak`, a name that the pruning prefix of one path matches is no other destination, nor a backup or temp file of it |
| Paths.ClosingDotOverlaps | internal/deploy/types.go:239-248 | the weaker test fails for every path: all backups of `p.certctl-bak` match the prefix of `p` |
| Paths.ClosingDotExample | internal/deploy/types.go:239-243 | two names that share a backup name although neither contains the suffix |
| Ownership.PreservationIff | internal/deploy/ownership.go:46-106 | as root over an existing file with nothing overridden, user and group stay and the mode stays if and only if it has no special bits |
| Ownership.ResolveTakesFirst | internal/deploy/ownership.go:46-106 | mode and owner each come from the entry, else the existing file, else the defaults; half an owner pair counts as none; resolution fails exactly when a name that is used is unknown |
| Os.AnswerIsLocal | internal/deploy/atomic.go:179-241 | a call's possible replies and its effect depend only on the paths it touches |
| FileOps.StageStepOk | internal/deploy/atomic.go:179-212 | a temp file is handed on only with all the data and the resolved ownership, whatever failed before |
| FileOps.CopyStepOk | internal/deploy/atomic.go:218-241 | a backup is reported only when it holds the complete original |
| FileOps.CopyStepExact | internal/deploy/atomic.go:218-241 | each step of the copy, for a backup that was not there before: mode as opened, bytes as written, owner as the chown was answered; the copy ends with that chown |
| FileOps.CopyComplete | internal/deploy/atomic.go:218-241 | a finished copy of a file to a new backup has its bytes, its permission bits under the umask, and its user and group if the chown was granted, those of the process otherwise |
| ApplyProtocol.TargetsIff | internal/deploy/apply.go:233-252 | a plan is accepted if and only if every path is non-empty and resolves and no two resolve alike |
| ApplyProtocol.ShapeStep | internal/deploy/apply.go:254-264 | every step keeps indices in range and each tracked temp and backup name with the destination it was made for |
| ApplySafety.SafeStep | internal/deploy/apply.go:83-226 | every step, failing or not, preserves the invariant that ties each destination, its backup and its temp file to the control state |
| ApplySafety.InvReached | internal/deploy/apply.go:44-230 | the invariant holds at every point of every run |
| ApplySafety.SeenReached | internal/deploy/apply.go:105-122 | Apply treats a file as existing exactly when a Stat of the run found it |
| ApplyTheorems.CrashConsistency | internal/deploy/apply.go:124-215 | with backups on, at every point a clear destination (once pruning begins, a spared one) is wholly old or wholly new; untouched before the first rename; during the rename loop exactly a plan-order prefix is new; an overwritten original is in a backup |
| ApplyTheorems.AllOrNothing | internal/deploy/apply.go:44-230 | with backups on and truthful stats: no error means the planned bytes with the resolved ownership (a skip rests on the hash), any error but ErrRollbackFailed means the original bytes or absence; for clear destinations, spared ones after success |
| ApplyTheorems.RollbackIff | internal/deploy/apply.go:194-213 | after ErrReloadFailed a clear destination is back if and only if it was absent, or backups were on and a Stat of the run found it; with backups off every destination is gone |
| ApplyTheorems.OwnershipPreserved | internal/deploy/ownership.go:46-155 | as root, with nothing overridden, a destination has its old user, group and permission bits at every point, new or restored; the whole mode if and only if it was not replaced or had no special bits |
| ApplyTheorems.TempsArePrivate | internal/deploy/atomic.go:186-212 | from its creation until its chmod a temp file has mode 0600 under the umask and belongs to the process, whatever mode it is to get |
| ApplySuccess.SuccessDeploys | internal/deploy/apply.go:83-230 | with or without backups and whatever Stat said: no error means that a destination that survives has the planned bytes and was renamed over, with truthful Stat under the resolved ownership; after a skip every destination has them, which rests on a collision-free hash |
| ApplySuccess.HoldingReached | internal/deploy/apply.go:144-226 | at every point a destination that survives is in its complete temp file until its rename and in place from then on |
| ApplyAborts.AbortIff | internal/deploy/apply.go:124-213 | for every error but ErrRollbackFailed, with or without backups and whatever Stat said: a clear destination is as it was if and only if it was absent, was never renamed over, or backups were on and a Stat of the run found it; otherwise it has been deleted |
| ApplyAborts.KnownReached | internal/deploy/apply.go:176-192 | at every point the control state tells which destinations have been renamed over |
| ApplyCauses.ErrorsIff | internal/deploy/apply.go:75-213 | each error, exactly, by the calls of the run: Canceled if and only if the context was found cancelled; ownership if and only if the first Stat of a destination leaves its owner unresolved; backup, temp file, validate, rename and reload if and only if a call of that phase failed; ErrRollbackFailed if and only if a call of the restore or the second reload failed; none if and only if none of these happened |
| ApplyCauses.EarlyErrorsChangeNothing | internal/deploy/apply.go:75-122 | a cancelled run makes no call but locks and unlocks, one with an unknown owner only reads besides, and both leave the tree as it was |
| ApplyCauses.RestoreFailedIff | internal/deploy/apply.go:269-319 | between two files of the restore a failure is on record if and only if one of its calls has failed |
| ApplyRestores.RestoredIff | internal/deploy/apply.go:269-319 | after any error, ErrRollbackFailed included, a clear destination for which no call of the restore failed is as it was if and only if it was absent, never renamed over, or backed up; with backups and truthful stats it is as it was |
| ApplyRestores.RollbackCompletes | internal/deploy/apply.go:176-213 | when every call is answered as well as it can be, except one rename or one reload, the error is that of the rename or the reload and every destination is as it was, or without backups as `AbortIff` says |
| ApplyRestores.RestoredOwnership | internal/deploy/apply.go:300-307 | a destination that was renamed over and put back has its old bytes under the ownership the plan resolves to; as root it is the file it was, mode and owner included, if and only if the plan asks for those and there were no special bits to lose |
| ApplyBackups.BackupsAreCopies | internal/deploy/atomic.go:218-241 | at every point of every run the backup of a clear destination, if it was not there before, has the original bytes, the original permission bits under the umask, and the original user and group if the chown was granted, those of the process otherwise |
| ApplyBackups.OnlyCopyingAlters | internal/deploy/apply.go:124-226 | no other call of the deployment writes to a backup of a clear destination |
| ApplyBackups.PartialBackupsDropped | internal/deploy/apply.go:134-138 | when a backup cannot be taken, each that had been completed is gone or its removal was refused |
| Exactness.SuccessIff | internal/deploy/apply.go:144-226 | success, exactly: in all runs over all trees a nil error without a skip means that every destination holds its planned bytes, if and only if every destination of the plan survives |
| Exactness.AbortExactIff | internal/deploy/apply.go:124-213 | failure, exactly: in all runs an error but ErrRollbackFailed leaves every destination as `AbortIff` says, if and only if all are clear |
| Exactness.CrashConsistencyIff | internal/deploy/apply.go:124-215 | with backups on and truthful stats, every destination is as `CrashConsistency` says at every point of all runs before pruning, if and only if all are clear |
| Exactness.UntouchedIff | internal/deploy/apply.go:124-174 | at every point of all runs before the first rename every destination is as it was, if and only if all are clear |
| Exactness.OldUntilValidatedIff | internal/deploy/apply.go:167-174 | in all runs in which the validate hook has not passed every destination is as it was, if and only if all are clear |
| Exactness.AllOrNothingIff | internal/deploy/apply.go:44-230 | with backups on and truthful stats, in all runs success deploys every file and every error but ErrRollbackFailed leaves every file as it was, if and only if all destinations are clear and spared |
| Exactness.LosesOne | internal/deploy/apply.go:176-226 | every plan with a destination that does not survive has a tree and a run without a fault that returns no error and loses a destination |
| Exactness.MakesAppear | internal/deploy/apply.go:124-165 | every plan with a destination that is not clear has a tree and a run to ErrTempFailed, without a hook or a rename, in which a destination has appeared that was not there, before the clean-up and after it |
| Lookalikes.TempLookalikeLost | internal/deploy/apply.go:176-192 | every plan with a destination that is the temp name of a later one, whatever else it holds, over the empty tree: no call fails, no error is returned, and that destination is gone |
| Lookalikes.BackupLookalikeLost | internal/deploy/apply.go:217-226 | every plan with pruning on and a destination that matches the backup prefix of another: a tree and a run without a fault that returns no error and leaves such a destination pruned |
| Limits.RollbackCanDelete | internal/deploy/apply.go:269-279 | every one-file deployment with a reload hook over an existing, differing file without a backup has a run that reports RolledBack and leaves the file deleted, in which no call fails but the first reload and, where that is why there is no backup, the Stat |
| Limits.RenewalLost | internal/deploy/apply.go:194-213 | two concrete runs of that kind, one with backups off and one with a failed Stat |
| Limits.SpecialBitsLost | internal/deploy/ownership.go:50-58 | every root deployment over a file with special mode bits and nothing overridden has a successful run, no call of it failing, that keeps user and group and drops those bits |
| Limits.SetuidLost | internal/deploy/ownership.go:50-58 | such a run from mode 04755 to 0755 |
| Limits.RollbackReowns | internal/deploy/apply.go:194-213 | every root deployment of one existing, differing file with a reload hook and backups has a run in which no call fails but the first reload and which is reported as rolled back: the old bytes with the planned mode, and the old mode and owner if and only if the plan asks for them |
| Limits.ModeNotRestored | internal/deploy/apply.go:300-307 | such a run from mode 0644 to 0600 |
| ApplyHooks.HookProtocol | internal/deploy/apply.go:167-215 | validate runs at most once, reload at most twice and only after validation; the returned error determines the hook history, and the three flags follow from the error |
| ApplyHooks.OldUntilValidated | internal/deploy/apply.go:167-174 | while the validate hook has not passed, no clear destination has changed |
| ApplyHooks.ValidateSees | internal/deploy/apply.go:144-174 | the validate hook is given, for every clear destination, a temp file with the complete bytes and the resolved ownership |
| ApplyHooks.ReloadSees | internal/deploy/apply.go:194-213 | the first reload sees every clear destination deployed, the second sees its original restored |
| ApplyHygiene.TempHygiene | internal/deploy/apply.go:144-192 | when Apply returns, a file that is new is a destination, a backup, or one whose removal was refused |
| ApplyFootprint.NothingElseChanges | internal/deploy/apply.go:44-230 | paths outside the destinations and the names derived from them are never changed |
| ApplyOutcomes.MatchingRunSkips | internal/deploy/apply.go:83-103 | when all contents match, the tree stays as it is and no hook is called |
| ApplyOutcomes.ReapplyIsNoop | internal/deploy/apply.go:83-103 | after a success with destinations that survive, or a skip, the same plan again reports SkippedAsIdempotent, calls no hook and changes nothing |
| ApplyOutcomes.FaultFreeSucceeds | internal/deploy/apply.go:44-230 | when no call fails, the hooks pass and the owners resolve, Apply returns no error, whatever the destinations are called, and has deployed those that survive |
| Retention.DoomedIsTheRest | internal/deploy/atomic.go:246-279 | sorting and cutting removes exactly the backups that at least `keep` others are newer than |
| Retention.KeptAreTheNewest | internal/deploy/atomic.go:246-279 | exactly min(keep, n) backups stay and each is newer than each that goes |
| Retention.RetentionWindow | internal/deploy/apply.go:217-226 | a success leaves at least the newest `keep` of the old backups and its own, exactly those when no scan or removal failed, all unchanged |
| Retention.RetentionSize | internal/deploy/apply.go:217-226 | after a success in which no scan and no removal failed three backups are left for a retention of 0, n for n, all for a negative one, or as many as there are; each is newer than each that is gone |
| Retention.OriginalsSurvivePruning | internal/deploy/apply.go:217-226 | with a clock that has moved on, an overwritten original is in a backup at every point, pruning included |
| Retention.ClockMakesNewest | internal/deploy/atomic.go:295-301 | a later clock reading makes the new backup the newest by name |
| Reports.ResultMapsDestinations | internal/deploy/types.go:158-162 | a result that is no skip maps exactly the destinations, or nothing when backups are off |
| Reports.NamedBackupsAreGood | internal/deploy/types.go:158-162 | a backup is named exactly for the files a Stat found, belongs to its destination and holds the original bytes; if it was not there before it has the original permission bits and, if the chown was granted, the original owner too; it exists after every error, and after success if its name is the newest; after a clean success it exists if and only if it is in the retention window |
| WriteProtocol.WriteAllOrNothing | internal/deploy/atomic.go:64-160 | AtomicWriteFile: at every point old or new; an error leaves the destination untouched; success means the planned bytes, with truthful Stat the resolved ownership and the right `Replaced` |
| WriteCauses.WriteErrorsIff | internal/deploy/atomic.go:73-157 | each outcome of AtomicWriteFile, exactly, by the calls of the run: cancelled, ownership, temp file, backup and rename error, and the idempotent skip if and only if the destination is read with the new bytes before anything is written; no error if and only if none of the failures happened |
| WriteCauses.WriteEarlyChangesNothing | internal/deploy/atomic.go:73-107 | a cancelled run consists of lock, context check and unlock; that, an unknown owner and matching bytes make no call that writes and leave the tree as it was |
| Agreement.SameDestination | internal/deploy/atomic.go:64-160 | for every process, AtomicWriteFile and Apply on the equivalent one-file plan leave the same bytes and mode and report the same idempotent and replaced outcome; the whole node is the same for root, when nothing is to be chowned or to the process itself, and when both skip |
| Agreement.OwnersDiffer | internal/deploy/ownership.go:126-155 | in every other case there are two successful runs on one tree that leave the file to different users |
| Agreement.SameDestinationIff | internal/deploy/atomic.go:64-160 | so all pairs of successful runs agree on the whole node if and only if one of those conditions, all known before the call, holds |
| Agreement.SameBackups | internal/deploy/atomic.go:129-157 | both leave the same older backups, and the backups their results name hold the same bytes under their own stamps |
| WriteOutcomes.WriteRetentionWindow | internal/deploy/atomic.go:129-157 | the retention window of AtomicWriteFile around the backup its result names; one is named exactly when a Stat found the file and backups are on |
| WriteOutcomes.WriteNamedBackupIsGood | internal/deploy/atomic.go:129-157 | the named backup belongs to the destination and holds the original bytes; it exists if it is the newest, after a clean run if and only if it is in the window |
| WriteBackups.WriteNamedBackupIsCopy | internal/deploy/atomic.go:129-157 | if the named backup was not there before it has the original bytes, permission bits under the umask, and user and group if the chown was granted, those of the process otherwise |
| WriteOutcomes.WriteRetentionSize | internal/deploy/atomic.go:145-157 | the size of the window, as for Apply, three for a retention of 0 |
| WriteOutcomes.WriteTempIsPrivate | internal/deploy/atomic.go:186-212 | until its chmod the temp file has mode 0600 under the umask and belongs to the process |
| WriteOutcomes.WriteOriginalsSurvive | internal/deploy/atomic.go:129-157 | at every point an overwritten original is in a backup, with a clock that has moved on |
| WriteOutcomes.WriteTempHygiene | internal/deploy/atomic.go:109-120 | when AtomicWriteFile returns, a file that is new is the destination, a backup of it, or one whose removal was refused |
| Calls.CallProtocol | internal/deploy/apply.go:62-73 | both operations take their locks in strictly ascending order, work only between the last lock and the first unlock and only on names of their own destinations, and release in reverse |
| Calls.CallProgress | internal/deploy/apply.go:62-73 | a call that holds all its locks can always go on, whatever the tree |
| Serializability.NoConflict | internal/deploy/atomic.go:29-38 | in any interleaving, two calls made before any release touch different paths |
| Serializability.Serializable | internal/deploy/apply.go:54-226 | every interleaving of any number of Apply and AtomicWriteFile calls with separated names, finished or cut short, has a serial order with the same replies and the same final tree, in which no call comes before one that had returned when it began |
| Serializability.EachApplyReaches | internal/deploy/apply.go:54-226 | each Apply among concurrent callers is a run on its own between two trees of that order, so all theorems above apply to it |
| Serializability.EachWriteReaches | internal/deploy/atomic.go:73-160 | likewise for each AtomicWriteFile among concurrent callers |
| Races.PruningRaces | internal/deploy/atomic.go:29-38 | separation is needed: for every Apply that prunes and every AtomicWriteFile of a file that it takes for a backup there are a tree and an interleaving without a fault that no serial order explains |
| Deadlock.AsksUpwards | cmd/agent/main.go:116-122 | a job asks only for locks above all it holds, the target mutex lying below every file lock |
| Deadlock.DeadlockFree | cmd/agent/deploy.go:194-203 | every reachable state of any number of jobs with an unfinished one has an enabled step |
| Deadlock.OneJobPerTarget | cmd/agent/deploy.go:194-203 | in no reachable state are two jobs with the same target inside a deployment |
| Host.PrefixScanFindsBackups | internal/deploy/atomic.go:250-267 | scanning the directory for the base-name prefix finds exactly the names the model calls backups |
| Host.Host.ReadDir | internal/deploy/atomic.go:250-256 | lists every file of the directory once, or fails, and is recorded as the backups among them |
| FileProcs.WriteTempFile | internal/deploy/atomic.go:179-212 | makes exactly the calls of the staging procedure up to the close, or ends with the temp file's removal tried |
| FileProcs.ApplyOwnership | internal/deploy/ownership.go:126-155 | completes the staging procedure: ready, or written but unowned |
| FileProcs.BackupFile | internal/deploy/atomic.go:218-241 | makes exactly the calls of the copying procedure and returns the name only when it completed; a backup that was not there before is then a copy of the destination with its permission bits under the umask and, if the last call, the chown, was granted, its owner |
| FileProcs.PruneBackups | internal/deploy/atomic.go:246-279 | one scan, filtered by prefix, then one removal for each name outside the window, failures ignored |
| Deploy.ValidatePlan | internal/deploy/apply.go:233-252 | the loop with its seen-table accepts exactly the plans with distinct resolvable destinations |
| Deploy.LockAll | internal/deploy/apply.go:62-73 | locks in sorted order as the protocol demands and changes no file |
| Deploy.RestoreFromBackups | internal/deploy/apply.go:269-319 | the restore loop is the protocol's restore and reports failure if and only if a call of the restore failed, by the events of the run |
| Deploy.Apply | internal/deploy/apply.go:44-230 | the program's calls form a complete run of the protocol from the initial to the final tree; a malformed plan makes no call; for the program itself: each error is returned if and only if the calls went the way `ErrorsIff` says; a cancelled context and an unknown owner leave the tree; success means the planned bytes for each destination that survives, and a skip for all if the hash has no collisions; any error means what `RestoredIff` says for each that is clear, and with backups and truthful stats the original; and the bound on what may be new in the tree |
| AtomicWrite.AtomicWriteFile | internal/deploy/atomic.go:64-160 | likewise for the single-file program: an empty or unresolvable path makes no call, each error is returned if and only if the calls went the way `WriteErrorsIff` says, an error leaves the destination untouched whatever Stat said, a cancelled context, an unknown owner and a skip leave the tree, success means the bytes are there, for which only a skip relies on the hash |
| Der.Base128Iff | internal/cms/channelbinding.go:187-274 | a base-128 number is read from exactly its one shortest encoding, up to 2^31 - 1 |
| Der.LengthIff | internal/cms/channelbinding.go:187-274 | a length is read from exactly its one definite, minimal encoding, below 2^31 |
| Der.LengthForms | internal/cms/channelbinding.go:187-274 | the length octets of section 8.1.3 of X.690 written out for every length |
| Der.TagForms | internal/cms/channelbinding.go:187-274 | the identifier octets of section 8.1.2 of X.690 written out for tag numbers below 2^14 |
| Der.DecodeIff | internal/cms/channelbinding.go:187-274 | decoding yields an element and a rest if and only if the input is that element's encoding followed by the rest |
| Der.PrefixFree | internal/cms/channelbinding.go:187-274 | concatenated encodings have one reading |
| Der.ElementsIff | internal/cms/channelbinding.go:227-238 | a byte string splits in exactly one way into encoded elements and an undecodable tail |
| Der.OidIff | internal/cms/channelbinding.go:239-247 | an object identifier is read from exactly its encoding |
| ChannelBinding.WalkAttributes | internal/cms/channelbinding.go:230-272 | the cursor loop ends and equals: split into attributes, let the first with a binding identifier decide, else complain about an undecodable tail, else absent; `FoundIff`, `AbsentIff` and `MalformedIff` say what that is on the wire |
| ChannelBinding.Walk | internal/cms/channelbinding.go:187-274 | the whole walk equals the same reading of the request structure on every byte string |
| ChannelBinding.FoundIff | internal/cms/channelbinding.go:187-274 | the walk returns `x` if and only if the bytes encode a request with three fields, attributes without an earlier binding, and a binding attribute around the 32 bytes `x` |
| Unbound.CarriesIff | internal/cms/channelbinding.go:120-130 | an attribute counts as a binding if and only if it is a SEQUENCE that starts with the thirteen bytes of one of the two identifiers, arc 56 or arc 43 |
| Unbound.AbsentIff | internal/cms/channelbinding.go:187-274 | the walk reports no binding if and only if the bytes are a SEQUENCE with three fields and no further element, or a fourth that is not [0], or a [0] field that splits wholly into elements none of which starts with a binding identifier |
| Unbound.MalformedIff | internal/cms/channelbinding.go:187-274 | each malformed answer, exactly: no SEQUENCE of three fields; bytes that are no element behind attributes without an identifier; a first attribute with an identifier that is not a SET around 32 octets |
| Unbound.WrongLength | internal/cms/channelbinding.go:254-270 | an octet string of another length than 32 behind either identifier is no binding |
| Unbound.SmallestRequest | internal/cms/channelbinding.go:187-274 | one request byte for byte, with either identifier, and the 32 bytes found in it |
| ChannelBinding.EmbedRoundTrip | internal/cms/channelbinding.go:337-372 | splicing the embedded attribute into any request, behind attributes that are no bindings and before any bytes, and walking it returns the exporter |
| ChannelBinding.EmbedsExactly | internal/cms/channelbinding.go:337-372 | embedding succeeds exactly on 32 bytes and yields these 51 bytes |
| ChannelBinding.LiveExporter | internal/cms/channelbinding.go:83-110 | an exporter is available exactly for a completed TLS 1.3 handshake that exports 32 bytes; the exact condition of each of the three errors |
| ChannelBinding.VerifyChannelBinding | internal/cms/channelbinding.go:291-328 | the verdict for each combination of exporter, extraction and requirement, error kinds included |
| ChannelBinding.VerdictsIff | internal/cms/channelbinding.go:291-328 | the exact condition of acceptance and of each error, required or not |
| ChannelBinding.RequiredAcceptsIff | internal/cms/channelbinding.go:291-328 | with a requirement, acceptance if and only if the exporter is live and the bytes encode a request whose first binding holds it |
| Unbound.OptionalAcceptsIff | internal/cms/channelbinding.go:291-328 | without a requirement a connection with an exporter accepts exactly the empty request, those `AbsentIff` describes and those whose first binding holds the exporter |
| Unbound.BadlyBoundIsRefused | internal/cms/channelbinding.go:254-310 | a request whose first attribute with an identifier does not hold 32 octets is refused by every connection with an exporter, required or not |
| ChannelBinding.MalformedAcceptedIff | internal/cms/channelbinding.go:291-328 | a malformed request is accepted if and only if nothing is required and no exporter is available |
| ChannelBinding.MalformedExample | internal/cms/channelbinding.go:292-304 | a one-byte request that is accepted in that way and by no connection with an exporter |
| ChannelBinding.InTheMiddle | internal/cms/channelbinding.go:291-328 | an embedded binding is accepted if and only if the server derives the same exporter, required or not, and differing exporters give the mismatch error |
| Fields.SplitIff | internal/config/config.go:1637-1648 | the pieces are the one separator-free list that joins to the input |
| Fields.SplitComma | internal/config/config.go:1637-1648 | the index loop computes those pieces |
| Fields.TrimIff | internal/config/config.go:1651-1660 | the trimmed string is the only one without blanks at its ends that leaves blanks around it |
| Fields.TrimSpace | internal/config/config.go:1651-1660 | the two index loops compute it |
| NamedKeys.IsValidKeyName | internal/config/auth.go:607-617 | accepts exactly the non-empty names all of whose characters are a to z, A to Z, 0 to 9, hyphen or underscore |
| NamedKeys.EntryIff | internal/config/auth.go:530-556 | an entry reads as a key if and only if it joins two or three colon-free fields that trim to a valid name, a non-empty key and, for an administrator, the word admin |
| NamedKeys.FormatIff | internal/config/auth.go:532-536 | the format error is returned exactly for entries without one or two colons |
| NamedKeys.EntryErrorIff | internal/config/auth.go:530-556 | each error of an entry, exactly, by its colon-free fields: their number, a third field other than the word admin, a name outside the alphabet, an empty key, in that order |
| NamedKeys.EntriesAround | internal/config/auth.go:515-526 | wherever a part stands in the list it counts without the blanks around it, and not at all if it is blank |
| NamedKeys.PairKeyInjective | internal/config/auth.go:559-565 | the NUL-joined pair key identifies name and key |
| NamedKeys.ParseIff | internal/config/auth.go:506-617 | a list is accepted if and only if its entries read as it, in order, no pair repeats and each name has one privilege |
| NamedKeys.ParseErrorIff | internal/config/auth.go:526-583 | an error is returned if and only if it is that of the first entry that misreads as above, repeats a name and key, or gives a name another privilege; the repeated pair is reported before the privilege |
| NamedKeys.ParseNamedAPIKeys | internal/config/auth.go:506-604 | the loop over its three tables computes this parse, result and error |
| NamedKeys.PrintParse | internal/config/auth.go:506-604 | every consistent list of printable keys, printed, parses back to itself |
| NamedKeys.ParsePrint | internal/config/auth.go:506-604 | every accepted list is printable and consistent, and printing it parses to the same list |
| KeyStore.MutableKeyStore.constructor | internal/auth/keystore.go:104-116 | one entry per seed, in order, hashed |
| KeyStore.MutableKeyStore.LookupByHash | internal/auth/keystore.go:119-129 | the scan answers like the map the list stands for |
| KeyStore.MutableKeyStore.AddHashed | internal/auth/keystore.go:142-153 | the map is overwritten at one hash and unchanged elsewhere; the list is changed in one place or extended |
| KeyStore.MutableKeyStore.Add | internal/auth/keystore.go:135-137 | the map is overwritten at the key's hash |
| KeyStore.HistoryMeaning | internal/auth/keystore.go:104-153 | after any seed and any additions: the last addition of a hash, else its earliest seed, repeated seeds included |
| KeyStore.ReloadIsSafe | internal/auth/keystore.go:131-153 | adding the same rows again changes nothing |
| KeyStore.StaysDistinct | internal/auth/keystore.go:142-153 | additions never make a second entry for a hash |
| KeyStore.TokenIff | internal/auth/keystore.go:119-129 | a token resolves to an identity if and only if the first configured key equal to it has that identity |
| KeyStore.ResolvesIff | cmd/server/auth_backfill.go:28-60 | of an accepted list, a key authenticates its own name and privilege if and only if no earlier entry has the same key |
| KeyStore.AllResolveIff | cmd/server/auth_backfill.go:28-60 | all accepted keys resolve to themselves if and only if the keys are pairwise distinct |
| KeyStore.SharedKeyShadows | internal/config/auth.go:506-604 | `alice:K,bob:K:admin` is accepted, and K authenticates alice without privilege |
| Envelope.EncryptIfKeySet | internal/crypto/encryption.go:274-296 | byte 3, a 16-byte salt, a 12-byte nonce and the seal under 600000 rounds, exactly when there is a passphrase and randomness, never plaintext |
| Envelope.VersionedIff | internal/crypto/encryption.go:330-352 | trying v3 or v2 succeeds exactly on what was stored in that version under this passphrase |
| Envelope.LegacyIff | internal/crypto/encryption.go:354-364 | likewise for v1 |
| Envelope.OpensIff | internal/crypto/encryption.go:322-364 | the rows on disk, with their constants written out: a plaintext is returned if and only if the blob is byte 3, salt, nonce and the seal under 600000 rounds, or byte 2 with 100000 rounds, or else nonce and the seal under 100000 rounds and the salt certctl-config-encryption-v1 |
| Envelope.FailsIff | internal/crypto/encryption.go:308-364 | each error, exactly: no passphrase, an empty blob, fewer than 12 bytes, or a blob that is no row of the three formats |
| Envelope.VersionedRoundTrip | internal/crypto/encryption.go:322-364 | every stored v2 and v3 blob is recovered |
| Envelope.LegacyRoundTripIff | internal/crypto/encryption.go:322-364 | a stored v1 blob, magic-looking nonce or not, is recovered if and only if the same bytes were not also stored in a later version for another plaintext |
| Envelope.EveryFormatRoundTrips | internal/crypto/encryption.go:322-364 | all versions are recovered when no sealing ends in another sealing |
| Envelope.PlainNonceRoundTrips | internal/crypto/encryption.go:354-364 | v1 blobs that are short or start with no magic byte are recovered without that condition |
| Envelope.OnlyWhatWasSealed | internal/crypto/encryption.go:322-364 | a returned plaintext was sealed under a key derived from this passphrase, in the format the blob is in |
| Envelope.WrongPassphraseFails | internal/crypto/encryption.go:322-364 | a passphrase under which nothing was sealed opens nothing |
| Envelope.AmbiguousLegacyBlob | internal/crypto/encryption.go:322-364 | an ideal cipher with 16-byte tags and different keys per format, and a v1 blob that is not recovered |

## Left out

- Hooks that write to destinations, temp files or backups: a hook is an event with a verdict only.
- The clock: a reading is any 63-bit value; `ClockMakesNewest` says what a clock that moves on adds.
- SHA-256, PBKDF2 and AES-GCM: functions; collision freedom and ideal encryption are hypotheses of the theorems that need them.
- User and group lookup, umask and path resolution: functions of the environment; symbolic links, subdirectories and hard links are not modelled.
- Set-id bits that the kernel clears on chown: chown changes user and group only.
- The ignored Close after a failed write or sync: it has no event of its own.
- Directory entries that are directories: a scan reports files only.
- The file-mutex map and the read-write lock of the key store: a lock is mutual exclusion per name; the key store is one object under it.
- Log lines, durations, metrics, labels, and the Windows ownership stub.
- ApplyTheorems.AllOrNothing: assumes backups on and truthful stats; `AbortIff` and `SuccessDeploys` state what holds without. `AllOrNothingIff` gives the exact plans.
- ApplySuccess.SuccessDeploys: the destination must survive; `SuccessIff` shows that no plan with one that does not keeps the promise.
- ApplyAborts.AbortIff: the destination must be clear; `AbortExactIff` shows that no plan with one that is not keeps the promise.
- ApplyHooks.OldUntilValidated: likewise, with `OldUntilValidatedIff`.
- ApplyTheorems.CrashConsistency: assumes backups on and truthful stats, as the rollback does; a file that Stat missed is replaced without a backup. `CrashConsistencyIff` gives the exact plans before pruning; from then on the destination must also be spared, and `AllOrNothingIff` shows that success needs it.
- Exactness.SuccessIff: assumes, as all of `Exactness` does, that the users and groups the plan names exist; otherwise Apply stops before it writes.
- Envelope.EveryFormatRoundTrips: the condition is on the log of sealings; `LegacyRoundTripIff` is the exact statement.
- StaticKeyStore: the same seed loop and scan as the mutable store, without additions.
- The legacy secret list that is turned into keys named legacy-key-N, and the role backfill: no more than a split and a loop.
- isLegacyFormat: a test of the first byte.
- String bytes: configuration strings are sequences of characters; the separators and blanks are ASCII, so splitting bytes and splitting characters agree.
- Certificate, job, approval and ACME state machines, HTTP handlers, the CLI, agent polling, configuration loading and validation: mostly one-branch checks over services elsewhere.
