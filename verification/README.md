# Verified model of kawach

kawach rotates credentials. Three of its parts are easy to get subtly wrong and are modelled
here, with machine-checked proofs of what they promise. `dafny verify dfyconfig.toml` checks
everything.

**Rotation.** A provider creates, verifies, drains and revokes credentials; a backend holds
the published value in numbered versions; an engine drives a 16-state protocol between them
and writes every step to a journal before and after it happens. Any call may fail, with its
effect landed or not. The process may die between any two durable effects, and a later process
replays the journal, observes the world, reconciles, and resumes or compensates.

- `Protocol.dfy`, `GhostModel.dfy`: the state machine and the ghost world it is meant for.
- `Journal.dfy`: replay as a loop over the file's lines, and the append-only journal.
- `Machine.dfy`: the engine as a step machine. Its durable part (journal, backend history, live
  credentials) survives a death; the plaintext, the token and the program counter do not. A
  reply is anything the outside may answer, death included.
- `MachineInvariant.dfy`, `MachineSafety.dfy`, `MachineHistory.dfy`, `MachineRefinement.dfy`,
  `MachineProgress.dfy`, `MachineTheorems.dfy`: one inductive invariant, and what follows on
  every run with any number of deaths and recoveries.
- `MachineOutcomes.dfy`: what ends a process, where each failed call leads, and where a recovery
  leads from what the journal says and the world is.
- `MachineGraph.dfy`: where those runs lie in the graph of the ghost protocol.
- `MachineExamples.dfy`: runs, reply by reply, that show what the engine does not give.
- `Engine.dfy`: the engine in its own shape, a class that updates its context and appends to
  the journal, proved step by step to be that machine.

**Audit log.** Entries are chained by a hash over a canonical encoding; the log is verified
whenever it is opened, anchored outside, and used by capability tokens.

- `Encoding.dfy`, `Events.dfy`: the byte encoding with its decoder, and what of an event it sees.
- `Verify.dfy`, `Tamper.dfy`, `Anchor.dfy`: the verifier's loop, tamper evidence, anchors.
- `AuditLog.dfy`, `Checkpoints.dfy`, `Witness.dfy`: the log under any interleaving of threads and
  reopenings, where one thread's checkpoints fall, and the read witnesses and commit tokens that
  write to it.

The hash function is a parameter of which nothing is assumed. Tamper evidence is therefore a
reduction: the proof walks two logs and either they agree, or it returns two different byte
strings the logs themselves hashed, with one hash.

**Scope.** `Glob.dfy` and `Scope.dfy`: the two-pointer wildcard matcher, its lifting to paths,
and the allow and deny rules.

Two smaller parts: `VaultCas.dfy` (check-and-set writes to a versioned store under
interleaving) and `Generate.dfy` (rejection sampling).

## Assumptions

- At the start the old credential is live and its value is published (`StartingWorld`). The
  target may or may not name it; when it does not, nothing is drained or revoked, and the old
  credential stays live even when the run completes (`TerminalsAreClean`).
- A call that returns success has taken effect; one that returns an error has taken effect or
  not. Observations are honest. A provision never returns the old credential's handle.
- Version numbers are positions in the backend's history: never reused, never rewritten. Nobody
  else writes during a run (in `VaultCas.dfy` anybody may). Recovery is given the same target.
- A write to the journal or the audit log that fails ends the process. A reply of the wrong
  shape for the call at hand ends it too.
- Runs with several deaths are line-atomic: a record is in the journal or not. What a torn line
  does is proved separately, about replay.

## What the code does not give

Each of these is proved, with the exact condition under which the code does give it and a run
or an input that shows it otherwise.

- A credential whose handle was never journalled is revoked by nobody. It survives a rollback
  when its provision failed after creating it (`OrphanSurvivesRollback`), and it survives a
  completed rotation when the process died between creating it and journalling its handle, for
  recovery then provisions again (`OrphanSurvivesCompletion`). A finished run leaves nothing but
  the credential it published exactly when every credential created had its handle journalled
  (`NothingIsLeftIffJournalled`).
- A restore that writes the old value forward makes a version that recovery does not know. The
  table in the comment above `reconcile` promises that compensation goes on whenever the backend
  has the old value; the model follows the code. It goes on exactly when the published version is
  the journalled baseline itself, and otherwise stops for the operator
  (`RecoveryContinuesMirrorIffBaselineUntouched`), although consumers may read the old value
  (`LandedRestoreIsNotRecognised`). With a backend that restores natively the promise holds for
  every recorded baseline.
- The same table promises that an interrupted publication resumes as landed or as not landed,
  by what the backend holds. It resumes as landed exactly if the version written was journalled,
  and as not landed exactly if the old value is published and the baseline was journalled; all
  else stops for the operator (`PublicationIsSettledIffJournalled`). So it stops when the process
  died before the baseline was journalled, with nothing written
  (`UnwrittenPublicationIsNotRecognised`), and when it died after the write and before the version
  was journalled, with the new value being read (`LandedPublicationIsNotRecognised`).
- The repository's own exploration of the protocol visits twenty-five pairs of state and world
  (`GraphIsExactly`), and a run without deaths moves along its edges
  (`RunWithoutCrashIsAPath`). At any one moment, and so wherever a process may die, journal and
  world are on the graph exactly unless an effect landed, or a verification passed, that the
  journal does not record: a live credential while `Provisioning`, a verification while
  `Provisioned` or `Verifying`, a publication while `Publishing`, a revocation while `Revoking`,
  or the revocation of a verified credential while `RevokingNew` (`ExploredIff`, with
  `CrashLeavesTheExploredGraph` as a run that leaves it).
- Reopening a journal does not cut off a torn final line, nor does it complete a line that lacks
  its newline. Appends after that are durable exactly if the file ended in a newline
  (`AppendsAreDurableIffClosed`): a torn line swallows the next record
  (`AppendsAfterTornTailAreLost`), an unterminated one is destroyed with it
  (`UnterminatedRecordIsUndone`), and after a second append the file is refused.
- Lengths are cut to 32 bits. An entry can be decoded exactly when its lengths fit
  (`DecodableIffFits`), and between two entries that both fit the encoding is unambiguous
  (`CanonicalIsInjective`). Beyond that different entries share their bytes
  (`OversizedPartsCollide`), and two records that differ in who acted have one hash
  (`OversizedRecordsCollide`).
- `Truncated` is documented as a shortened log. It is reported exactly when the chain stops
  verifying before the anchored count (`TruncatedMeansShortChain`), so also for a log of full
  length that was edited below it (`FullLengthCalledTruncated`).
- Only the latest anchor is compared, and it fixes the prefix (`LatestAnchorFixesPrefix`). What an
  earlier anchor named is kept exactly if the log still has that hash at that count, up to a
  collision (`AnchorIsKeptIffHeadIs`), which nothing checks: a verifying log whose own head is
  anchored last, at a higher count, passes whatever the earlier anchors name
  (`OnlyTheLatestIsCompared`).
- A checkpoint that is due but not yet written when the log is reopened is never written. Every
  other one is written or still owed, whatever the interleaving (`DueEntriesAreAnswered`), and the
  records show how many are missing (`RecordsShowWhatReopeningLost`).
- Rules given for a backend a second time are never consulted, deny rules included
  (`LaterEntriesAreIgnored`, `SecondDenyHasNoEffect`).

## Model

| member | source | states |
|---|---|---|
| `Protocol.TerminalsAcceptNothing` | crates/kawach-rotation/src/state.rs:362-436 | a state is terminal if and only if it accepts no event but a reconciliation |
| `Protocol.EventsHaveOnePlace` | crates/kawach-rotation/src/state.rs:362-436 | every event but an abort is accepted in one state only |
| `Protocol.AbortsCompensate` | crates/kawach-rotation/src/state.rs:384-409 | where an abort is accepted, and which compensation follows: none, the revoke, or the full mirror |
| `Protocol.ReconcileSettles` | crates/kawach-rotation/src/state.rs:463-513 | for any state and observation: reconciling twice changes nothing, nothing is left in flight but compensation, settled states stay, and recovery stops exactly where the published side decides and is not known or not as left |
| `GhostModel.ProtocolIsSafe` | crates/kawach-rotation/tests/model_check.rs:142-193 | every node of every protocol path, of any length, satisfies every safety property the exploration checks: a working credential is published, terminal states are clean, nothing unverified is published, no premature revocation |
| `GhostModel.GraphIsExactly` | crates/kawach-rotation/tests/model_check.rs:31-57 | a pair of state and world is visited by some path of the protocol if and only if it is one of twenty-five, listed state by state |
| `GhostModel.EdgeStaysVisited` | crates/kawach-rotation/src/safety.rs:79-108 | every legal event leads from these pairs to these pairs, with every world it may lead to, reconciliation from a truthful or inconclusive observation included |
| `JournalFile.Replay` | crates/kawach-rotation/src/journal.rs:258-356 | for any file, the loop returns the facts of its entries or the error of the first bad line; an unparseable line is an error unless it is the last |
| `JournalFile.ReplayAcceptsIff` | crates/kawach-rotation/src/journal.rs:258-356 | replay accepts a file if and only if it has an entry, no line but the last is unparseable, entries are numbered one, two, and so on, each transition starts where the one before ended (the first at `Pending`), and each `RunFinished` names the state reached |
| `JournalFile.ReplayErrorIs` | crates/kawach-rotation/src/journal.rs:268-336 | a refused file gets the error of its first line out of order, the number and the state expected there and those found included; a file in order without entries is called empty |
| `JournalFile.ReplayReports` | crates/kawach-rotation/src/journal.rs:341-356 | an accepted file is reported with the run of its first entry, the number of its last, the state its last transition leads to, and a torn tail exactly if its last line is unparseable |
| `JournalFile.FoldIsLastFact` | crates/kawach-rotation/src/journal.rs:310-339 | each fact replay reports (state, handle, both versions, hint) is that of the last record that sets it, and is absent only if none does |
| `JournalFile.ReplayIsExact` | crates/kawach-rotation/src/journal.rs:181-196 | every non-empty prefix of a chained journal replays to its own facts and sequence number; an unparseable final line changes the torn-tail flag only |
| `JournalFile.AppendsAfterTornTailAreLost` | crates/kawach-rotation/src/journal.rs:151-157 | records appended after a torn line never show: with one, replay reports what it did before; with more, it refuses the file |
| `JournalFile.UnterminatedRecordIsUndone` | crates/kawach-rotation/src/journal.rs:181-196 | a final record without its newline is replayed; one append leaves neither record (and, if it was the only one, an empty journal), any more and the file is refused |
| `JournalFile.AppendsAreDurableIffClosed` | crates/kawach-rotation/src/journal.rs:151-157 | reopened with its last line closed, unterminated or torn, a journal shows all of any further records if and only if the line was closed or there are none |
| `JournalFile.AppendsExtendClosedFiles` | crates/kawach-rotation/src/journal.rs:181-196 | on a file that ends in a newline, any number of appends leaves exactly the longer journal |
| `JournalFile.Journal.Append` | crates/kawach-rotation/src/journal.rs:181-196 | the number is the next one; the file gains one line, or loses its torn last line's meaning; a file holding some records then holds one more |
| `JournalFile.Reopen` | crates/kawach-rotation/src/journal.rs:151-157 | succeeds exactly when replay does, learns exactly what replay returns, continues its numbering and leaves the file alone |
| `MachineSafety.ReconcileIsSound` | crates/kawach-rotation/src/state.rs:463-513 | from any state whose claims hold, the state resolved from the engine's own observation again has claims that hold |
| `MachineSafety.AdvanceKeepsInvariant` | crates/kawach-engine/src/engine.rs:299-582 | every step of the engine, every failure, every death and every recovery keeps the invariant that ties journal, context and world |
| `MachineHistory.AdvanceKeepsHistory` | crates/kawach-engine/src/engine.rs:400-513 | every step keeps the order of effects: stage after verify in the same process, revoke after drain after publication |
| `MachineRefinement.ObservationIsTruthful` | crates/kawach-engine/src/engine.rs:585-602 | what the engine observes is the ghost's observation, or differs only in saying `Unknown` |
| `MachineRefinement.ObservationMeans` | crates/kawach-engine/src/engine.rs:585-602 | in any world, the new side is reported exactly if the current version is the one written, the old one exactly if it is instead the baseline, absent or not |
| `MachineRefinement.StepIsProtocolEdge` | crates/kawach-rotation/src/safety.rs:71-108 | a step of a living process records a legal transition between ghost worlds the event allows, or leaves the protocol state alone; with the old credential named or not |
| `MachineTheorems.AlwaysAvailable` | crates/kawach-engine/src/engine.rs:164-213 | at every moment of every run the published value belongs to a live credential |
| `MachineTheorems.JournalDescribesWorld` | crates/kawach-engine/src/engine.rs:184-210 | at every moment the journal folds to a state whose claims about liveness, publication and verification are true |
| `MachineTheorems.EveryCrashPointReplays` | crates/kawach-rotation/src/journal.rs:258-356 | every non-empty prefix of the journal of any run is accepted by replay, with the facts of its last records, torn line or not |
| `MachineTheorems.TerminalsAreClean` | crates/kawach-engine/src/engine.rs:545-582 | completed: the new credential live and published, the old one dead exactly if the target named it; rolled back: the old one live and published, every journalled handle dead |
| `MachineTheorems.JournalIsLegal` | crates/kawach-engine/src/engine.rs:357-366 | every journalled transition is one the protocol allows, and all journalled handles are the same |
| `MachineTheorems.StagedValuesWereVerified` | crates/kawach-engine/src/engine.rs:400-471 | a staged value was provisioned with the journalled handle, then passed verification, then was staged, all by one process |
| `MachineTheorems.RevocationFollowsDrainAndPublication` | crates/kawach-engine/src/engine.rs:473-513 | every revoke of the old credential comes after a completed drain of it, after a publication, after the staging of the published value, across any deaths |
| `MachineTheorems.NothingIsLeftIffJournalled` | crates/kawach-engine/src/engine.rs:569-582 | at both clean ends, a credential the run created is live exactly if its handle was not journalled or it is the one published; so nothing else is left if and only if each had its handle journalled |
| `MachineExamples.OrphanSurvivesRollback` | crates/kawach-engine/src/engine.rs:385-398 | a provision that fails after creating its credential is rolled back with that credential live |
| `MachineExamples.OrphanSurvivesCompletion` | crates/kawach-engine/src/engine.rs:385-398 | a run that dies between creating a credential and journalling its handle recovers, provisions another and completes with the first one live |
| `MachineGraph.ExploredIff` | crates/kawach-rotation/tests/model_check.rs:31-57 | at every moment of every run, the journalled state and the world are visited by the exploration if and only if no effect has landed, and no verification passed, that the journal does not know (without a named credential: if and only if the old one is out of use) |
| `MachineExamples.CrashLeavesTheExploredGraph` | crates/kawach-rotation/tests/model_check.rs:31-57 | one run reaches a journalled state and a world that no path of the ghost protocol visits |
| `MachineGraph.RunWithoutCrashIsAPath` | crates/kawach-engine/src/engine.rs:299-353 | a run without deaths is a path of the ghost protocol whose edges are the journalled transitions, ending where the process stands |
| `MachineTheorems.RunsRefineProtocol` | crates/kawach-engine/src/engine.rs:299-353 | on every run each surviving step is a step of the ghost protocol, and what recovery resolves from is truthful or inconclusive |
| `MachineTheorems.RecoveryContinuesMirrorIffBaselineUntouched` | crates/kawach-rotation/src/state.rs:490-501 | once compensation has begun, recovery goes on with it exactly if the published version is the journalled baseline, in which case consumers read the old value, and otherwise stops; where restores are native it goes on exactly if consumers read the old value |
| `MachineExamples.LandedRestoreIsNotRecognised` | crates/kawach-rotation/src/state.rs:490-495 | where restores write forward, a run reaches a point where consumers read the old value and recovery stops |
| `MachineTheorems.PublicationIsSettledIffJournalled` | crates/kawach-rotation/src/state.rs:478-482 | recovery believes an interrupted publication landed exactly if its version was journalled (and then it is published), believes it did not exactly if the old value is published and the baseline was journalled, and stops otherwise |
| `MachineExamples.UnwrittenPublicationIsNotRecognised` | crates/kawach-rotation/src/state.rs:451-452 | a death before the baseline is journalled: the old value is published, nothing was written, recovery stops |
| `MachineExamples.LandedPublicationIsNotRecognised` | crates/kawach-rotation/src/state.rs:451-452 | a death after the write and before its version is journalled: the new value is published, recovery stops |
| `MachineOutcomes.DiesIffUnfitting` | crates/kawach-engine/src/engine.rs:370-582 | on every run a living process goes down exactly if the reply is not one it waits for, told from the point it stands at and the kind of reply: no failed call ends a process |
| `MachineOutcomes.FittingRepliesFinish` | crates/kawach-engine/src/engine.rs:299-353 | so a process whose calls all return, with any results, reaches a terminal state and reports it |
| `MachineOutcomes.FailedCallsEnd` | crates/kawach-engine/src/engine.rs:385-582 | where each failed call leads when all after it succeeds: a provision, verification, baseline read, stage or promote to rolled back; a drain, revoke, restore or reverse drain to the operator, with that call's own guidance journalled |
| `MachineOutcomes.RecoveriesEnd` | crates/kawach-engine/src/engine.rs:164-213 | where a recovery whose calls all succeed ends, by the journal and the world alone: completed, rolled back, or stopped exactly where the published side cannot be decided; one of the three always applies |
| `MachineOutcomes.ReconciliationIsRecorded` | crates/kawach-rotation/src/state.rs:463-513 | on every run, the one record a recovery writes about an unknown outcome carries which credentials are live and names the state that journal and world settle, state by state |
| `MachineOutcomes.RunsAreFramed` | crates/kawach-engine/src/engine.rs:141-328 | on every run the journal opens with how the run was started, and a finished process has journalled the terminal state last |
| `MachineTheorems.PlaintextIsGivenUp` | crates/kawach-engine/src/engine.rs:441-471 | a process past staging, in a state that reads the new value, or recovering, no longer holds the plaintext |
| `MachineTheorems.SuccessfulRotationCompletes` | crates/kawach-engine/src/engine.rs:136-154 | a rotation whose calls all succeed completes within ninety steps, old credential dead, new one live and published |
| `MachineProgress.EveryProcessEnds` | crates/kawach-engine/src/engine.rs:299-353 | whatever its calls return, every process is done or dead after a bounded number of steps |
| `MachineProgress.DriveIsBounded` | crates/kawach-engine/src/engine.rs:299-353 | a drive records at most ten transitions, from any reachable state |
| `MachineTheorems.InternalErrorsAreUnreachable` | crates/kawach-engine/src/engine.rs:309-338 | on every run, no process is about to record an illegal transition, and none completes without a handle |
| `MachineProgress.SuccessCompletes` | crates/kawach-engine/src/engine.rs:299-353 | from anywhere on the forward path, successful replies lead to a clean completion |
| `MachineProgress.SuccessIsPossible` | crates/kawach-engine/src/engine.rs:299-353 | from anywhere a process can be, there are honest replies, as many as wanted, that are all successful |
| `MachineProgress.RecoveryCanSucceed` | crates/kawach-engine/src/engine.rs:164-213 | so there are for a recovery from every journalled state |
| `MachineProgress.SuccessRollsBack` | crates/kawach-engine/src/engine.rs:515-582 | compensation whose calls all succeed ends rolled back |
| `Engine.Lifetime` | crates/kawach-engine/src/engine.rs:136-213 | one execution and any number of recoveries through the reopened journal: consumers can work after each, the outcome returned is the one the machine's state means, and an error means that some reply was not one its process waited for |
| `Engine.RotationEngine.Drive` | crates/kawach-engine/src/engine.rs:299-353 | the loop follows the step machine to its end and reports that end, or the process died where the machine did; a stop is reported with the state whose call failed and that call's guidance, or, when it began stopped, with neither |
| `Engine.RotationEngine.Perform` | crates/kawach-engine/src/engine.rs:370-582 | each in-flight state's calls, context updates and journal writes leave the engine where the step machine stands, about to record the event returned |
| `Engine.RotationEngine.Recover` | crates/kawach-engine/src/engine.rs:164-213 | from a replayed journal: context rebuilt from the durable facts, observation, reconciliation, abandonment of an unverified or unpublished credential, drive; it reports a stop without guidance exactly where journal and world leave it undecided what is published |
| `Engine.RotationEngine.Transit` | crates/kawach-engine/src/engine.rs:357-366 | the transition is legal, journalled, and exactly the machine's step |
| `Engine.StopsCarryHints` | crates/kawach-rotation/src/state.rs:535-601 | outside reconciliation, an event stops the run for the operator exactly if it carries guidance, and the guidance is that of the state's own call |
| `Encoding.CanonicalEntry` | crates/kawach-audit/src/hash.rs:163-189 | extending one buffer part by part builds the canonical encoding |
| `Encoding.DecodeInverts` | crates/kawach-audit/src/hash.rs:163-189 | a decoder recovers number, previous hash, time, actor, run, kind and every field, when the lengths fit |
| `Encoding.DecodableIffFits` | crates/kawach-audit/src/hash.rs:163-189 | an entry comes back from its bytes if and only if its number and all its lengths fit their width |
| `Encoding.CanonicalIsInjective` | crates/kawach-audit/src/hash.rs:144-189 | different entries have different bytes, when the lengths fit |
| `Encoding.OversizedPartsCollide` | crates/kawach-audit/src/hash.rs:144-149 | for every kind and every list of fields, two different entries with a part of 2^32 bytes have the same bytes |
| `Tamper.OversizedRecordsCollide` | crates/kawach-audit/src/log.rs:59-69 | two records that differ in who acted have one hash, whatever the hash function and the event |
| `Events.HashSeesEventUpToErasure` | crates/kawach-audit/src/event.rs:132-181 | equal kind and fields if and only if the events are equal up to a checkpoint's signature and an empty ticket |
| `Events.KindDeterminesVariant` | crates/kawach-audit/src/event.rs:133-143 | two events share a kind if and only if they are of one variant |
| `Events.EventDecodes` | crates/kawach-audit/src/event.rs:132-181 | a reader who knows the stable kinds, field names and outcome names gets every event back, up to a checkpoint's signature and an empty ticket |
| `Verify.VerifyRecords` | crates/kawach-audit/src/verify.rs:155-215 | the report names the longest sound prefix: its length and head, its checkpoints, exactly its uncompleted intents in order, and the first check the next record fails |
| `Verify.IntactMeansChained` | crates/kawach-audit/src/verify.rs:155-215 | intact if and only if every record is numbered, linked and hashed as its place demands |
| `Verify.VerdictMeans` | crates/kawach-audit/src/verify.rs:163-195 | which verdict is given, as an equivalence on the number, the link and the recomputed hash of the record after the sound prefix, with what was expected and what was found |
| `Verify.ReportIsUnique` | crates/kawach-audit/src/verify.rs:155-215 | those conditions determine the report completely |
| `Tamper.TamperEvidence` | crates/kawach-audit/src/hash.rs:58-73 | equal chain values at any two positions of two verifying logs: same position, same instance, agreement on everything hashed before it, or a computed collision |
| `Tamper.EntryInputIsInjective` | crates/kawach-audit/src/hash.rs:65-73 | what is hashed for an entry determines its link and its contents |
| `Tamper.EditIsReported` | crates/kawach-audit/src/verify.rs:187-191 | a record of a verifying log whose hashed contents are replaced is reported as edited at its number, or old and new contents are a collision |
| `Tamper.RelinkIsReported` | crates/kawach-audit/src/verify.rs:172-186 | a record linked to anything but its predecessor is reported as a broken chain there, the first one as a wrong genesis, with both hashes |
| `Tamper.MisplacementIsReported` | crates/kawach-audit/src/verify.rs:163-170 | a record of the log in the place of another, by reordering or otherwise, is reported as a gap with both numbers |
| `Tamper.RemovalIsReported` | crates/kawach-audit/src/verify.rs:163-170 | records removed from the middle are reported as a gap with both numbers; removed from the end they leave the log intact |
| `Tamper.InsertionIsReported` | crates/kawach-audit/src/verify.rs:163-186 | a record slipped in is reported where it stands, or the one after it is reported as a gap |
| `Tamper.SubstitutionIsReported` | crates/kawach-audit/src/verify.rs:172-182 | another instance's verifying log is reported as having a wrong genesis, with both genesis hashes, or the two names collide |
| `Tamper.EqualHeadsMeanEqualLogs` | crates/kawach-audit/src/verify.rs:155-215 | two logs reported intact with equal heads have equal length and agree record by record, or yield a collision |
| `Tamper.AgreeingLogsYieldNoCollision` | crates/kawach-audit/src/log.rs:59-69 | the search returns a pair only for logs that really differ |
| `Tamper.CollisionIsFromTheLogs` | crates/kawach-audit/src/log.rs:59-69 | the pair returned consists of inputs the two logs hashed, equally far back |
| `Tamper.InstancesAreSeparate` | crates/kawach-audit/src/hash.rs:58-63 | a non-empty log that verifies under two instance names collides on their genesis inputs |
| `Anchor.FileAnchor.Latest` | crates/kawach-audit/src/checkpoint.rs:234-265 | the instance's first record with the highest count, none if it has none, an error exactly if a line cannot be parsed |
| `Anchor.AppendingNeverRollsBack` | crates/kawach-audit/src/checkpoint.rs:217-265 | whatever is appended to the anchor file, the latest anchor's count never falls, and at an equal count the record stays |
| `Anchor.VerifyAgainstAnchor` | crates/kawach-audit/src/verify.rs:257-293 | the report after comparison with the latest anchor; unchanged when anchors cannot be read or there is none |
| `Anchor.AnchorVerdict` | crates/kawach-audit/src/verify.rs:257-293 | intact after both checks if and only if the chain verifies, reaches the anchored count and has the anchored hash there |
| `Anchor.ComparisonMeans` | crates/kawach-audit/src/verify.rs:257-293 | truncation is added exactly if fewer records verified than were anchored; a mismatch exactly if enough did and the first record numbered as the anchor is has another hash, the anchor's head given first; and else nothing |
| `Anchor.AnchorFixesPrefix` | crates/kawach-audit/src/verify.rs:257-293 | a log intact after both checks begins with exactly the log that was anchored, or a collision is computed |
| `Anchor.LatestAnchorFixesPrefix` | crates/kawach-audit/src/verify.rs:257-293 | whatever lines the anchor file holds, a log that passes both checks begins with exactly the log its latest anchor was published for, or a collision is computed |
| `Anchor.AnchorIsKeptIffHeadIs` | crates/kawach-audit/src/verify.rs:278-291 | for any anchor, a verifying log that has its hash at its count begins with the log it was published for, or a collision is computed; a log that begins so has that hash |
| `Anchor.OnlyTheLatestIsCompared` | crates/kawach-audit/src/checkpoint.rs:234-265 | an anchor appended becomes the one compared exactly if its count is higher than the latest one's (or it repeats it); the log it was published for then passes both checks, whatever the other anchors name |
| `Anchor.TruncatedMeansShortChain` | crates/kawach-audit/src/verify.rs:269-275 | truncation is reported exactly when the log is shorter than the anchor or unsound below it |
| `Anchor.FullLengthCalledTruncated` | crates/kawach-audit/src/verify.rs:269-275 | a log as long as its anchor, with one misnumbered record, is reported truncated |
| `Log.WriteKeepsCoherent` | crates/kawach-audit/src/log.rs:239-270 | after any write the in-memory number and head are those of a file that verifies |
| `Log.EveryInterleavingIsCoherent` | crates/kawach-audit/src/log.rs:228-297 | any interleaving of appends, owed and direct checkpoints and reopenings keeps the log coherent and only lengthens it; every checkpoint at number k+1 records count k and the hash of record k |
| `Log.LogAndVerifierAgree` | crates/kawach-audit/src/log.rs:133-174 | after any interleaving the verifier reports intact with the in-memory count and head |
| `Log.DueEntriesAreAnswered` | crates/kawach-audit/src/log.rs:273-297 | whatever the interleaving of threads, policies and reopenings, the checkpoints on record and owed, and those owed at each reopening, are together exactly those asked for: one for each entry at a number due under the policy of its process, and each direct request |
| `Log.RecordsShowWhatReopeningLost` | crates/kawach-audit/src/log.rs:273-297 | over any run under one policy, the checkpoints recorded or owed, counted against the entries on record at due numbers, change by exactly the direct requests less what was owed at each reopening |
| `Log.HonestLogsKeepTheirAnchors` | crates/kawach-audit/src/log.rs:307-320 | a log only appended to since it was anchored passes both checks |
| `Log.ReadRecords` | crates/kawach-audit/src/log.rs:352-366 | the records on the file's lines, blank ones skipped; nothing if any line is malformed |
| `Log.Open` | crates/kawach-audit/src/log.rs:133-174 | a file is opened exactly if every line can be read and the chain verifies, and then records the opening at its next number, with a checkpoint if one is due; otherwise it is left alone |
| `Log.AuditLog.WriteEntry` | crates/kawach-audit/src/log.rs:239-270 | one record chained onto the head; number, head and file move together |
| `Log.AuditLog.AppendAs` | crates/kawach-audit/src/log.rs:228-235 | the entry is recorded as handed over, and a checkpoint of the records so far follows it exactly if its number is a multiple of the policy, signed if a signer is set |
| `Log.AuditLog.EmitCheckpoint` | crates/kawach-audit/src/log.rs:285-297 | the checkpoint carries the count, the head in hexadecimal, and the signer's signature of both exactly if one is set |
| `Log.HexInverts` | crates/kawach-audit/src/hash.rs:83-93 | parsing the hexadecimal text of a head gives the head back |
| `Checkpoints.CheckpointsFallOnMultiples` | crates/kawach-audit/src/log.rs:228-279 | whatever one thread appends to any log: the callers' entries are recorded in order as handed over, and the record at an index is a checkpoint exactly if the index is a multiple of the policy past the start (policy two or more), every second one (policy one), or never (policy zero) |
| `Checkpoints.RegularStaysRegular` | crates/kawach-audit/src/log.rs:228-279 | a log with checkpoints at exactly the multiples of the policy keeps them so |
| `Checkpoints.OpeningIsAppending` | crates/kawach-audit/src/log.rs:133-174 | opening a log is one append under a policy of sixty-four, by the log's own actor and without a signer |
| `Checkpoints.FreshLogsAreRegular` | crates/kawach-audit/src/log.rs:133-174 | a log opened on an empty file has checkpoints at exactly the indices 64, 128, and so on, whatever one thread appends |
| `Log.AuditLog.PublishAnchor` | crates/kawach-audit/src/log.rs:307-320 | the anchor published carries the count of the file's records and the hash of the last |
| `Log.AuditLog.SetCheckpointPolicy` | crates/kawach-audit/src/log.rs:185-188 | the policy is the one given; nothing else changes |
| `Log.AuditLog.SetSigner` | crates/kawach-audit/src/log.rs:178-181 | the signer is the one given; nothing else changes |
| `Witness.WitnessesAreAccounted` | crates/kawach-core/src/capability.rs:243-296 | whatever the interleaving, each witness has one intent on record and, once finished, exactly one later outcome, the one it finished with |
| `Witness.DanglingAreTheUnfinished` | crates/kawach-core/src/capability.rs:285-295 | the verifier's dangling intents are exactly the unfinished witnesses and those dangling before |
| `Witness.IssueWitness` | crates/kawach-core/src/capability.rs:243-251 | the intent is on record, at the witness's number, before the witness exists |
| `Witness.ReadWitness.Complete` | crates/kawach-core/src/capability.rs:273-278 | one outcome is recorded and no abandonment follows it |
| `Witness.ReadWitness.Drop` | crates/kawach-core/src/capability.rs:285-295 | an abandonment is recorded exactly if the witness was not completed |
| `Witness.MintCommitToken` | crates/kawach-core/src/capability.rs:153-164 | no token and no record in a dry run; otherwise the token carries the number of its record |
| `Witness.RecordCore` | crates/kawach-audit/src/log.rs:325-333 | a core event is recorded with its own contents, under the run it names, or under the log's own actor when it names none |
| `Glob.MatchOne` | crates/kawach-core/src/scope.rs:199-226 | true exactly for segments in the pattern's language, in at most (m+1)*(n+2) main-loop steps for a pattern of length m and a segment of length n |
| `Glob.NewStar` | crates/kawach-core/src/scope.rs:206-212 | forgetting the previous star when a new one is met loses no match |
| `Glob.Mismatch` | crates/kawach-core/src/scope.rs:215-218 | after a mismatch the last star must take at least one byte more |
| `Glob.WildIffSplit` | crates/kawach-core/src/scope.rs:198-199 | a segment matches exactly if it splits into a run for each star and the other bytes in place |
| `Glob.MatchSegments` | crates/kawach-core/src/scope.rs:183-196 | the recursion with its split points decides the language in which `**` takes any number of segments |
| `Glob.GlobMatchIffSplit` | crates/kawach-core/src/scope.rs:177-196 | a path matches exactly if its segments split into one piece for each segment of the pattern |
| `Glob.SplitInverts` | crates/kawach-core/src/scope.rs:178-180 | the segments contain no slash and joined give the path |
| `Glob.JoinInverts` | crates/kawach-core/src/scope.rs:178-180 | slash-free segments, joined and split, come back |
| `Glob.MatchGlob` | crates/kawach-core/src/scope.rs:177-181 | true exactly for the paths whose segments are in the language of the pattern's segments |
| `Glob.StarNeverCrossesSlash` | crates/kawach-core/src/scope.rs:166-177 | a pattern without `**` segments matches only paths with as many slashes |
| `Scope.InScopeMeans` | crates/kawach-core/src/scope.rs:130-145 | in scope exactly if the first entry for the backend allows the path and does not deny it |
| `Scope.RefusalsAreTrue` | crates/kawach-core/src/scope.rs:130-145 | the backend is called unknown exactly if no entry names it, and a deny rule blamed is one that matches |
| `Scope.AuthorizeIs` | crates/kawach-core/src/scope.rs:130-160 | for a backend with an entry: denied under the first deny pattern that matches, whatever is allowed; not allowed exactly if no pattern matches; and otherwise let through as the reference asked for |
| `Scope.DenyOnlyRemoves` | crates/kawach-core/src/scope.rs:130-145 | one more deny pattern in the consulted entry removes exactly the references it matches |
| `Scope.LaterEntriesAreIgnored` | crates/kawach-core/src/scope.rs:115-118 | adding an entry changes decisions only for a backend that had none |
| `Scope.SecondDenyHasNoEffect` | crates/kawach-core/src/scope.rs:115-118 | a deny-everything entry added second denies nothing |
| `Scope.AuthorizeAllFilters` | crates/kawach-core/src/scope.rs:162-164 | what is let through is what was asked for and is in scope |
| `Scope.AuthorizeAllKeepsOrder` | crates/kawach-core/src/scope.rs:162-164 | in its order, with its repetitions |
| `VaultCas.EveryRunIsTruthful` | crates/kawach-vault/src/backend.rs:79-99 | any interleaving of instances and unchecked writers: history only grows, each landed write directly follows the history its instance had read, no version has two writers |
| `VaultCas.SuccessMeans` | crates/kawach-vault/src/backend.rs:204-244 | a success is one above the version read, over an unchanged history, and holds the value staged or the value of the version restored |
| `VaultCas.LandsIffUnchanged` | crates/kawach-vault/src/backend.rs:79-99 | the write lands exactly if nobody wrote since the current version was read |
| `VaultCas.StageValue` | crates/kawach-vault/src/backend.rs:204-214 | succeeds exactly if nobody writes between its two requests, and then adds the value last |
| `VaultCas.RestoreVersion` | crates/kawach-vault/src/backend.rs:227-244 | adds the wanted version's value last exactly if that version exists and nobody writes between the last two requests |
| `Generate.Generate` | crates/kawach-core/src/secret.rs:126-148 | the first symbols drawn from the accepted bytes, however they fall into buffers |
| `Generate.SymbolsAreEquallyLikely` | crates/kawach-core/src/secret.rs:133-136 | every symbol of an alphabet without repetitions is drawn from equally many bytes |
| `Generate.RejectionIsNeeded` | crates/kawach-core/src/secret.rs:133-136 | no byte is thrown away exactly if the alphabet divides 256, and every byte thrown away would have favoured an early symbol |

## Left out

- SHA-256 and Ed25519: the hash is a parameter; checkpoint signatures are opaque, and verifying them is not part of this model.
- Text: JSON, timestamps and hexadecimal parsing. A file is a sequence of lines, each blank, parsed or unparseable; a torn line followed by more text is taken to stay unparseable.
- JournalFile.Replay: a line that is not valid UTF-8, such as a final line cut inside a multi-byte character, is a read error in the source, even where it is the last; the model's unparseable lines are valid text.
- Log.Open: the log's file is taken to end in a newline; the model does not say what an append does to a last line without one.
- Writes that fail partway and are retried on the same object: a failed write ends the process.
- The contents of a dry run's plan, its preflight and the failure texts of an outcome: a dry run is only known to journal its start and change nothing.
- Handles, secrets and run names of the rotation are opaque numbers.
- Audit entries written by the engine are points at which it may die; their contents are not tied to the journal.
- Drain deadlines and polling: a drain completes, does not, or fails.
- Guidance texts: only which escalation carries which guidance. An escalation decided inside recovery carries none, as in the code.
- 64-bit wrap-around of sequence numbers: numbers are unbounded, except in the encoding, where they are bounded by its width.
- Destroyed and deleted versions of the store, and its HTTP client, authentication and configuration.
- Password policies: the alphabet is a parameter, its minimum entropy is not checked.
- Redaction, zeroization and constant-time comparison.
