# Proofs about the relay and the execution host

A team's relay stores what it cannot read; an execution host runs provider turns for people it has never
met. Between them run protocols whose every `await` is a place where something else may happen: the relay
may answer anything, several calls run at once, the process may stop. This project models those protocols
as step functions on explicit states, proves what every step keeps and what whole runs guarantee, and
writes each object that the source updates in place as a class whose methods are proved to perform exactly
those steps. Time, nonces, signatures, hashes, storage failures and the relay's answers are inputs.

| file | what it models |
|---|---|
| `Chain.dfy` | the membership log as a hash chain; the host's floor check |
| `FreshHost.dfy` | a host reconciling membership: generations, nonces, the two floors, appointments, key shares |
| `SignedLog.dfy` | the relay's signed mutations, announcements and challenge answers |
| `Revocations.dfy` | a host removing devices: rotation, hand-offs, the durable marker, acknowledgements |
| `TaskControl.dfy` | control commands: claim before effect, refusal, deletion fence |
| `Execution.dfy` | a task's turns over its log: the durable marker, receipts, repairs, crashes |
| `ExecutionTurns.dfy` | what a turn and a repair come to undisturbed, and how a turn may start and end |
| `TaskRun.dfy` | what a turn writes to the task log; deterministic event ids |
| `RelayTables.dfy` | the relay's tables: logs, grants, mailboxes, archives, deletion, snapshot and restore |
| `Routing.dfy` | the relay's command log and the commands in flight |
| `HostControl.dfy` | membership epochs and single-use approval grants |
| `CodexRpc.dfy` | the newline framer and its calls |
| `CodexTurn.dfy` | buffering of early notifications; what a turn emits |
| `CodexSteers.dfy` | steering a running turn |
| `CodexRequests.dfy` | host tool calls and approvals asked by the provider |
| `LineDiff.dfy` | the line diff: table, walk, folding |

## What is assumed

- A hash has no collisions (`Chain.CollisionFree`, a precondition where it is needed). A signature is
  genuine only if its signer made it (`Sign` events in `FreshHost`, `env.signed` in `SignedLog`). Nonces
  and ids made by the system are fresh.
- One `await`-free stretch of the source is one step. A database transaction is one step.
- A removed device is never verified at a later head (`Revocations.RemovalLasts`); `SignedLog.RevokedForever`
  proves it of the log.
- Signers answer a challenge with the head of the team's log at that moment (`FreshHost.Candid`).
  `Revocations` rests on it through the guard of its `Adopt` step, which `FreshHost.ReturnCoversTheTruth`
  proves; it assumes nothing of the floor on disk.

## Claims that are false of the code, and when

- The durable membership floor can move back. Finding that recovery is required, or that the signer was
  removed, saves the floor after an await without looking again
  (packages/runtime/encrypted-host.js:172-194; packages/runtime/freshness-authority.js:59-67).
  `FreshHost.DurableRewindsExactly` says exactly which steps do it and that every other change is an
  extension; `FreshHost.DurableDoesRewind` gives a run on a real log. The floor in memory never moves back
  (`FreshHost.ObservedOnlyExtends`), and what a host adopts after a restart does not rest on the durable one
  (`FreshHost.ReturnCoversTheTruth`).
- An event id can be met twice: a turn counts on from the log it has read, also when the writer still holds
  an earlier turn's record. `TaskRun.CollidesExactly` is the exact condition when a run begins,
  `TaskRun.HeldRecordCollides` a run. In the execution host it takes a lost save of the marker
  (`Execution.IdsNeverCollide`, `Execution.LateExactly`).
- A command whose id contains the id of another task could take effect twice, because deleting that task
  forgets the claim (packages/runtime/encrypted-task.js:20-29; `TaskControl.AtMostOnce`, an if and only if,
  and `TaskControl.RunsTwice`). No such id arrives over the wire: of the code as it runs, at most once is true
  (`TaskControl.WireCommandsRunOnce`).
- Steers are not always delivered in the order of acceptance: one accepted before the provider's controls
  are in place comes after those accepted between that moment and the reply to `turn/start`
  (packages/runtime/codex-app-server.js:205-207, 227, 253). `CodexSteers.InOrderExactly` is the exact
  condition, `CodexSteers.EarlySteerComesLate` a run.
- A 16-bit cell of the diff table wraps for a cap of 65536 or more (`LineDiff.LargeCapWraps`); the default
  cap is safe (`LineDiff.NoCellWraps`).
- An accepted command claim may become rejected on a retry (packages/runtime/encrypted-host.js:635-637).
  What is stable is a completed or rejected one (`TaskControl.SettledStays`).

## Model

| member | source | states |
|---|---|---|
| Chain.FloorAcceptsExtensions | packages/runtime/encrypted-host.js:130-139 | the floor check reads one hash, yet accepts exactly the logs that extend the remembered one, both directions |
| Chain.SameHead | packages/e2ee/membership.mjs:139-160 | a chain is determined by its length and last hash |
| FreshHost.ReconciledMeansCurrent | packages/runtime/encrypted-host.js:158-261 | over every interleaving of calls, disconnects, renewals, appointments and relay answers: `reconciled` becomes true only when a reconcile call returns, and then the head is the highest this process ever authenticated, extends every earlier one, belongs to the pinned recovery epoch, does not remove the pinned signer and holds it verified, and a proof for a nonce of the current generation by that signer, under its activation, was accepted over it or an ancestor |
| FreshHost.ReturnIsCurrent | packages/runtime/encrypted-host.js:207-261 | a call that returns returns the highest head, and one that needed a proof does so within its window |
| FreshHost.ReturnCoversTheTruth | packages/runtime/encrypted-host.js:158-261 | if signers answer with the head of the team's log as it stands when they sign, a returning call has adopted everything that log held when the nonce was issued, whatever floor the disk held |
| FreshHost.GenesisStands | packages/e2ee/membership.mjs:34-107 | until there has been a recovery the genesis is verified or removed and nothing else, so an unappointed host's signer that is not removed is verified |
| FreshHost.OnlyReturnsReconcile | packages/runtime/encrypted-host.js:259-261 | nothing but a returning reconcile call sets `reconciled` |
| FreshHost.UndisturbedExchange | packages/runtime/encrypted-host.js:97-261 | an exchange that nothing disturbs, from the challenge to the last check, reconciles the host if and only if its signer was not removed before, the log served is authentic, extends both floors and lets the signer stand, and the proof names exactly that head and this nonce, was signed by this signer under its activation, and came in time; then that log is adopted and is both floors |
| FreshHost.UnfitDisconnects | packages/runtime/encrypted-host.js:172-195 | reading a log of another recovery epoch, or one that removes the pinned signer, disconnects at that step: not reconciled, no challenge, a new generation, the log kept, and a removal that could be saved kept for good |
| FreshHost.NeverUnderARemovedSigner | packages/runtime/encrypted-host.js:172-195 | and in every continuation every share queued before is dead, and the host is reconciled again only over an authenticated log that extends that one, and never under a signer it removed |
| FreshHost.RunKeepsInv | packages/runtime/encrypted-host.js:81-261 | the invariant over floors, nonces, proofs and in-flight calls holds in every run |
| FreshHost.PassingIsBest | packages/runtime/encrypted-host.js:130-139 | a log that passes both floors extends the highest head seen |
| FreshHost.ObservedOnlyExtends | packages/runtime/encrypted-host.js:117-128 | the floor in memory only ever moves to an extension of itself |
| FreshHost.DurableRewindsExactly | packages/runtime/encrypted-host.js:172-194 | every step, appointments included, moves the durable floor to an extension of it along an authenticated log, except exactly those that save a removal or a need for recovery read before a newer floor was saved; both directions |
| FreshHost.DurableDoesRewind | packages/runtime/encrypted-host.js:172-184 | under any hash there is a team's log, with a recovery in it, and a run on it in which such a save happens |
| FreshHost.StaleSaveGoesBack | packages/runtime/encrypted-host.js:172-194 | and it leaves a floor of smaller height than the one it found |
| FreshHost.TeamRecovers | packages/e2ee/membership.mjs:34-58 | the logs of that run replay: bootstrap, recovery set up, recovery, and one record more |
| FreshHost.AppointmentMoves | packages/runtime/freshness-authority.js:87-111 | a confirmed appointment never moves the durable floor back, because it finds the floor where the proposal found it and has read past it since |
| FreshHost.ProposesExactly | packages/runtime/freshness-authority.js:68-86 | made exactly for a verified device of the genesis's owner, another than the present signer unless a recovery is to be followed, with all that its confirmation must still find |
| FreshHost.AppointsExactly | packages/runtime/freshness-authority.js:87-111 | a signer is appointed exactly by confirming the proposal held, in time, with everything still as proposed and saved; signer and floor together, and the host starts over |
| FreshHost.ProposalsAreUsedOnce | packages/runtime/freshness-authority.js:87-101 | after a confirmation of it, whatever came of that, none is ever held under its number again |
| FreshHost.AncestorsAskAgain | packages/runtime/encrypted-host.js:211-224 | an ancestor's proof that the signer made leads to a new nonce, and to nothing else |
| FreshHost.PostsExactly | packages/runtime/encrypted-host.js:105-115 | a challenge that could not be posted is withdrawn, unless another has been issued since |
| FreshHost.FailsExactly | packages/runtime/encrypted-host.js:158-261 | a call that fails clears `reconciled` only in the generation it began in |
| FreshHost.QueuedShareDies | packages/runtime/encrypted-host.js:320-330 | a key share queued before the generation changes never runs after it, whatever happens in between |
| FreshHost.ShareRunsUnderProof | packages/runtime/encrypted-host.js:320-330 | a share that runs while reconciled does so under a proof accepted in the generation it was queued in, by the signer pinned then and now |
| FreshHost.EncryptedHost.Disconnect | packages/runtime/encrypted-host.js:81-84 | the fields after it are those of the step |
| FreshHost.EncryptedHost.BeginReconcile | packages/runtime/encrypted-host.js:97-104 | a new generation and nonce, and nothing else |
| FreshHost.EncryptedHost.PostReturned | packages/runtime/encrypted-host.js:105-115 | a failed post clears the challenge only of its own generation |
| FreshHost.EncryptedHost.ReconcileMembership | packages/runtime/encrypted-host.js:158-170 | up to the first await; a revoked signer disconnects |
| FreshHost.EncryptedHost.CheckMembershipFloor | packages/runtime/encrypted-host.js:130-139 | both floors, the durable and the one in memory |
| FreshHost.EncryptedHost.ReplayReturned | packages/runtime/encrypted-host.js:117-128 | the observation is kept only of a log that passes both floors |
| FreshHost.EncryptedHost.DeletionsReturned | packages/runtime/encrypted-host.js:172-206 | what the log says of the host's own signer decides: recovery, removal, unverified signer; then stale generation and missing challenge, in that order |
| FreshHost.EncryptedHost.AncestorReturned | packages/runtime/encrypted-host.js:211-224 | an ancestor's proof renews the challenge and is never accepted |
| FreshHost.EncryptedHost.ProofReturned | packages/runtime/encrypted-host.js:225-229 | a proof counts only for this head, nonce and signer |
| FreshHost.EncryptedHost.Authorized | packages/runtime/encrypted-host.js:230-246 | generation, window and floors are looked at again before the head is taken |
| FreshHost.EncryptedHost.CancellationReturned | packages/runtime/encrypted-host.js:247-253 | and again after cancellation |
| FreshHost.EncryptedHost.RecoveryReturned | packages/runtime/encrypted-host.js:254-261 | and again before `reconciled` is set |
| FreshHost.EncryptedHost.PrepareFreshnessAuthority | packages/runtime/freshness-authority.js:68-86 | the proposal records what the confirmation must still find |
| FreshHost.EncryptedHost.CommitFreshnessAuthority | packages/runtime/freshness-authority.js:87-111 | refused unless proposal, window, generation, head, epoch, saved floor, record and candidate are all as proposed; otherwise signer and floor together, and a new generation |
| SignedLog.OneValidatedChain | packages/hub/enrollment.js:76-130 | under any interleaving of mutations that yield between snapshot and commit, and of announcements: the stored log is one hash chain, record k was accepted against the replay of its predecessors and is allowed by what those told, its signer verified at that point unless it opens or recovers the log, and the verified rows are the log's fold |
| SignedLog.ReplayIsChain | packages/e2ee/membership.mjs:139-160 | a log that replays is chained and its length is its height |
| SignedLog.ReplayValidatesEach | packages/e2ee/membership.mjs:139-160 | replay accepts each record on top of exactly the ones before it; what acceptance takes is ReplayIsPolicy |
| SignedLog.ReplayIsPolicy | packages/e2ee/membership.mjs:25-160 | a log replays if and only if each of its records may follow the ones before it, judged only by what those claim (who was admitted and removed, how recovery stands), by whom they leave verified, and by the policies that are parameters |
| SignedLog.ApplyIsPolicy | packages/e2ee/membership.mjs:25-138 | the same of one record over a replayed log |
| SignedLog.SignersAreVerified | packages/e2ee/membership.mjs:25-57 | nobody signs who is not verified at that point, save the genesis that opens the log and the owner's new device that recovers it |
| SignedLog.ReplayReflects | packages/e2ee/membership.mjs:34-107 | the replayed state holds what the log told and nothing else: every device admitted, with the keys it was admitted with, and as revoked exactly those removed |
| SignedLog.ApplyTrusts | packages/e2ee/membership.mjs:26-138 | what an operation does to the verified endpoints: bootstrap and recovery leave the signer alone, confirm adds, revoke removes, the rest nothing |
| SignedLog.MutateTrusts | packages/hub/enrollment.js:100-125 | the relay's row updates have the same effect on its verified rows |
| SignedLog.AnnounceAddsNoTrust | packages/hub/enrollment.js:168-179 | announcing never makes or unmakes a verified row |
| SignedLog.CommitKeepsHubInv | packages/hub/enrollment.js:96-129 | comparing the head before the commit is enough: a stale snapshot is refused |
| SignedLog.CommitsExactly | packages/hub/enrollment.js:95-129 | a mutation accepted over its snapshot commits if and only if nothing was committed since, the checks that are parameters pass, and it agrees with the announced rows: the first device the team owner's, one confirmed announced under those keys and not revoked, one that recovers new |
| SignedLog.UndisturbedMutation | packages/hub/enrollment.js:76-130 | from submission to commit, with nothing overtaking it: committed if and only if not stored yet, allowed by policy, and agreeing with the rows; else nothing changes |
| SignedLog.RunKeepsRows | packages/hub/enrollment.js:100-125 | in every run the relay has a row with the right keys for everyone the log admitted, has revoked everyone it removed, and the genesis is the team owner's |
| SignedLog.AnnounceExactly | packages/hub/enrollment.js:168-179 | taken exactly from a member whose device is new or has the keys it had |
| SignedLog.AnnouncesExactly | packages/hub/enrollment.js:168-179 | a new device waits to be confirmed, and every other row is untouched |
| SignedLog.TrustIsReplay | packages/e2ee/membership.mjs:139-160 | the fold of a log is the verified part of its replay |
| SignedLog.RevokedForever | packages/e2ee/membership.mjs:83-107 | no valid continuation of a log trusts a removed endpoint again |
| SignedLog.RevokedRowStays | packages/hub/enrollment.js:205-228 | nor does any step of the relay verify a revoked row |
| SignedLog.PublishedProofIsLive | packages/hub/enrollment.js:448-472 | a proof is published only if at that instant its challenge entry is the current, unexpired one, its signer is a verified owner endpoint of the latest log, and that signer did sign this answer for this nonce, whatever was committed during the signature checks |
| SignedLog.UndisturbedChallenge | packages/hub/enrollment.js:432-447 | put up, for a minute and without a proof, if and only if addressed to nobody or to a verified endpoint of the owner |
| SignedLog.UndisturbedAnswer | packages/hub/enrollment.js:448-472 | published if and only if it comes from the owner's account, for the nonce asked, in time, signed by the one asked, who is still verified |
| SignedLog.Enrollment.AnnounceEndpoint | packages/hub/enrollment.js:168-179 | the rows after it, and whether it was refused |
| SignedLog.Enrollment.CommitMutation | packages/hub/enrollment.js:95-129 | the transaction's whole effect, and nothing when the head moved |
| SignedLog.Enrollment.PutChallenge | packages/hub/enrollment.js:443-447 | replaces the host's challenge with one that has no proof |
| SignedLog.Enrollment.PutAddressedChallenge | packages/hub/enrollment.js:432-447 | one addressed to an appointed signer is put only if that is a verified owner endpoint of the replayed log |
| SignedLog.Enrollment.AnswerChallenge | packages/hub/enrollment.js:448-472 | compares the entry again after the signature check |
| Revocations.AcknowledgedMeansLockedOut | packages/runtime/encrypted-host.js:509-565 | with overlapping calls, shares and history hand-offs in flight, crashes anywhere and any floor left on disk: once a removal is acknowledged, no room that is not deleted has a current session key in the removed device's hands, then or ever after |
| Revocations.NoRemovalIsLost | packages/runtime/encrypted-host.js:525-561 | every removal at or below the saved marker is acknowledged or waiting in it, even when a late call moves the marker back |
| Revocations.StartRotationKeepsInv | packages/runtime/encrypted-host.js:533-542 | the rooms collected when the queue reaches the work are all that anyone can hold a key of |
| Revocations.RotateRoomKeepsInv | packages/runtime/encrypted-host.js:537-540 | each rotation shuts the removed devices out of its room |
| Revocations.HandoffTightens | packages/runtime/encrypted-host.js:472-491 | a history cleared at a head that covers the removal never goes to the removed device |
| Revocations.FreshTightens | packages/runtime/encrypted-host.js:537-540 | after a rotation nobody holds the room's key, and no hand-off exported before it carries the current one |
| Revocations.SaveCovers | packages/runtime/encrypted-host.js:551-553 | a marker written from a snapshot loses nothing others have acknowledged since |
| Revocations.RunKeepsInv | packages/runtime/encrypted-host.js:320-345 | shares and rotations, one at a time through the queue, keep the invariant |
| Revocations.RevocationHost.RotateAll | packages/runtime/encrypted-host.js:536-541 | after the loop exactly the keys of rooms outside the set are left |
| Revocations.RevocationHost.Rotate | packages/runtime/encrypted-host.js:533-542 | refused with nothing rotated unless reconciled or applying to the host alone |
| Revocations.RevocationHost.AcknowledgeAll | packages/runtime/encrypted-host.js:554-563 | stops at the first refusal; marker and acknowledgements agree at every point |
| Revocations.RevocationHost.ApplyRevocations | packages/runtime/encrypted-host.js:509-565 | a whole call: which keys are left, which sessions are new, what the marker holds, what was acknowledged, and nothing changed when membership does not reconcile |
| TaskControl.AtMostOnce | packages/runtime/encrypted-host.js:629-704 | over every run with crashes, retries, deletions and concurrent calls a command takes effect at most once, if and only if its id names no other task |
| TaskControl.WireCommandsRunOnce | packages/e2ee/task-control.mjs:121-138 | so every command that arrives over the wire takes effect at most once, in every run |
| TaskControl.WireCommandsAreSafe | packages/e2ee/task-control.mjs:121-138 | every command id that arrives over the wire meets that condition |
| TaskControl.RunsTwice | packages/runtime/encrypted-task.js:20-29 | a run in which another id takes effect twice |
| TaskControl.ForgetReaches | packages/runtime/encrypted-task.js:20-29 | deleting a task forgets exactly its own claims and those whose command id names it |
| TaskControl.EffectMatchesClaim | packages/runtime/encrypted-host.js:669-679 | while the task lives the effect and the claim carry the same fingerprint, so another request under the same id never takes effect |
| TaskControl.SettledStays | packages/runtime/encrypted-host.js:671-677 | a completed or rejected claim never changes while the task lives (SettledThroughout: in any run) |
| TaskControl.RecordsAreTrue | packages/runtime/encrypted-host.js:629-713 | in every run a claim on record says what happened: an accepted one was made by a call of this command when it had none, a completed one holds the very result its own action returned, a rejected one the reason of a refusal given |
| TaskControl.ResultIsRecorded | packages/runtime/encrypted-host.js:707-713 | the result of a finished action of a live task is what its claim says for as long as the task lives |
| TaskControl.FinishedExactly | packages/runtime/encrypted-host.js:707-713 | completed, with its own fingerprint and exactly its result; nothing of a fenced task; a refusal of what an engine did for a task whose deletion was only observed |
| TaskControl.FailuresSettle | packages/runtime/encrypted-host.js:629-639 | a coded refusal settles a claim that is still open, with its code; any other failure leaves it open |
| TaskControl.DeletionTakesHold | packages/runtime/encrypted-task.js:15-29 | a deletion read ends a task's life, one saved for good; forgetting leaves of what names it the fence alone, and the rest as it was |
| TaskControl.ClaimedBeforeEffect | packages/runtime/encrypted-host.js:669-705 | at the very step that dispatches an action its claim is accepted on record and the task lives |
| TaskControl.NewCallRuns | packages/runtime/encrypted-host.js:641-713 | an undisturbed call of a new command takes effect exactly once and is recorded with its result; an invalid payload leaves a refused claim and no effect |
| TaskControl.OtherCallsDoNothing | packages/runtime/encrypted-host.js:629-678 | any other takes no effect, and at most closes a claim that was still open, as deleted or as in conflict |
| TaskControl.FenceHolds | packages/runtime/encrypted-task.js:15-19 | after the fence nothing of the task is dispatched or saved, in any step |
| TaskControl.NoEffectAfterFence | packages/runtime/encrypted-host.js:362-367 | nor in any run |
| TaskControl.RunKeepsInv | packages/runtime/encrypted-host.js:629-712 | claim before effect, one call of a task at a time: the invariant over runs with crashes |
| TaskControl.EncryptedTaskState.Save | packages/runtime/encrypted-task.js:15-19 | refused exactly when the key names a fenced task and is not its fence |
| TaskControl.EncryptedTaskState.SaveMany | packages/runtime/encrypted-task.js:33-37 | all the writes or none, and which |
| TaskControl.EncryptedTaskState.ForgetTask | packages/runtime/encrypted-task.js:20-29 | the loop removes exactly the rows that mention the task, keeping its fence |
| TaskControl.EncryptedTaskState.Refuse | packages/runtime/encrypted-host.js:629-639 | a coded refusal settles a claim that is still accepted, and no other |
| TaskControl.EncryptedTaskState.ApplyOpened | packages/runtime/encrypted-host.js:666-709 | duplicate, conflict, unknown outcome, claim, dispatch: the branch taken and the row left |
| TaskControl.EncryptedTaskState.HistorySealed | packages/runtime/encrypted-host.js:689-705 | a history handoff is dispatched only to a live task |
| TaskControl.EncryptedTaskState.ActionFinished | packages/runtime/encrypted-host.js:709-713 | the result is saved only of a live task |
| Execution.OneSessionAtATime | packages/runtime/encrypted-execution.js:104-222 | at most one activation holds a task, and while its provider runs or its appends drain the durable marker says running or recovery-required, so a crash at any moment finds it so |
| Execution.NothingResumesSilently | packages/runtime/encrypted-execution.js:113-119 | between any two turns given to a provider, the first's end was saved or a person acknowledged that it is unknown |
| Execution.TerminalMeansWritten | packages/runtime/encrypted-run.js:195-221 | a terminal marker means that everything the turn submitted while its provider ran is in the task's log, in order, through every later turn and crash; concluded from the run's own appends, with receipts still arriving after the provider returned |
| Execution.WrittenIsInLog | packages/runtime/encrypted-run.js:175-193 | of what a run that has not failed wrote, nothing is merely held |
| Execution.IdsNeverCollide | packages/runtime/encrypted-run.js:142-143 | with the host's calls one after another, through creation, turns, receipts, repairs, failing saves and crashes: no two events of a log share an id and an append fails only for a real failure, unless a marker's save was lost after an append had failed |
| Execution.LateExactly | packages/runtime/encrypted-execution.js:157-162 | which takes exactly an append of a receipt that failed after its turn's end was saved, with the marker's save lost or the host closing |
| Execution.AppendKeepsRunInv | packages/runtime/encrypted-run.js:175-193 | only the last turn's run ever has anything left to append |
| Execution.LaunchKeepsFollowed | packages/runtime/encrypted-execution.js:139-163 | the marker is saved before the provider can act, and only over a known or acknowledged end |
| Execution.StepKeepsInv | packages/runtime/encrypted-execution.js:71-222 | turns, repairs, failing saves, closing and crashes each keep the invariant |
| ExecutionTurns.TurnCompletes | packages/runtime/encrypted-execution.js:104-222 | a turn that nothing disturbs runs to its end: marker terminal, the task idle again, and the log longer by exactly what its provider emitted, in order, numbered on from what was there |
| ExecutionTurns.RepairCompletes | packages/runtime/encrypted-execution.js:71-102 | an unknown end is logged once, and then a turn starts if and only if that is acknowledged |
| ExecutionTurns.SettlesExactly | packages/runtime/encrypted-execution.js:200-212 | terminal if and only if the provider returned, no append failed, the host is open and that could be saved; else recovery as soon as that can be |
| ExecutionTurns.FailuresAreMarked | packages/runtime/encrypted-execution.js:157-162 | a failed append marks recovery, in the row and in the record later saves are made from, and nothing more of the turn is written |
| ExecutionTurns.SavesExactly | packages/runtime/encrypted-execution.js:151-162 | while a turn runs every save writes that it runs, or, once an append failed, that it needs recovery |
| ExecutionTurns.EmitsExactly | packages/runtime/encrypted-run.js:205-213 | what a provider emits is queued unless the host is closing or an append has failed |
| ExecutionTurns.RepairsExactly | packages/runtime/encrypted-execution.js:71-102 | begun exactly for an unknown end not yet logged with no session; what it writes is the row it read |
| ExecutionTurns.CrashesExactly | packages/runtime/encrypted-execution.js:71-84 | a crash leaves the task idle, with its marker and its log and the record that was kept; a turn that ran is found unknown, and none starts over it |
| ExecutionTurns.GivesUpExactly | packages/runtime/encrypted-execution.js:139-150 | a start whose creating event fails, that finds the host closing or cannot save its marker frees the task, with the marker as it was and nothing given to a provider |
| ExecutionTurns.ProviderEndsExactly | packages/runtime/encrypted-execution.js:195-212 | when its provider is done a turn waits for all it has submitted, and counts as well ended only if what it had to save could be |
| ExecutionTurns.StartsExactly | packages/runtime/encrypted-execution.js:104-139 | on an idle task, if and only if admitted and no end is unknown, or one found out is acknowledged |
| Execution.EncryptedExecution.StartTask | packages/runtime/encrypted-execution.js:104-139 | refused when closing, busy, not admitted, running, or unknown without acknowledgement |
| Execution.EncryptedExecution.EnsureTaskCreated | packages/runtime/encrypted-execution.js:62-69 | the first event of an empty log, or the start is given up |
| Execution.EncryptedExecution.RunTurn | packages/runtime/encrypted-execution.js:140-199 | from the creating event to the provider's first await |
| Execution.EncryptedExecution.NoteFailure | packages/runtime/encrypted-execution.js:157-162 | a failed append turns the marker to recovery unless the host is closing or the save fails |
| Execution.EncryptedExecution.Complete | packages/runtime/encrypted-execution.js:205-212 | the outcome becomes the marker only if everything was written and it could be saved |
| Execution.EncryptedExecution.Finish | packages/runtime/encrypted-execution.js:213-217 | the task is free again |
| Execution.EncryptedExecution.BeginReconcile | packages/runtime/encrypted-execution.js:71-76 | only for an unknown end not yet logged, with no session |
| Execution.EncryptedExecution.LogRecovery | packages/runtime/encrypted-execution.js:85-99 | one recovery event; the call ends with the first that fails |
| Execution.EncryptedExecution.EndReconcile | packages/runtime/encrypted-execution.js:96-102 | writes what it read before the awaits, marked as logged |
| TaskRun.CollidesExactly | packages/runtime/encrypted-run.js:142-143 | over successive turns, failed appends, creating and control events and restarts: an append meets an id already used if and only if it is its run's first and the run began while the writer held, of an earlier run, the record numbered next after the log |
| TaskRun.CleanRunsNeverCollide | packages/runtime/encrypted-run.js:153-171 | so while every run begins with nothing of another held, an append is refused only by a real failure |
| TaskRun.HeldRecordCollides | packages/runtime/encrypted-run.js:153-171 | a run whose first event is refused for its id |
| TaskRun.WrittenIsAPrefix | packages/runtime/encrypted-run.js:175-193 | what the log holds of a run is what it submitted, in order, cut at the first failed append, which alone may still arrive, after what an earlier run may have left; all of it when nothing failed or waits |
| TaskRun.WriteSince | packages/e2ee/task-log.mjs:233-267 | what one write adds to the log as the writer will see it, finished or held |
| TaskRun.LogGains | packages/e2ee/task-log.mjs:233-267 | the log gains exactly what is written under a new id and neither stuck nor lost, after the one before it; a record is lost only with the process, if it was not kept |
| TaskRun.NextKeepsRun | packages/runtime/encrypted-run.js:175-193 | each append keeps the run's counter ahead of every id used, unless it clashes |
| TaskRun.EncryptedTaskRun.constructor | packages/runtime/encrypted-run.js:153-171 | a run counts on from the log's length, whatever the writer holds |
| TaskRun.EncryptedTaskRun.Submit | packages/runtime/encrypted-run.js:175-193 | nothing is queued after a failure |
| TaskRun.EncryptedTaskRun.AppendNext | packages/runtime/encrypted-run.js:176-188 | one append, and a failure that empties the queue |
| TaskRun.EncryptedTaskRun.Drain | packages/runtime/encrypted-run.js:215-221 | a run that ends without failure wrote everything it submitted |
| RelayTables.DeletionIsPermanent | packages/hub/retention.js:22-56 | after a tombstone no task row, event, tagged envelope or recovery entry for it ever exists again, and a deleted project never regains a live grant, over whole runs with snapshots and restores |
| RelayTables.RetiredIsPermanent | packages/hub/retention.js:58-62 | a retired archive is never stored again |
| RelayTables.DeletionRemoves | packages/hub/retention.js:27-56 | what one accepted deletion leaves of the tasks it names: nothing |
| RelayTables.DeletionTakesExactly | packages/hub/retention.js:27-56 | and it takes nothing else: exactly the rows, logs and tagged mail of the tasks it names, the archives that list one of them, and the untagged mail and unlisted archives of those it touches; a task ends no grant, a project exactly its own |
| RelayTables.OtherTasksAreLeft | packages/hub/retention.js:27-45 | deleting one task changes no other task's row, log or mail, and no grant |
| RelayTables.DeletesExactly | packages/hub/retention.js:27-35 | accepted once, and only if it names what is there: the task with its project and host, or the project with exactly its tasks and their hosts |
| RelayTables.AccessIsGiven | packages/hub/enrollment.js:307-345 | access is gained by exactly these: one's own new project or task, or a grant by someone who has it, and never to a deleted project |
| RelayTables.AccessIsEnded | packages/hub/enrollment.js:348-355 | and lost by exactly these: revoked by someone who has it (an owner's by the owner), owner recovery, deletion of the project |
| RelayTables.TasksMove | packages/hub/encrypted-tasks.js:18-38 | rows of tasks appear only when created or restored, as they were given, vanish only when deleted or lost, and never change |
| RelayTables.CreatesExactly | packages/hub/encrypted-tasks.js:18-38 | created, or already there, exactly as asked; refused under a used id that differs, and when deleted |
| RelayTables.AppendsExactly | packages/hub/encrypted-tasks.js:39-54 | accepted exactly if next in the log under an id of its own, or stored already as it is |
| RelayTables.MailMoves | packages/hub/key-exchange.js:163-175 | letters appear only when delivered, as sent, and vanish only when their recipient fetches them or with what they are about |
| RelayTables.ArchivesMove | packages/hub/key-exchange.js:197-224 | archives change only when stored again, by one with access to all they list, and vanish only with what they list |
| RelayTables.SnapshotsExactly | packages/hub/retention.js:88-98 | a snapshot is kept as the tables are; nothing else adds one, and nothing takes one away |
| RelayTables.RestoreGoesThrough | packages/hub/retention.js:99-118 | a snapshot taken here never makes a restore roll back |
| RelayTables.AppendAccepts | packages/hub/encrypted-tasks.js:39-54 | appending to the table is accepting into the log; no other task's log is touched |
| RelayTables.AppendAllAccepts | packages/hub/encrypted-tasks.js:39-54 | and so is any traffic of appends |
| RelayTables.RetryIsInvisible | packages/hub/encrypted-tasks.js:45-49 | submitting an event again, the same or changed, anywhere in the traffic, leaves the first-accepted log |
| RelayTables.LogsOnlyExtend | packages/hub/encrypted-tasks.js:39-54 | except for its own deletion or loss a log is only ever extended |
| RelayTables.PageIsSlice | packages/hub/encrypted-tasks.js:112-117 | a page is the slice it claims to be |
| RelayTables.ReplayCollects | packages/e2ee/task-log.mjs:194-217 | paging by the next sequence with the first head pinned ends with exactly that prefix, while appends go on |
| RelayTables.RestoreReproduces | packages/hub/retention.js:99-118 | a restore brings back exactly the snapshot's log of each task it restores and changes none that is there |
| RelayTables.BackupUndoesLoss | packages/hub/retention.js:88-118 | snapshot, loss, restore: the task and its log are as they were |
| RelayTables.RunKeepsInv | packages/hub/retention.js:22-118 | the tables agree with each other after every request |
| RelayTables.Relay.Head | packages/hub/encrypted-tasks.js:17 | the largest sequence number of the task, zero for an empty log |
| RelayTables.Relay.TakeProject | packages/hub/enrollment.js:307-313 | refused for a deleted project; otherwise a live owner grant |
| RelayTables.Relay.CreateTask | packages/hub/encrypted-tasks.js:18-38 | the row, the grant, or the refusal |
| RelayTables.Relay.AppendRecord | packages/hub/encrypted-tasks.js:39-54 | next in sequence, or a repetition, or a conflict |
| RelayTables.Relay.DeliverMail | packages/hub/key-exchange.js:163-175 | an envelope tagged with a task needs the task and a live grant |
| RelayTables.Relay.StoreRecovery | packages/hub/key-exchange.js:197-224 | refused for a retired scope or a task without a live grant |
| RelayTables.Relay.RemoveArchive | packages/hub/retention.js:58-62 | retired, removed and unindexed |
| RelayTables.Relay.RemoveTask | packages/hub/retention.js:38-45 | one task's rows, events, envelopes and archives |
| RelayTables.Relay.RemoveEach | packages/hub/retention.js:38-45 | the loop over a project's tasks, in any order |
| RelayTables.Relay.CheckDeletion | packages/hub/retention.js:29-35 | the task or the exact list of the project's tasks |
| RelayTables.Relay.PurgeLegacy | packages/hub/retention.js:46-53 | untagged envelopes and unindexed archives of the people affected |
| RelayTables.Relay.ApplyDeletion | packages/hub/retention.js:27-56 | the whole deletion |
| RelayTables.Relay.RestoreSnapshot | packages/hub/retention.js:99-118 | the loop inserts what may come back, or nothing at all |
| Routing.RoutedOnceWhileRemembered | packages/hub/server.js:674-705 | a command is routed a second time only after its first routing was settled and forgotten |
| Routing.RoutedAgainOnlyWhenForgotten | packages/hub/server.js:674-705 | at the very step that routes a command again, every earlier routing of it is settled and no longer remembered |
| Routing.FlightsAreUnsettled | packages/hub/server.js:696-704 | the ids in flight and the unsettled entries of the command log correspond one to one |
| Routing.SettledOnce | packages/hub/server.js:749-757 | an outcome once given is never replaced |
| Routing.SettledExactly | packages/hub/server.js:389-404 | a running command is settled by exactly these: the report of its own host over the connection it was sent on, with the value reported; the loss of that connection; the removal of that host |
| Routing.RoutesExactly | packages/hub/server.js:696-704 | routed if and only if new and its host is there, to that host's current connection, and remembered |
| Routing.CommandAnswers | packages/hub/server.js:677-704 | what is answered at once: the outcome to a repetition, a refusal of other input or of an id in use, offline, or nothing yet |
| Routing.ResultAnswers | packages/hub/server.js:389-404 | a report is refused exactly when it is not from the current connection of the host it names, or is about a command sent elsewhere |
| Routing.AsksExactly | packages/hub/server.js:677-687 | who repeats a running command with the same input waits with the others, and nobody else does |
| Routing.ConnectedExactly | packages/hub/server.js:203-219 | a host's connection is the last it opened that has not closed, while it is paired |
| Routing.ToldExactly | packages/hub/server.js:749-757 | whoever waits is told at the very step that settles the command, unless it is their own connection that closes |
| Routing.ForgetsOnlySettled | packages/hub/server.js:759-768 | only a new command makes the log forget, only settled ones, and only beyond its limit |
| Routing.EveryAskerIsAnswered | packages/hub/server.js:677-687 | whoever asked about a settled command was told, unless its socket closed or its person left; a reported outcome came from the very socket it was routed to |
| Routing.PruneSparesFlights | packages/hub/server.js:759-768 | pruning never drops a command in flight |
| Routing.PruneBounds | packages/hub/server.js:761-768 | afterwards the log is within the limit or holds only commands in flight |
| Routing.OldestGoFirst | packages/hub/server.js:763-767 | a settled entry is dropped only after every older settled one |
| Routing.OfflineIsPrune | packages/hub/server.js:696-704 | a command that finds no host leaves the log as pruning to one less would |
| Routing.StepKeepsInv | packages/hub/server.js:203-211 | closing, unpairing, results and repetitions keep the correspondence |
| Routing.Router.SettleCommand | packages/hub/server.js:749-757 | one outcome, to everyone waiting |
| Routing.Router.PruneCommandLog | packages/hub/server.js:761-768 | entry by entry in order of age until small enough |
| Routing.PrunedFromIsKept | packages/hub/server.js:761-768 | that loop keeps exactly what the limit asks for |
| Routing.Router.OnCommand | packages/hub/server.js:674-705 | duplicate, conflict, id in use, offline or routed |
| Routing.Router.OnResult | packages/hub/server.js:389-404 | only from the current socket of the runtime it was routed to |
| Routing.Router.OnClose | packages/hub/server.js:203-219 | stops its waiting and settles what it was running |
| Routing.Router.OnUnpair | packages/hub/server.js:337-357 | settles everything in flight on the runtime |
| HostControl.EpochsNeverGoBack | packages/e2ee/host-control.js:51-76 | committed epochs never decrease and equal epochs are identical, though the rollback test runs before the awaits; a challenge is spent on one commit |
| HostControl.GrantsAreUsedOnce | packages/e2ee/host-control.js:9-22 | across restarts no grant and no request is accepted twice, and each acceptance names a committed epoch and comes from one of its approvers |
| HostControl.AcceptedUnderTheNewest | packages/e2ee/host-control.js:78-88 | a grant takes effect if and only if the host has reconciled, the grant names the newest committed epoch, comes from one of that membership's approvers in its own name, and answers the pending request; then with the grant's own decision |
| HostControl.ResolvingSpends | packages/e2ee/host-control.js:9-22 | acceptance spends exactly that grant and that request; a refusal changes nothing |
| HostControl.RefusedForAFault | packages/e2ee/authorization.js:46-67 | a refusal names something that is wrong with the grant |
| HostControl.CommittedWhenAsked | packages/e2ee/host-control.js:44-76 | over every run: each committed membership came in an authentic envelope that echoed a challenge the host had asked, which stood undisturbed from the asking to the commit, and was fit (every approver and the host a member, every member complete); while reconciled, nothing has interrupted since the newest commit |
| HostControl.ExchangeCommitsExactly | packages/e2ee/host-control.js:45-76 | an uninterrupted exchange commits and reconciles if and only if the answer is authentic, echoes the challenge, goes back behind nothing and is fit |
| HostControl.FailuresLeaveNothing | packages/e2ee/host-control.js:44-76 | an activation that fails leaves nothing in flight, a restart none at all, and the durable state as it was |
| HostControl.CheckAcceptsAnswers | packages/e2ee/authorization.js:46-67 | a grant passes if and only if it is unused, well formed, unexpired and for exactly the pending request |
| HostControl.ConsumedStaysConsumed | packages/e2ee/authorization.js:69-82 | once consumed, neither it nor another grant for its request is accepted by any later ledger |
| HostControl.RunKeepsInv | packages/e2ee/host-control.js:44-88 | the invariant that makes the early rollback test sufficient |
| HostControl.EncryptedHostControl.AskOwner | packages/e2ee/host-control.js:45-49 | a fresh challenge, not reconciled |
| HostControl.EncryptedHostControl.CloseConnection | packages/e2ee/host-control.js:44 | not reconciled and no challenge |
| HostControl.EncryptedHostControl.StartMembership | packages/e2ee/host-control.js:51-61 | authority, challenge, form and rollback, before the awaits |
| HostControl.EncryptedHostControl.CommitMembership | packages/e2ee/host-control.js:62-76 | commits only under the challenge it started with; the receipt names what was committed |
| HostControl.EncryptedHostControl.ResolveAction | packages/e2ee/host-control.js:78-88 | the refusal or the consumed grant |
| CodexRpc.ChunkingIsInvisible | packages/runtime/codex-rpc.js:67-98 | however a byte stream is cut, the messages handed on, the calls settled and the error are those of one piece |
| CodexRpc.SentIsReceived | packages/runtime/codex-rpc.js:47-53 | any messages that may be sent arrive exactly, in order, through any chunking |
| CodexRpc.CallsSettleOnce | packages/runtime/codex-rpc.js:39-66 | each call id is waiting or settled, never both; an outcome stays; an error leaves none waiting |
| CodexRpc.ResponsesArrive | packages/runtime/codex-rpc.js:67-95 | each waiting call is settled by the first response to it, with the value or failure it carries, through any chunking; other responses change nothing |
| CodexRpc.HandlesExactly | packages/runtime/codex-rpc.js:75-97 | a line hands on the call it is, or settles the one it answers, or ends the connection with the code of what is wrong with it, rejecting all that wait |
| CodexRpc.CallsExactly | packages/runtime/codex-rpc.js:47-63 | a call takes the next id and waits, unless its frame is too large, which rejects it alone, or the pipe is gone, which ends the connection |
| CodexRpc.TwoChunks | packages/runtime/codex-rpc.js:67-98 | two chunks are their concatenation, in any state |
| CodexRpc.OverlongFails | packages/runtime/codex-rpc.js:75-97 | a line past the limit fails the same however it goes on |
| CodexRpc.Connection.FailWith | packages/runtime/codex-rpc.js:39-46 | the first error rejects every waiting call |
| CodexRpc.Connection.HandleLine | packages/runtime/codex-rpc.js:75-95 | size, blank, form, and a reply to a waiting or unknown id |
| CodexRpc.Connection.ReceiveData | packages/runtime/codex-rpc.js:67-98 | the loop over complete lines, and the limit on the rest |
| CodexRpc.Connection.MakeCall | packages/runtime/codex-rpc.js:54-63 | the id taken, and what a frame too large or a closed pipe does |
| CodexTurn.BufferingIsTransparent | packages/runtime/codex-app-server.js:104-112 | wherever the reply to turn/start falls, the turn ends up as if it had been known from the start, if the buffer holds what came before; otherwise it fails with nothing emitted |
| CodexTurn.EmittedIsMatching | packages/runtime/codex-app-server.js:104-133 | the events are the matching notifications of the thread and turn, in arrival order, cut at the first that ends it |
| CodexTurn.EndsExactly | packages/runtime/codex-app-server.js:104-133 | wherever the reply falls, the turn takes the matching notifications up to the end or to the first that cannot be taken: it emits exactly what they tell, holds the last content of each item, ends with the status they end with, and fails if and only if there is one that cannot be taken |
| CodexTurn.ItemsStartOnceAndFirst | packages/runtime/codex-app-server.js:122-128 | an item is reported started once and never completed before |
| CodexTurn.EmitsWhatItTells | packages/runtime/codex-app-server.js:112-133 | from any point of a known turn on; a failed connection has emitted a first part of them |
| CodexTurn.Buffers | packages/runtime/codex-app-server.js:107-111 | exactly the thread's notifications are kept, and it fails exactly when they are more than 128 or more than a mebibyte |
| CodexTurn.TurnState.Notify | packages/runtime/codex-app-server.js:104-133 | one notification |
| CodexTurn.TurnState.BindTurn | packages/runtime/codex-app-server.js:250-252 | the loop over what was held back |
| CodexSteers.SentOnce | packages/runtime/codex-app-server.js:187-198 | a steer is sent at most once though it may be offered twice |
| CodexSteers.DeliveredAfterAcknowledgement | packages/runtime/codex-app-server.js:199-203 | reported delivered only after an acknowledgement that names this turn, and only then out of the queue |
| CodexSteers.InOrderExactly | packages/runtime/codex-app-server.js:205-207 | delivered in the order of acceptance if and only if nothing was accepted both before the controls were in place and between that and the turn, or delivery has not reached the early ones |
| CodexSteers.NothingIsForgotten | packages/runtime/codex-app-server.js:187-207 | when no work is left and the connection has not failed, every steer accepted was delivered, exactly once, and none is waiting |
| CodexSteers.NothingTakenLate | packages/runtime/codex-app-server.js:187-193 | once the turn has ended or an interrupt was asked for, no steer is taken up any more, whatever happens |
| CodexSteers.BegunIsDelivered | packages/runtime/codex-app-server.js:187-203 | a steer whose work begins and is acknowledged is sent, delivered and out of the queue; one taken before is passed over |
| CodexSteers.FailsExactly | packages/runtime/codex-app-server.js:187-203 | the connection fails over a new steer that comes too late and over one acknowledged for another turn or after an interrupt, and over nothing else |
| CodexSteers.EarlySteerComesLate | packages/runtime/codex-app-server.js:250-253 | a run that delivers the second steer first |
| CodexSteers.BindPlans | packages/runtime/codex-app-server.js:253 | offering the whole queue again adds only what was accepted early |
| CodexSteers.Controls.AcceptSteer | packages/runtime/session.js:77-85 | queued always, offered only when the controls are in place |
| CodexSteers.Controls.BindTurn | packages/runtime/codex-app-server.js:250-253 | the loop that offers the queue |
| CodexSteers.Controls.BeginNext | packages/runtime/codex-app-server.js:187-195 | skipped when already taken; a stale turn fails the connection |
| CodexSteers.Controls.Answered | packages/runtime/codex-app-server.js:199-203 | delivered, or the connection failed |
| CodexRequests.ToolsRunOnce | packages/runtime/codex-app-server.js:142-158 | a host tool call executes at most once, all replies about it carry one result, and other arguments under its id fail the connection |
| CodexRequests.AcceptedAsAsked | packages/runtime/codex-app-server.js:159-181 | the provider is told to go ahead only if at some earlier step of the run the session accepted that request while the action it had been asked about was exactly what the request would do, with no interrupt |
| CodexRequests.DecisionsAgree | packages/runtime/codex-app-server.js:161-171 | a request is put to the session at most once, and all answers about it agree |
| CodexRequests.DecidesExactly | packages/runtime/codex-app-server.js:159-181 | a request is decided by the session's decision while the turn goes on, to accept if and only if that is what it was, there was no interrupt, and the action is still what it was asked about; or at once, to decline, if there was nothing to approve |
| CodexRequests.CallsMove | packages/runtime/codex-app-server.js:142-153 | a call is taken on exactly when new and there is room, executed exactly when its turn comes and nothing has ended, with what the tool returned as its result |
| CodexRequests.ToolsTakeTurns | packages/runtime/codex-app-server.js:150-153 | in the order of their first calls, one at a time, each getting a result |
| CodexRequests.ToolsAnswer | packages/runtime/codex-app-server.js:142-157 | every message that asked for a call waits for its result and is answered with it, unless the turn or the connection has ended |
| CodexRequests.AsksExactly | packages/runtime/codex-app-server.js:167-175 | the session is asked about exactly the new requests for something it could approve, and about exactly that |
| CodexRequests.ItemsAreSeen | packages/runtime/codex-app-server.js:122-126 | what a request would do is judged by the items as last seen |
| CodexRequests.RepliesExactly | packages/runtime/codex-app-server.js:159-181 | answers go out when a request is decided and whenever it is asked again, and say what was decided |
| CodexRequests.FailsExactly | packages/runtime/codex-app-server.js:141-166 | the connection fails exactly over a request repeated under another binding or one too many |
| CodexRequests.NothingStartsLate | packages/runtime/codex-app-server.js:141-151 | nothing is executed, asked or granted after an interrupt, the end or a failure |
| CodexRequests.NothingStartsAfter | packages/runtime/codex-app-server.js:141-151 | nor at any time after, whatever is asked and however it is decided |
| CodexRequests.StepKeepsInv | packages/runtime/codex-app-server.js:136-181 | results, decisions and bindings, once there, stay |
| CodexRequests.Requests.Receive | packages/runtime/codex-app-server.js:136-175 | refusal, tool call or approval |
| CodexRequests.Requests.CallTool | packages/runtime/codex-app-server.js:142-157 | held, queued, too many, or changed |
| CodexRequests.Requests.Approve | packages/runtime/codex-app-server.js:159-175 | repeated, changed, too many, nothing to approve, or asked |
| CodexRequests.Requests.Answer | packages/runtime/codex-app-server.js:175-180 | the payload is computed again before the decision counts |
| CodexRequests.Requests.RunNext | packages/runtime/codex-app-server.js:150-153 | cancelled when too late |
| LineDiff.LineDiff | packages/runtime/diff.js:3-26 | additions less deletions is the difference in lines on both branches; below the size guard the result is the first 600 entries of the folding, as short as it should be, of an edit script between the two texts that makes the fewest changes of all scripts |
| LineDiff.FillTable | packages/runtime/diff.js:9-11 | every cell is the 16-bit value the recurrence gives |
| LineDiff.CellExact | packages/runtime/diff.js:10-11 | a cell holds the longest common subsequence of its suffixes if and only if that fits in 16 bits |
| LineDiff.NoCellWraps | packages/runtime/diff.js:3-11 | under the size guard no cell wraps, for every cap below 65536 |
| LineDiff.LargeCapWraps | packages/runtime/diff.js:3-11 | every larger cap admits a pair of texts whose first cell wraps |
| LineDiff.Walk | packages/runtime/diff.js:12-20 | the walk spells both texts and keeps exactly the number of lines in the first cell |
| LineDiff.LcsIsUpperBound | packages/runtime/diff.js:11 | no edit script keeps more lines than the table says |
| LineDiff.FewestChanges | packages/runtime/diff.js:14-20 | a script that keeps that many makes the fewest changes |
| LineDiff.ScriptCounts | packages/runtime/diff.js:14-20 | any script's additions less deletions is the difference in lines |
| LineDiff.FoldContext | packages/runtime/diff.js:21-24 | the loop folds each run of more than six unchanged lines |
| LineDiff.FoldShows | packages/runtime/diff.js:21-24 | folding hides only unchanged lines |
| LineDiff.FoldIsCompact | packages/runtime/diff.js:21-24 | and leaves no seven unchanged lines in a row; a marker has exactly the two lines of its run on either side |
| LineDiff.ShowsConserves | packages/runtime/diff.js:22-23 | the number of lines is conserved when a fold counts for what it hides, and every change stays, in order |

## Left out

- SQL, HTTP, WebSockets, processes and files: tables are maps, a transaction is one step, sockets are ids.
- Canonical JSON, signature formats and the key exchange library: abstract, as said under the assumptions.
- UTF-8 decoding in the framer: lines are bytes, so a character cut by a chunk counts towards the limit at once, where the code counts it when it is complete; the newline byte occurs in no longer character (section 3 of RFC 3629), and serialized JSON has no raw newline (section 7 of RFC 8259).
- FreshHost.ReconciledMeansCurrent: `performDeletions`, cancellation and owner recovery are awaits that succeed or fail; at start the durable floor is any value and the signer record any well-formed one.
- FreshHost.QueuedShareDies: the start of a share is guarded, not its completion.
- Revocations.AcknowledgedMeansLockedOut: a device handed a key keeps it until the room's session is replaced; what it already read stays read.
- Revocations: re-admission of the remaining members is a share like any other, and the rotations of deletion and owner recovery are rotations at any time.
- SignedLog.OneValidatedChain: grants, deletions and recovery descriptors are operations that do not touch endpoints; the deletion tables are in RelayTables.
- TaskControl: what a call answers its caller; it answers from the claim on record.
- SignedLog.ReplayIsPolicy: grants, deletions and the shape of recovery descriptors are one parameter, `permits`, asked of the replayed state.
- TaskControl.AtMostOnce: what an action does is one effect; whether the provider acted on it before a crash is unknown, which is what the claim records.
- Execution: approvals, grants and settings kept in the marker's row; the refusals of `startTask` that change nothing are one flag; a started turn whose checks then fail counts as given to a provider.
- Execution.IdsNeverCollide: that the host makes its calls one after another is `Execution.InOrder` (packages/runtime/index.js:305-345; packages/runtime/encrypted-host.js:629-642); a task whose two repairs overlapped is not covered.
- RelayTables: measurement tables, key uploads and claims, deletion acknowledgements, backup files and their expiry; after a deletion another team may use the same task id.
- Routing: authorization of commands, thread deletion on success, and the bound on threads looked at when a host vanishes; entries are represented by their number, so the sharing of one object by two maps is modelled, its mutation by outsiders is not.
- HostControl: a grant with a field that is not a string is taken as one with the field empty.
- CodexTurn.EmittedIsMatching: error codes are not compared; a limit reached while replaying the buffer reports `codex_request_limit`, reached live it reports `codex_protocol_invalid`.
- CodexSteers: the text of a steer; a session never changes it, so the comparison of bindings cannot fail.
- CodexRequests: requests that arrive before the turn is known wait and are handled when it is.
- LineDiff.LineDiff: the optimality of the walk is stated before the result is cut to its first 600 entries.
- The exec backend, OAuth, environment probing, presence, activity, pairing codes and all user interface code: easy members, or glue.
