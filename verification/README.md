# Palmagent: a verified model

Palmagent runs coding agents under a small supervisor, `palmagentd`, and shows what they do in a web client. This
project models the parts of it that are hard to get right and proves what they are for. Everything is proved for all
inputs, all runs or all reachable states of the model; `dafny verify dfyconfig.toml` checks the whole of it.

## What is modelled

**The supervisor.** `HostProtocol` is the ownership protocol of one host as a machine: launches, guardians,
maintenance passes and inspections are actors with a program counter, a step is one effect on the durable record, its
lock, its cgroup or the process table, and any actor may vanish between any two steps. `HostInvariant` has the
inductive invariant and shows that each step keeps it; `HostSafety` says what follows over all runs, `HostOutcomes`
what records say of how hosts ended, `HostReports` what inspections report, and `HostProgress` what can always get
done. `ServiceIdentity` puts many hosts under a supervisor that selects the identity of a service and may itself
vanish; `ServiceSplit` says which verdicts can make two identities of it live. `Supervisor` is the control loop as a
class, with its pending operation, its pending exit, its connections and the hand-over of the application from one
release to the next. `Recovery` is the restart policy and `RestartPacing` what it guarantees over runs with lost
writes and restarts. `Compaction`, `LogRetention` and `HostListing` (in `Maintenance.dfy`) are the maintenance of
finished hosts, and `CompactedRecords` shows that the protocol leaves only records that compaction can rely on.

**The transcript.** `Transcript` specifies how a log of items becomes rows: turns, phases that the first
classification decides, work groups, groups without work that move into the nearest work, one failure for all error
signals of a run. `TranscriptLoop` is the same as loops. `TranscriptStability` and `TranscriptStreaming` show that
nothing on screen is taken back, `TranscriptConservation` and `TranscriptWork` in which row every item of the log ends
up, `TranscriptKeys` that keys are unique. `TranscriptFailures`, `TranscriptFailureRows` and `TranscriptRuns` say that
failures are on show, and which errors share one; `TranscriptAnswers` and `TranscriptEchoes` that what results say is,
once; `TranscriptLive` which Activity is live and what it previews. `HistoryStream` says how a stream of events
becomes a log. `ConversationTrace` turns the log into operations and attaches them to rows; `TraceConservation`,
`TraceCorrelation` and `TraceImages` say which items form one operation and where it goes, `TraceBeginnings` which of
them begins it, `TraceKinds` what it is, `TraceStates` when it is running and `TraceHalts` what state it ends up in.
`ProjectionStability`, `ProjectionAnchors` and `ProjectionLoss` say what stays on screen when both passes are
combined, with `TranscriptGaps` for where messages lie between groups of work.

**Smaller machines.** `MermaidCache`, `VoiceBuffer`, `OptimisticPreference`, `ConversationHistory` and `TaskHistory`
are the stateful parts of the client of the same names.

## What the proofs found

Properties that do not hold as they stand, each with the exact condition under which they do:

- *A not-alive verdict can be wrong.* `describe` looks at a host's processes before it looks at its guardian. A
  guardian that spawns its child and dies between the two looks leaves a living child behind a verdict that says the
  host is gone. Of the records an inspection can read, exactly the claimed reservations that nothing has been added to
  (still starting, no reason recorded) allow this (`VerdictTrustworthyIffSettled`); on every other record the verdict is
  right, now and for ever. On exactly the same records, acting on the verdict can split a service, so that children of
  two of its identities live at once (`SplitsIffUnsettled`).
- *Restart pacing depends on writes that are not lost.* The policy's state changes before it is written, so a write that
  fails before a restart takes the supervisor back to what the file said. Starts stay two seconds apart all the same
  (`StartsAreApart`). The back-off holds if and only if the count was written or the file holds off just as long
  (`FailuresBackOff`); a death is counted once if and only if the count was written or the file names the identity
  already (`DeathCountedOnce`); failures are forgiven only after 30 s of stability if and only if neither the state nor
  the file claims more stability than there was (`ForgivenOnlyAfterStability`), and after 30 s of it if and only if the
  file remembers its beginning or has nothing to forgive (`StabilityForgives`). Losing the write of a tick that ends a
  stable stretch always opens the way to early forgiveness (`LostBreakIsDishonest`); `ForgivenTooEarly` is a run in
  which failures are forgiven 29 s after the identity was down.
- *A shown Activity can go.* The compact transcript only ever grows (`PrefixStability`), as its comments intend. The
  second pass drops Activities without operations. An Activity stays for good if and only if its turn has ended or it
  shows what begins an operation with no message between its work and that (`ActivityStaysIffRooted`); any later tool
  call or result takes away every other one (`UnrootedGoes`). In `LaterWorkTakesActivity` its only operation is a
  lifecycle event after the next message, which moves on into the new work.
- *Log retention and a moving clock.* The shortest-prefix property holds for one reading of the clock
  (`PlanIsShortest`). The code reads it again for every log; then an older log is spared for a younger one unless, past
  what the budget takes, no log is seen expired after one that is not (`PlanIsPrefixIffInOrder`). `MovingClockSkips` is
  an instance.
- *Deletions leave no trace* in the paged store. A record becomes older if and only if a patch brings a deleted key back
  older than what was last held under it (`RevisionsNeverDecrease`), as in `ReorderedPatchesRevert`; as long as no
  deletion is followed by an older record of its key, other patches may come in any order (`DeletionsDecide`).

And two observations:

- *A failed image is no work.* An unattributed image is conserved as work unless it is marked as failed; then it
  belongs to the run's failure (`FailuresAreKept`).
- *Overflow after the start is dead code* in the voice buffer: each sample pushed replaces one just popped.

## Assumptions

Writes of a file are atomic: one that fails either happened or did not. File locks exclude each other and end with their
holder, process identities never repeat, and random identities are new. A child joins its cgroup before it can run
anything of its own. Claims about a host's processes are about cgroup isolation. Logs are in ascending key order, as
sequence numbers are. The clock of the restart policy does not go back. The configuration does not change between a
request to replace the supervisor and the exec that follows it, and the first supervisor starts with no application of
another release alive; for its successors that is proved (`ServeGenerations`).

## Model

| member | source | states |
|---|---|---|
| HostInvariant.StepKeepsInv | apps/palmagentd/src/hosts.rs:150-319 | every step of a launch, guardian, maintenance pass or inspection, and every crash, keeps the invariant of a host and undoes nothing that is over |
| HostInvariant.LaunchStepKeepsInv | apps/palmagentd/src/hosts.rs:157-236 | check, lock, re-check, group, reservation and spawn, with the cleanup of a failed spawn, each keep the invariant |
| HostInvariant.GuardianStepKeepsInv | apps/palmagentd/src/hosts.rs:263-319 | claim, spawn, recording, watching, termination and the final write each keep the invariant of who owns the host and what lives, and so does a write that fails before or after it reached the disk; what is written is the matter of `HostOutcomes` |
| HostInvariant.MaintainStepKeepsInv | apps/palmagentd/src/maintenance.rs:248-336 | reconciliation of orphans and compaction each keep the invariant |
| HostInvariant.InspectStepKeepsInv | apps/palmagentd/src/hosts.rs:35-50 | an inspection that looks at the record, the processes and the guardian at three different moments keeps the invariant |
| HostSafety.RunKeepsInv | apps/palmagentd/src/hosts.rs:150-319 | over any run: the record stays, Exited stays, the spawn count never goes down, and a contained host that is over stays over |
| HostSafety.SpawnedAtMostOnce | apps/palmagentd/src/hosts.rs:202-236 | in every reachable state at most one child and one guardian have ever been spawned for a kind and id |
| HostSafety.LockIsExclusive | apps/palmagentd/src/platform/storage.rs:101-115 | no two actors are inside the host's lock together |
| HostSafety.NeverClaimableAgain | apps/palmagentd/src/hosts.rs:279-285 | no step deletes a record, or makes one that was claimed or finished claimable again |
| HostSafety.ExitedIsFinal | apps/palmagentd/src/maintenance.rs:272-311 | Exited is never left; with a cgroup no process of the host exists then or later |
| HostSafety.ExitedIsWrittenWhenEmpty | apps/palmagentd/src/hosts.rs:219-232 | Exited is first written only by the failed-spawn path, the guardian or reconciliation, after the group was seen empty |
| HostSafety.SettledVerdictIsFinal | apps/palmagentd/src/hosts.rs:48-87 | a not-alive verdict on a settled record is right when given, and nothing of the host lives or is spawned ever after |
| HostSafety.VerdictTrustworthyIffSettled | apps/palmagentd/src/hosts.rs:48-77 | of the records that can be read, a not-alive verdict is right in all runs if and only if the record is no claimed reservation without a recorded reason |
| HostSafety.UnsettledVerdictRaces | apps/palmagentd/src/hosts.rs:48-55 | from any state with a guardian about to spawn, a run that gives a not-alive verdict over a living child |
| HostOutcomes.ExitCodeIsKept | apps/palmagentd/src/hosts.rs:410-412 | in any run: once a guardian has seen its child exit with a code, the record with which it finishes the host is the one it watched with that code; the reason is that of the stop evidence, else child_failed if and only if the code is not zero; and so it stays, compaction included |
| HostOutcomes.FailureIsKept | apps/palmagentd/src/hosts.rs:288-292 | a guardian that failed and finishes the host says code -1 and host_start_failed, unless the stop evidence gives the reason |
| HostOutcomes.OthersSayWhy | apps/palmagentd/src/maintenance.rs:301-310 | a host that its guardian does not finish is finished by a launch that could not spawn one, or by maintenance that found it dead, each with code -1 and its own reason |
| HostOutcomes.CodesAreSeen | apps/palmagentd/src/hosts.rs:410-412 | over all runs: no record says a code other than -1, success included, that no guardian saw its child exit with |
| HostOutcomes.OutcomesAreTold | apps/palmagentd/src/hosts.rs:304-317 | every finished record of a reachable host has a time, a code and, unless the code is 0, a reason that fits it; an unfinished one has none of these but a lost guardian |
| HostOutcomes.OutcomeIsFinal | apps/palmagentd/src/maintenance.rs:312-324 | no step that follows changes code, reason, times or state of a finished record; what else goes, goes by compaction |
| HostOutcomes.LossIsReal | apps/palmagentd/src/maintenance.rs:273-310 | a record that says that its guardian is lost is right, then and later |
| HostOutcomes.ClaimIsRecorded | apps/palmagentd/src/hosts.rs:274-285 | a claim adds the guardian to the reservation and changes nothing else of it |
| HostOutcomes.SpawnIsRecorded | apps/palmagentd/src/hosts.rs:389-393 | in any run: the child that a guardian records is the one it spawned, as far as it could be identified, in the record it claimed |
| HostOutcomes.ReadinessIsRecorded | apps/palmagentd/src/hosts.rs:404-409 | a watching guardian records readiness once, from evidence that names its child |
| HostProgress.OrphanCanBeFinished | apps/palmagentd/src/maintenance.rs:273-311 | from every reachable state in which a contained host has lost its guardian and its processes, a maintenance pass finishes it |
| HostProgress.FinishedCanBeCompacted | apps/palmagentd/src/maintenance.rs:312-324 | and one compacts it once it is finished and has expired |
| HostProgress.ExitCanBeFinished | apps/palmagentd/src/hosts.rs:288-318 | from every reachable state in which a guardian watches, it can bring the exit it sees to the record |
| HostReports.AliveIsRight | apps/palmagentd/src/hosts.rs:43-51 | over all runs, a report made at one moment calls a contained host alive if and only if a process or its guardian lives or a reservation may yet be claimed, lost if and only if guardian and processes are gone before it finished, exited if and only if it finished and its guardian is gone |
| HostReports.PhaseIsRight | apps/palmagentd/src/hosts.rs:52-83 | and gives each phase, supervision and readiness exactly where guardian, stop evidence, readiness and child are as the phase says; an exit code exactly for a finished host |
| ServiceIdentity.SystemStepKeepsInv | apps/palmagentd/src/daemon.rs:155-184 | selecting, storing, launching, crashing and every step of any host keep the invariant of a replaceable service |
| ServiceIdentity.OnlySelectedIdentityLives | apps/palmagentd/src/daemon.rs:99-123 | over all runs, crashes and replacements, only the stored identity has living processes, as long as every not-alive verdict acted on was about a settled record |
| ServiceSplit.SplitsIffUnsettled | apps/palmagentd/src/daemon.rs:155-166 | of the records the supervisor's inspection can read, acting on a not-alive verdict can leave children of two identities living if and only if the record is claimed and unsettled |
| ServiceSplit.SettledNeverSplits | apps/palmagentd/src/daemon.rs:99-113 | no run that acts on a not-alive verdict about any other record, and on no later one, ends with two identities living |
| ServiceSplit.UnsettledVerdictSplitsService | apps/palmagentd/src/daemon.rs:155-166 | for every claimed, unsettled reservation, whatever its guardian, time and environment, a run of the whole system that splits the service |
| Supervisor.Supervisor.Serve | apps/palmagentd/src/daemon.rs:444-618 | over any number of ticks, as long as the not-alive verdicts acted on are right, every living application host is the selected one and runs the configured release; a pending operation and an exit are never both set, no connection's request is begun twice and none stays unanswered but that of the pending operation; an exit once asked for stays, and the loop leaves with it if and only if the asking connection is gone, to stop only with the application disabled and gone, to be replaced only where every living host is the selected one and runs the release of the successor |
| Supervisor.ServeGenerations | apps/palmagentd/src/daemon.rs:605-614 | one supervisor replacing the other any number of times: what each leaves alive is what the next may start with, so that all of that holds over all of them |
| Supervisor.Supervisor.Tick | apps/palmagentd/src/daemon.rs:445-616 | one turn keeps all of that, only adds to the begun requests, keeps a waiting operation pending for its connection, and leaves with an exit exactly when it is due |
| Supervisor.Supervisor.PollPending | apps/palmagentd/src/daemon.rs:462-483 | a waiting operation stays pending for its connection; an ended one answers that connection and is no longer pending, and its exit is then asked for exactly if it came to one: after a stop whose host was inspected dead with nothing left to stop; the release changes only where no application is alive and recovery is disabled |
| Supervisor.Supervisor.PollOperation | apps/palmagentd/src/daemon.rs:215-272 | an exit arises if and only if the host waited out was inspected dead, for a shutdown or a replacement, and nothing is left to stop; it is then to the release asked for, with no application alive and none enabled; a stop that goes on waits for the application next, or has switched to the candidate |
| Supervisor.Supervisor.BeginRequests | apps/palmagentd/src/daemon.rs:484-528 | a pending operation or exit is never overwritten, web bootstrap included, during a hand-over no application starts and none is enabled, and no request is left waiting but for a pending operation or an exit, and no read-only one at all |
| Supervisor.Supervisor.Begin | apps/palmagentd/src/daemon.rs:296-409 | each request begins what it is for; read-only requests change nothing, starting the application never waits, enables it and never changes the configuration, only Replace and Stop ask for an exit; where that is immediate the application is disabled and gone, or the successor runs the same release |
| Supervisor.Supervisor.ActivateCandidate | apps/palmagentd/src/daemon.rs:139-153 | the configuration becomes the candidate's, or the application is waited out for it first, or it stays after an error; its release changes only with no application alive and none enabled |
| Supervisor.Supervisor.Recover | apps/palmagentd/src/daemon.rs:535-599 | recovery starts no application during a hand-over, before an exit, or for a release that is not enabled |
| Supervisor.Supervisor.StartApplicationHost | apps/palmagentd/src/daemon.rs:99-123 | a new identity is chosen only with no application alive, whether or not storing it fails with effect; a host starts only under it and runs the configured release |
| Supervisor.Supervisor.TakeRequest | apps/palmagentd/src/control.rs:48-53 | a request is taken out of its connection once and for all |
| Supervisor.Supervisor.PollConnections | apps/palmagentd/src/control.rs:75-145 | whatever a connection's own input and output do, none gets a second request to begin |
| Recovery.Recovery.Advance | apps/palmagentd/src/recovery.rs:63-111 | the fields after a tick and the action are those of the policy function that all rows on RestartPacing are about |
| RestartPacing.StartsAreApart | apps/palmagentd/src/recovery.rs:105-109 | whatever follows a start, with lost writes and restarts, nothing starts for two seconds |
| RestartPacing.DownServiceIsStarted | apps/palmagentd/src/recovery.rs:105-109 | in any run: a service that is down is started within 60 s of the first tick that finds it so, as long as ticks go on and their writes succeed |
| RestartPacing.StopsHungStarts | apps/palmagentd/src/recovery.rs:81-88 | in any run, with lost writes and restarts: a tick asks for an unready stop if and only if it sees the identity alive, starting, with readiness pending, created at a time above 0 and 60 s ago or more, and its write succeeds where it makes one |
| RestartPacing.HungStartIsStopped | apps/palmagentd/src/recovery.rs:81-88 | so a service that stays in its start is asked to stop at every tick from then on but those whose write fails, and until a restart only the first of them makes one |
| RestartPacing.DelayTable | apps/palmagentd/src/recovery.rs:95 | the delays are 2, 4, 8, 16, 32 and then always 60 s |
| RestartPacing.DeathIsNoted | apps/palmagentd/src/recovery.rs:92-104 | in any run: a tick counts one failure, and notes when and why, if and only if it finds an identity dead that the state does not know as failed; it starts nothing |
| RestartPacing.FailuresBackOff | apps/palmagentd/src/recovery.rs:92-104 | in any run with lost writes and restarts: after the k-th unforgiven failure nothing starts for min(1000 * 2^min(k, 6), 60000) ms, if and only if the count was written or the file holds off as long |
| RestartPacing.DeathCountedOnce | apps/palmagentd/src/recovery.rs:92-94 | in any run: a counted death is counted again only after another identity's, if and only if the count was written or the file names the identity already |
| RestartPacing.ForgivenOnlyAfterStability | apps/palmagentd/src/recovery.rs:68-80 | in any run: the count returns to zero only after 30 s in which every tick saw the same identity guarded and ready or running, if and only if neither state nor file claims more stability than was seen |
| RestartPacing.HonestFromStart | apps/palmagentd/src/recovery.rs:53-60 | a run in which no lost write leaves such a claim behind forgives only what was earned |
| RestartPacing.LostBreakIsDishonest | apps/palmagentd/src/recovery.rs:54-60 | whatever the run: losing the write of a tick that saw the identity down, over a file with failures and a stable stretch, lets a continuation forgive what was not earned |
| RestartPacing.ForgivenTooEarly | apps/palmagentd/src/recovery.rs:54-60 | a run with one lost write and a restart that forgives 29 s after a tick saw the identity down |
| RestartPacing.StabilityForgives | apps/palmagentd/src/recovery.rs:73-77 | in any run: 30 s of healthy ticks always clear the count and the wait, if and only if the file remembers the stretch or has nothing to forgive |
| Compaction.HostDirectory.Compact | apps/palmagentd/src/maintenance.rs:312-334 | the pass, cut off after any number of its effects, leaves the files as the specification says |
| Compaction.OnlyExpiredChanges | apps/palmagentd/src/maintenance.rs:312-315 | a pass changes something only seven days after the end of a host of which nothing lives |
| Compaction.CompactionIsInvisible | apps/palmagentd/src/maintenance.rs:315-333 | at every point of a pass the reported state, liveness, supervision, phase, readiness, ready time and exit code are what they were, and the record has not aged anew |
| Compaction.PassesConverge | apps/palmagentd/src/maintenance.rs:315-333 | any sequence of passes, each cut off anywhere, shows nothing and leads to no other record than one compact form |
| Compaction.CompletePass | apps/palmagentd/src/maintenance.rs:325-332 | a complete pass then reaches that form without sidecars, and no later pass changes anything |
| CompactedRecords.LeftIsSealed | apps/palmagentd/src/maintenance.rs:272-334 | a compact record that any run of the ownership protocol leaves is exited, finished and without environment, guardian, child or group, which is what the rows before rely on |
| CompactedRecords.LeftConverges | apps/palmagentd/src/maintenance.rs:315-333 | so whatever record any run leaves, with whatever sidecars, passes cut off anywhere show nothing and lead to the one form |
| CompactedRecords.ProtocolCompacts | apps/palmagentd/src/maintenance.rs:315-324 | the record that a compaction step of the protocol writes is that of the first effect of a pass |
| LogRetention.Plan | apps/palmagentd/src/maintenance.rs:147-156 | the loop computes the plan that the next rows are about |
| LogRetention.PlanIsShortest | apps/palmagentd/src/maintenance.rs:147-156 | with one clock reading: a prefix in the order of finishing that holds every expired log and fits the budget or takes all, and no shorter prefix does |
| LogRetention.PlanIsPrefixIffInOrder | apps/palmagentd/src/maintenance.rs:147-156 | with any readings: the plan is the fewest oldest logs that meet the budget and the expired among the later ones; it spares no log for a younger one if and only if none of the later ones is seen expired after one that is not |
| LogRetention.MovingClockSkips | apps/palmagentd/src/maintenance.rs:149-152 | an instance with two readings, where the older log is spared |
| HostListing.List | apps/palmagentd/src/maintenance.rs:67-87 | a page is the first 32 keys beyond the cursor, with a next cursor if and only if there are more, and a malformed cursor is refused |
| HostListing.CollectedAscends | apps/palmagentd/src/maintenance.rs:75-82 | following cursors through an inventory that changes meanwhile gives keys in strict order, none twice |
| HostListing.CollectedIsComplete | apps/palmagentd/src/maintenance.rs:75-82 | and every key that was present throughout |
| HostListing.CollectedIsPresent | apps/palmagentd/src/maintenance.rs:77-86 | and no key that was absent throughout |
| HostListing.PagesAreInventory | apps/palmagentd/src/maintenance.rs:75-82 | the pages of an inventory that does not change make up exactly that inventory |
| TranscriptLoop.PresentTranscript | packages/shared/src/conversation.ts:83-194 | the loops over the log and its turns compute the transcript that all the rows on it below are about |
| TranscriptLoop.FlushTurn | packages/shared/src/conversation.ts:89-172 | the passes over one turn compute its specified rows, with live and preview, and its failures |
| TranscriptLoop.LayOut | packages/shared/src/conversation.ts:105-144 | the placing loop computes the specified draft, and where the progress preview goes |
| TranscriptLoop.MergeIdle | packages/shared/src/conversation.ts:145-164 | merging groups without work and lowering keys in place computes the settled groups |
| TranscriptLive.FlagsAreRight | packages/shared/src/conversation.ts:165-170 | for any log: an Activity is live if and only if the log is, its items are of the unfinished turn and no later row is an Activity; it previews a text if and only if the log is live and it shows the last text of the unfinished turn that is classified as progress, and then that text |
| TranscriptLive.OneIsLive | packages/shared/src/conversation.ts:167-170 | at most one Activity is live, and none of a log that is not |
| HistoryStream.StreamIsDivided | packages/shared/src/conversation.ts:19-31 | the items of a log divide the stream of events it was made of, in order: each is one event that is no prose, or all prose of one message that came without a break, joined |
| TranscriptStability.PrefixStability | packages/shared/src/conversation.ts:83-194 | for any log and continuation the rows of the log, by kind and key, are a subsequence of the rows of both |
| TranscriptStability.OneMoreItem | packages/shared/src/conversation.ts:79-82 | one more item of a turn hides no row of it and changes no kind or key |
| TranscriptStreaming.StreamingStability | packages/shared/src/conversation.ts:24-37 | appending an event, streamed text included, keeps every row with its kind and key |
| TranscriptMerge.SettledKey | packages/shared/src/conversation.ts:151-164 | a shown group's key is that of the first group whose items end up in it |
| TranscriptMerge.MergedMembers | packages/shared/src/conversation.ts:151-155 | what a shown group holds after merging: its own items and those of the groups that have it as their target |
| TranscriptMerge.IdleJoinsNearestWork | packages/shared/src/conversation.ts:151-158 | the items of a group without work are shown by the next work after it, or by the last, and by no other |
| TranscriptDrafts.PhaseStable | packages/shared/src/conversation.ts:93-100 | a later item never changes how an earlier text was classified |
| TranscriptDrafts.DraftOrdered | packages/shared/src/conversation.ts:105-144 | work groups follow each other in the log without overlap |
| TranscriptConservation.Conservation | packages/shared/src/conversation.ts:79-82 | as collections, the log is what the rows on show hold, a failure row its failure's items, and what is dropped on purpose |
| TranscriptConservation.DroppedOnPurpose | packages/shared/src/conversation.ts:121-127 | only compaction markers, late markers with no earlier Activity in their turn, and unfailed status or result items of turns without work are dropped |
| TranscriptConservation.ShownAtMostOnce | packages/shared/src/conversation.ts:83-194 | each item of the log is once in one row on show or once among the dropped |
| TranscriptConservation.TurnConserves | packages/shared/src/conversation.ts:89-172 | the same account for one turn, whatever failure it begins with; each failure that begins in it has a row of it, in order |
| TranscriptConservation.KeptIffWork | packages/shared/src/conversation.ts:145-150 | a turn shows an Activity if and only if some item of it is work |
| TranscriptConservation.MergeItems | packages/shared/src/conversation.ts:151-155 | merging loses no item of a group without work |
| TranscriptKeys.RowKeysAscend | packages/shared/src/conversation.ts:159-164 | keys of messages, of Activities and of failures strictly ascend among themselves, so that each is unique |
| TranscriptKeys.ActivityItemsAscend | packages/shared/src/conversation.ts:154 | the items of every Activity are items of the log in strictly ascending key order |
| TranscriptFailures.FailuresAreKept | packages/shared/src/conversation.ts:107-117 | the failures on show, one row for each, hold exactly the failed items of the log that are no tool items and were collected into a turn |
| TranscriptFailureRows.FailuresAreShown | packages/shared/src/conversation.ts:107-117 | the failure rows of a transcript are one for each failure, in order, with its key |
| TranscriptRuns.RunsShareFailures | packages/shared/src/conversation.ts:173-182 | of two such items the later is in the failure of the earlier if and only if no request and no provider turn begins after the one and up to the other |
| TranscriptRuns.FailureOf | packages/shared/src/conversation.ts:107-118 | each such item is in a failure, whose key is that of its first item, whose items are in order, which is historical if and only if a run begins after the item, and completed if and only if a result came since its last item |
| TranscriptAnswers.ReportsAreShown | packages/shared/src/conversation.ts:142-146 | the text of an unfailed result is shown by a row of its turn, as its answer or as prose that says the same |
| TranscriptAnswers.AnswersOnce | packages/shared/src/conversation.ts:104-146 | answers are made from results of the turn, say different things, and nothing that its prose says |
| TranscriptEchoes.NoEcho | packages/shared/src/conversation.ts:104-146 | no answer says what a message of its turn says |
| TranscriptWork.WorkIsShown | packages/shared/src/conversation.ts:145-150 | whatever is work in its turn is in a visible Activity |
| TranscriptWork.ToolsAreWork | packages/shared/src/conversation.ts:146-148 | tool calls, tool results and unfailed trace images are work in whatever turn they fall |
| ConversationTrace.TraceOperations | packages/shared/src/conversation-trace.ts:38-88 | the loops over the log and over active operations compute the operations that all the rows on them below are about |
| ConversationTrace.AttachTraceOperations | packages/shared/src/conversation-trace.ts:91-101 | each row gets, in order, the operations whose first visible member it shows |
| TraceConservation.OperationsPartition | packages/shared/src/conversation-trace.ts:46-85 | the members of all operations together are the traced items of the log, each once |
| TraceConservation.WorkIsTraced | packages/shared/src/conversation-trace.ts:91-107 | every tool call, tool result, unfailed trace image and progress text is a member, once, of one operation attached to one surviving Activity; Activities survive exactly with operations |
| TraceConservation.TracedAtMostOnce | packages/shared/src/conversation-trace.ts:91-107 | nothing is twice among the operations on show |
| TraceConservation.RunningIsLive | packages/shared/src/conversation-trace.ts:42-49 | only a live log has a running operation, begun after everything that ends a run |
| TraceStates.RunningIff | packages/shared/src/conversation-trace.ts:42-67 | an operation of a live log is running if and only if no run has ended or begun since its last call or result, and that leaves it running |
| TraceHalts.OperationState | packages/shared/src/conversation-trace.ts:42-67 | the state of any operation with a call or result, by its latest one: left running, it is made interrupted by a first end that is an error, exit, stop or failed result, unknown by an unfailed result or the beginning of another run, and without one is running in a live log and unknown in another; otherwise it is what the last item that settled it gave it |
| TraceHalts.HasLatest | packages/shared/src/conversation-trace.ts:50-67 | every operation with a call or result has a latest one |
| TraceKinds.OperationKind | packages/shared/src/conversation-trace.ts:50-84 | every other operation is one item, with the kind and state that this gives it; one with calls or results is a tool step if and only if it has a call |
| TraceKinds.OperationsAscend | packages/shared/src/conversation-trace.ts:46-73 | operations come in the order of the log, and so do the members of each |
| TraceCorrelation.CallsCorrelate | packages/shared/src/conversation-trace.ts:50-60 | two tool items are in one operation if and only if they name the same call of the same task, agent and session and no run ends or begins between them |
| TraceImages.ImagesCorrelate | packages/shared/src/conversation-trace.ts:68-73 | an image is in the operation of an earlier tool item if and only if it names that call and no run ends or begins between them |
| TraceImages.PartsCorrelate | packages/shared/src/conversation-trace.ts:50-73 | any two tool items or images are in one operation if and only if some tool item no later than either has a call that both are part of |
| ProjectionStability.ProseStays | packages/shared/src/conversation-trace.ts:103-107 | later events hide no message and no failure from the projected conversation |
| ProjectionAnchors.WorkKeepsItsActivity | packages/shared/src/conversation.ts:159-164 | an Activity keeps its key and its work items for as long as the log goes on |
| TraceBeginnings.FirstOfCall | packages/shared/src/conversation-trace.ts:50-60 | a tool item begins an operation if and only if no earlier one is part of the same call |
| TranscriptGaps.DraftGaps | packages/shared/src/conversation.ts:105-144 | a message lies between any two groups of work of a turn, and none within a group, late markers aside |
| ProjectionAnchors.HoldsForever | packages/shared/src/conversation.ts:151-164 | what is placed in an Activity or before it stays in it, under its key, through every continuation |
| ProjectionLoss.ActivityStaysIffRooted | packages/shared/src/conversation-trace.ts:90-107 | an Activity of the projected conversation stays in it through every continuation if and only if its turn has ended or it shows the first member of an operation before the message that follows its work |
| ProjectionLoss.UnrootedGoes | packages/shared/src/conversation-trace.ts:98-106 | any later tool call or result takes away an Activity for which this fails |
| ProjectionLoss.WorkedActivityStays | packages/shared/src/conversation-trace.ts:90-107 | in particular one that shows the first member of an operation of work stays |
| ProjectionLoss.LaterWorkTakesActivity | packages/shared/src/conversation-trace.ts:98-106 | an instance: a log whose Activity goes with whatever tool item comes next |
| MermaidCache.Cache.Get | apps/web/src/mermaid-cache.ts:24-29 | a hit counts as a use, makes its entry the most recently used and changes nothing else |
| MermaidCache.Cache.Render | apps/web/src/mermaid-cache.ts:41-71 | a request ends as nothing, a hit, one more consumer of the pending job of its key, or a new job, never as a second job for a pending key |
| MermaidCache.Cache.Begin | apps/web/src/mermaid-cache.ts:53-56 | a job that is cancelled when its turn comes ends without rendering; one job at most is ever rendering |
| MermaidCache.Cache.Complete | apps/web/src/mermaid-cache.ts:56-66 | a result enters the cache, as a use, only if it is complete, fits and was begun in the present generation; what is evicted was used before all that is kept; counting and both limits hold after it; its job is settled and all others stay as they were |
| MermaidCache.Cache.Remember | apps/web/src/mermaid-cache.ts:30-38 | bytes stay the sum of the sizes because the key was not cached, and the entries used longest ago go, as few as possible |
| MermaidCache.Cache.Evict | apps/web/src/mermaid-cache.ts:34-37 | eviction never runs on an empty map and ends with the shortest drop that fits |
| MermaidCache.Cache.Clear | apps/web/src/mermaid-cache.ts:72 | every unfinished job is cancelled and nothing of before is left |
| MermaidCache.NewestStays | apps/web/src/mermaid-cache.ts:30-38 | a result that fits by itself is never evicted on its own account |
| MermaidCache.SettledPending | apps/web/src/mermaid-cache.ts:65 | pending stays exactly the unsettled jobs of the present generation |
| VoiceBuffer.Buffer.Push | apps/web/public/voice-buffer-worklet.js:27-33 | appends to the held queue, or refuses if and only if it is full |
| VoiceBuffer.Buffer.Pop | apps/web/public/voice-buffer-worklet.js:35-40 | removes the oldest held sample |
| VoiceBuffer.Buffer.Process | apps/web/public/voice-buffer-worklet.js:42-87 | without overflow or cancel what went out followed by what is held is what came in; nothing overflows after the start; drained is posted once, when everything that came has gone |
| VoiceBuffer.Buffer.OnMessage | apps/web/public/voice-buffer-worklet.js:15-24 | start and finish keep the queue; cancel empties it |
| VoiceBuffer.Pushed | apps/web/public/voice-buffer-worklet.js:27-33 | writing at the ring's write position is appending to the queue |
| VoiceBuffer.Popped | apps/web/public/voice-buffer-worklet.js:35-40 | advancing the ring's read position is taking the queue's first |
| VoiceBuffer.MixedWithin | apps/web/public/voice-buffer-worklet.js:51-53 | mixing is averaging: it leaves a single channel as it is and exceeds none |
| OptimisticPreference.Preference.Set | apps/web/src/optimistic-preference.ts:55-63 | the selection shows at once, starts the pause anew, and takes the token once per pending period |
| OptimisticPreference.Preference.TimerFires | apps/web/src/optimistic-preference.ts:25-31 | at most one save is in flight: a timer that fires during one starts none |
| OptimisticPreference.Preference.Saved | apps/web/src/optimistic-preference.ts:31-32 | an obsolete success leaves a newer selection, up to what the store calls equal, which then waits for its pause or is saved at once |
| OptimisticPreference.Preference.SaveFails | apps/web/src/optimistic-preference.ts:33-40 | a failure is reported and taken back if and only if nothing newer is selected |
| OptimisticPreference.Preference.Recovered | apps/web/src/optimistic-preference.ts:40-50 | a recovery replaces only the selection that failed; a newer one waits for its pause or is saved at once |
| OptimisticPreference.Preference.RecoverFails | apps/web/src/optimistic-preference.ts:41-50 | only then is a newer selection given up: the store is stale, nothing pending, and the confirmed value shown |
| OptimisticPreference.Preference.Observe | apps/web/src/optimistic-preference.ts:64-69 | the server's value counts only while nothing is pending |
| OptimisticPreference.Preference.Dispose | apps/web/src/optimistic-preference.ts:70-74 | the token is given back and nobody is told anything any more |
| ConversationHistory.MergeConversationChanges | apps/web/src/conversation-history.ts:19-42 | the loops over patches and pages compute the specified merge |
| ConversationHistory.MergeRefinesMap | apps/web/src/conversation-history.ts:25-37 | merging and then flattening is folding the patches into the flat map; keys stay unique, pages sorted, items those of the transcript |
| ConversationHistory.PatchedIsFlat | apps/web/src/conversation-history.ts:26-32 | one patch does to the pages what it does to the flat map |
| ConversationHistory.PatchStaysInPage | apps/web/src/conversation-history.ts:26-33 | a patch changes a record in the page that owns it and moves none to another; what is new goes to the last page unless it is older than what is loaded |
| ConversationHistory.MergeStaysInPage | apps/web/src/conversation-history.ts:17-37 | a merge leaves a record that nothing deletes in the page that owns it |
| ConversationHistory.MergedLast | apps/web/src/conversation-history.ts:38-40 | only the last page gets the cursor, which never goes back, and the activity where there is one |
| ConversationHistory.RetainedFollowsPatches | apps/web/src/conversation-history.ts:8-15 | reading the store after a merge gives the patched map of what it gave before |
| ConversationHistory.RevisionsNeverDecrease | apps/web/src/conversation-history.ts:26-32 | between any two moments at which a key is held its record gets no older, if and only if no patch brings it back older than what was last held |
| ConversationHistory.DeletionsDecide | apps/web/src/conversation-history.ts:28-30 | for that it is enough that no deletion is followed by an older record of its key; other patches may come in any order |
| ConversationHistory.ReorderedPatchesRevert | apps/web/src/conversation-history.ts:29-30 | an instance in which a deleted record comes back older |
| ConversationHistory.RetainedConversation | apps/web/src/conversation-history.ts:8-15 | the records sorted by key: per key the newest and of equally new ones the last, or nothing where no page has a transcript |
| ConversationHistory.FloorIsLeast | apps/web/src/conversation-history.ts:22-23 | the floor is the least key held |
| TaskHistory.PruneInactiveHistory | apps/web/src/task-history-query.ts:63-126 | every inactive entry is either retained or removed, once, and the retained tasks are the specified ones |
| TaskHistory.EveryEntryIsCounted | apps/web/src/task-history-query.ts:78-107 | an inactive entry is counted in its task with the newest of its pages, unless its last page alone is over the budget |
| TaskHistory.LastUseIsLatest | apps/web/src/task-history-query.ts:101-106 | a task was used when the last of its entries was |
| TaskHistory.EvictsLeastRecent | apps/web/src/task-history-query.ts:117-125 | at most five tasks within the budget remain, the fewest were taken, and each was used no later than any that remains |
| TaskHistory.SurvivorsKeepNewestPages | apps/web/src/task-history-query.ts:78-92 | a surviving entry keeps a suffix of its pages, at least one of them if any was dropped, with its parameters in lockstep, and its task is counted and within the budget |
| TaskHistory.TrimmedIsSuffix | apps/web/src/task-history-query.ts:82-88 | trimming drops the oldest pages, and none while what is left still fits |
| TaskHistory.VariantsGoLeastRecent | apps/web/src/task-history-query.ts:108-116 | of the variants of a task the fewest go that leave the rest within the allowance, each used no later than all that stay |
| TaskHistory.EvictTasks | apps/web/src/task-history-query.ts:117-125 | the loop never shifts from an empty list and removes exactly the entries of the tasks it takes |
| TaskHistory.PruneInactiveActivityDetails | apps/web/src/task-history-query.ts:128-146 | the fewest details go that leave three at most within their budget, each used no later than all that stay |

## Left out

- Real input and output: sockets, `/proc`, pidfds, cgroup files, fsync and serialization are atomic steps with stated assumptions.
- Process-group isolation: its branches are modelled, but not the claim that Exited means empty, which does not hold there.
- Reads that fail in a launch or an inspection are modelled as the actor vanishing, which releases the same lock.
- A stop request is not an actor of its own: it only makes processes end, which they may do at any moment.
- The 5 s wait of a guardian for the lock and its readiness poll are steps that may happen at any time.
- Saturation of 64-bit times is not modelled: times are unbounded.
- Supervisor.Supervisor.PollConnections: connections are values with a phase; byte framing, frame limits and deadlines are whatever the peer makes of them.
- Supervisor.Supervisor.Serve: what it says of living hosts holds as long as every not-alive verdict acted on was right, which `trusted` records; `HostSafety` and `ServiceSplit` say exactly which verdicts can be wrong.
- Supervisor.Supervisor.Begin: the replies' contents, telemetry and which hosts keep a stop from being admitted are left open.
- The sweep over directories, revalidation before a log is deleted, and inventory values: paging and planning take what the sweep found.
- HostListing.List: the status that goes with a page is left out.
- Verbose rows, labels, titles and descriptions of rows and operations: presentation only.
- Injected environment updates, deferred details and the byte limits of conversation pages are filtered before the model begins.
- Trimming of text knows blanks, tabs and line ends only, not every Unicode space.
- ConversationTrace.TraceOperations: operations are numbered in place of shared references; a later completed item may overwrite an error, so that errors are not claimed to be final.
- MermaidCache: the renderer itself, key serialization and event listeners; keys are the serialized strings.
- VoiceBuffer.Buffer.Process: samples are reals, so that rounding in the mix is not modelled.
- OptimisticPreference: callbacks do not call back into the store within a turn.
- TaskHistory.PruneInactiveHistory: which queries are inactive and when they were last used are inputs, data whose size cannot be measured is left out, and removal from the query cache is the list of removed hashes.
- React components, the service worker, WebAuthn, schemas, telemetry transport, the command line and package scripts: no state machines of their own, or foreign ones.
