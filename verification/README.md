# Cairnline coordination model

A model of Cairnline's coordination store and of the decisions built on it, with proofs.

**The state machine.** `StoreModel` holds the whole store as one value: projects, roles, work
items, assignments, artifacts, evidence, reviews, handoffs, memory and command receipts. Every live
operation is a step on it with its own clock reading, which may move backwards. An operation
holds the store's lock for its whole body, so concurrent use is some sequence of such steps; a
*run* is any such sequence from the empty store. `AssignmentRules` and `HandoffRules` say what a
transition does to one assignment or handoff. `TransitionEffects`, `Acceptance` and `RecordRules`
say it again of the stored fields alone: when each operation succeeds, what it writes, and what it
leaves.

**The two stores.** `MemoryStore` is a class over maps whose methods are proved to take exactly
the model's steps. `SqliteStore`, `SqliteHandoffs` and `SqliteRecords` are classes over rows with
text columns and explicit transactions (begin, read, check, guarded update, commit or roll back),
proved to take the SQLite steps on the decoded tables; `Runs`, `HandoffDialect` and `SqliteRuns` say
exactly when those are the in-memory steps, and that ordinary runs go through the same states on
both stores.

**What is proved over runs.** Claim-state validity, fence safety, bounded lease recovery, rising
revisions, the lifecycle of an assignment, that each part of it shows what was last written,
lost-update freedom of handoffs, exactly-once follow-ups, referential integrity, and agreement of
the two stores.

**Around it.** Snapshot export and import (`SnapshotModel` to `SnapshotInvariants`), the closeout
decision (`Closeout`), the activity view against the operations brief and both against the store
(`Projections`, `OperationsOrder`), the assistant's proposals and apply ledger amid other callers
(`Assistant`, `AssistantActions`, `AssistantLedger`, `LedgerRuns`), lease lifetimes in 64-bit
arithmetic (`LeaseTtl`) and resource URIs (`ResourceUri`).

## Conventions

- A timestamp is a whole number of nanoseconds from Go's zero time; earlier instants are negative.
- `encodeTime` (the date-time format of section 5.6 of RFC 3339), the JSON columns and the request
  hash are taken to be injective. Id generators are parameters; where a property needs them never
  to repeat, it says so.
- Texts that the rules only compare and trim are the datatype `Text`; a status is one of its eight
  names, a padded name, or some other text.
- Skill, memory and candidate records carry only what import looks at: key, creation time, prose.

## What the code does that one might not expect

Each is a lemma about a concrete run or input; the exact condition is named where there is one.

- A renewal whose new expiry is exactly the zero time erases the expiry and leaves a malformed
  claim; it takes a clock before the zero time (`RenewalErasesInARun`; `NextKeepsClaimState`).
- Recover and fenced release stamp after clearing the start time in memory and before clearing it
  in SQLite, so the new revisions can differ (`RequeueStampsCanDiffer`; `DialectsAgreeExactlyWhen`).
- SQLite lets a queued update set a blank role; the in-memory store wants the role to exist
  (`BlankRoleIsWavedThrough`; `TransitsAgreeExactlyWhen`).
- SQLite reads the references of a queued update before its transaction, so a role deleted in
  between is not noticed (`RoleCanVanish`; `QueuedDiffersExactlyWhen`).
- In-memory restoring of an assignment insists on the role that creation lets be blank, so a
  snapshot with a roleless assignment imports once but not twice (`RolelessImportsOnce`;
  `ImportTwice`).
- Deleting an assignment keeps its evidence; that evidence then cannot be imported
  (`DanglingEvidenceIsNotRestored`). Import of an export succeeds exactly when all references
  resolve (`RoundTrip`).
- Deleting a project drops its receipts, so an idempotency key can be used again afterwards and
  then queues a second assignment (`KeyCanBeUsedAgain`; `UsedKeyStaysUsed`).
- The status stamp of a handoff can stay although the status moves, when it was ahead of the
  revision (`StatusStampCanStay`), and move without the status, when it was unset
  (`UnsetStampMovesAlone`); `StatusStampMoves` is the exact condition.
- SQLite reads an unset handoff status time as the creation time (`HiddenStampReadsAsCreation`;
  `PatchesAgreeExactlyWhen`).
- SQLite replays an acceptance only under the requested work item and with a role and an assignment
  id, the in-memory store without looking at them (`ReplayCanBeMissed`;
  `AcceptancesAgreeExactlyWhen`).
- Ids and timestamps of a creation are the caller's. After a deletion the same id can come back with
  the same revision, and then an update or a token from before succeeds
  (`UpdateCanMissARecreation`; `QueuedUpdateMissesNothingExactlyWhen`, `UpdateFindsWhatItRead`;
  `TokenCanBeTakenTwice`; `TakenAgainOnlyIfReborn`).
- A host can complete queued work before the zero time with the zero time for a stamp, which reads as
  unset (`CompletionCanStampUnset`; `NextKeepsLifecycle`, `LifecycleInEveryRun`).
- If the project of a proposal is deleted while the proposal is applied, what ran is not recorded
  (`OutcomeCanBeLost`; `OutcomeLostExactlyWhen`).
- An applied proposal can be applied again after its record was imported over, or its project
  deleted and the proposal made anew (`SucceedsAgainAfterImport`, `SucceedsAgainAfterDeletion`;
  `SucceedsAgainExactlyWhen`). An outcome is written over whatever was imported meanwhile.
- The activity view tests for an expired claim before trimming the status, the brief after
  (`PaddedClaimDiffers`; `SameVerdictExactlyWhen`).
- The rounding sum of the lease lifetime overflows for one duration and wraps back (`OneOverflow`).
- A stored proposal that fails validation when applied records no attempt, because an attempt
  without a proposal id is refused (`TokenlessRecordsNothing`; `WriteBackMeans`).

## Model

| member | source | states |
|---|---|---|
| AssignmentRules.StampIsLeast | internal/sqlitestore/store.go:1504-1512 | the two stores' transition stamps are equal, and are the least instant that is not before the clock or the start time and is strictly after the current revision |
| Domain.WordMeaning | internal/core/assignment_claim.go:33-38 | a name passes the claim validator's two tests (not blank once trimmed, unchanged by trimming) exactly when it is a plain word |
| AssignmentProofs.ClaimStateMeaning | internal/core/assignment_claim.go:28-70 | the validator accepts exactly the unclaimed assignments and those whose named fence has an acquisition time and an expiry exactly while claimed, after the acquisition |
| AssignmentProofs.NextKeepsClaimState | internal/core/memory_store.go:464-939 | every successful transition keeps claim-state validity, including renew, prepare and host claim which never re-check it, if and only if it is not a renewal that lands on the zero time |
| AssignmentProofs.RenewCanEraseExpiry | internal/core/memory_store.go:599-626 | the excepted renewal exists: a concrete lease and clock before the zero time |
| AssignmentProofs.PostCheckNeverFires | internal/core/memory_store.go:708-787 | from a valid claim state the re-check after a status or completion step never fails; such a step fails only with a conflict |
| AssignmentProofs.LeaseRefusedExactlyWhen | internal/core/memory_store.go:567-596 | a leased claim of a queued assignment is refused exactly for untrimmed or blank names or when the clock or the expiry is the zero time |
| AssignmentProofs.NextKeepsStorable | internal/sqlitestore/store.go:2506-2545 | what the row columns can represent is kept by every transition at every clock reading |
| AssignmentProofs.DialectsAgreeExactlyWhen | internal/sqlitestore/store.go:993-1064 | the SQLite step equals the in-memory step exactly when recover and release see the same stamp, which their order of clearing and stamping decides |
| AssignmentProofs.DialectsDifferOnlyInRevision | internal/sqlitestore/store.go:888-1366 | both versions of a step succeed and fail together with the same error, and differ at most in the new revision |
| AssignmentProofs.StartCoveredKept | internal/sqlitestore/store.go:1504-1512 | a start time within the revision is kept by every step, and under it the two versions are equal |
| AssignmentProofs.NextRaisesRevision | internal/core/memory_store.go:535-546 | every successful transition but renew strictly raises the revision whatever the clock; renew changes nothing but the expiry and never lowers it |
| AssignmentProofs.NextKeepsIdentity | internal/core/memory_store.go:464-939 | no transition changes id, project or creation time, and only the queued update changes work item, role or root |
| AssignmentProofs.FenceStep | internal/core/memory_store.go:548-556 | a fenced step succeeds only under the current fence, and a fence becomes current only through the claim that carries it |
| AssignmentProofs.ActOrRecover | internal/core/memory_store.go:628-653 | at any reading exactly one of "the worker may act" and "recovery is allowed" holds for a validly leased claim |
| AssignmentProofs.ExpiredBlocksWorkers | internal/core/memory_store.go:548-653 | past the expiry only recovery or a host step succeeds, and only a host prepare leaves the claim in place |
| AssignmentProofs.NextKeepsLifecycle | internal/core/memory_store.go:708-939 | a step keeps the lifecycle shape of start and completion times if and only if it is not a host completion of queued work stamped on the zero time; a cancellation has no start time exactly when it came from queued |
| AssignmentProofs.PhaseNeverFalls | internal/core/memory_store.go:628-939 | terminal assignments admit no transition and started work never goes back |
| Runs.AssignmentEvolves | internal/core/memory_store.go:104-963 | whatever the operation, an assignment is left alone, created queued and unclaimed, moved by one transition, or removed |
| Runs.TransitEvolves | internal/core/memory_store.go:464-939 | a transition touches the named assignment alone and an accepted one is a step of it |
| Runs.AcceptEvolves | internal/core/memory_store.go:1276-1412 | accepting a handoff creates at most one assignment and changes none |
| Runs.ClaimsValidInEveryRun | internal/core/assignment_claim.go:28-70 | every stored assignment passes the validator in every state of every run whose renewals miss the zero time |
| Runs.StorableInEveryRun | internal/sqlitestore/store.go:2804-2809 | in every run and at any clock a queued assignment carries no claim, a claim has an id and a time, and each assignment is filed under its own key |
| Runs.PlainStatusInEveryRun | internal/core/service.go:3017-3024 | a stored status is always one of the eight names, without padding |
| Runs.RevisionsRise | internal/core/memory_store.go:464-787 | within one lifetime of an assignment, from creation to deletion, its revision never falls, and two states with one revision differ at most in the lease expiry |
| Runs.PresentExactlyWhen | internal/core/memory_store.go:104-963 | an assignment seen twice was there all along if and only if its id was not created anew in between |
| Runs.SightingsShareALifetime | internal/core/memory_store.go:464-787 | with assignment ids that never repeat, any two sightings of one id are of one lifetime, whatever the run, so the same holds between them |
| Runs.QueuedUpdateMissesNothingExactlyWhen | internal/core/memory_store.go:464-522 | a queued update that succeeds with the revision the caller read proves that nothing happened in between if and only if the id was not created anew in between; if it was, then with a revision not above the one read |
| Runs.QueuedUpdateMissesNothing | internal/core/memory_store.go:464-522 | with assignment ids that never repeat, a queued update that succeeds with the revision the caller read proves that the assignment was there, unchanged, in every state in between |
| Runs.UpdateFindsWhatItRead | internal/core/memory_store.go:506-522 | with repeating ids, an update that presents the content it read still finds that content: it can miss a re-creation with another creation time only |
| Runs.PhasesRise | internal/core/memory_store.go:628-939 | terminal states absorb, and work once running, awaiting approval or awaiting review is never queued or claimed again |
| Runs.TransitsAgreeExactlyWhen | internal/sqlitestore/store.go:888-1366 | on any store the two implementations of a transition agree exactly when a blank role is not waved through and the requeue stamps agree |
| Runs.StartsCoveredInEveryRun | internal/sqlitestore/store.go:1504-1512 | in every run without pre-zero start times the start time stays within the revision |
| Runs.DialectsAgreeInEveryRun | internal/sqlitestore/store.go:888-1366 | in every reachable state both stores take the same step with the same reply, for any transition with a named role and any clock |
| TransitionEffects.PartsWritten | internal/core/memory_store.go:464-939 | status, holder, fence, execution reference, context id and work each change only by the transitions that name them, and to what those present; a requeue empties all but the work, and a queued update stores exactly its replacement |
| TransitionEffects.PrepareRecords | internal/core/memory_store.go:655-679 | a prepare step records the reference and the context id it presents, keeps those it leaves empty, and changes nothing else but the revision |
| TransitionEffects.StartMoves | internal/core/memory_store.go:708-939 | the start time is set once, to the revision of the first report, kept ever after, and cleared by a requeue alone; a cancellation of queued work does not set it |
| TransitionEffects.CompletionMoves | internal/core/memory_store.go:745-787 | the completion time is set once, to the revision of the report of a final status |
| TransitionEffects.ExpiryMoves | internal/core/memory_store.go:567-626 | a claim sets the expiry, a renewal can only extend it, the first report retires it, and nothing else moves it |
| TransitionEffects.RevisionIsLeast | internal/core/memory_store.go:535-546 | the new revision is the least instant after the old one that is not before the clock or the start time |
| TransitionEffects.PartsAreTheAssignment | internal/core/types.go:428-457 | those parts and times, with identity and creation time, are the whole assignment |
| TransitionEffects.ArgumentsMean | internal/core/service.go:3017-3024 | exactly which statuses, lifetimes and fences the service lets through |
| TransitionEffects.StepsExactlyWhen | internal/core/memory_store.go:464-939 | from a valid assignment a transition succeeds exactly when status, holder, fence and lease allow it, each said of the stored fields; otherwise it conflicts, or is invalid for a claim that names nobody or has a zero time |
| TransitionEffects.TransitsExactlyWhen | internal/core/memory_store.go:464-939 | on the store it succeeds exactly when moreover the work it is moved to is found, and writes that row alone |
| TransitionEffects.TransitsNeedTheAssignment | internal/core/memory_store.go:464-492 | without the assignment it is not found and nothing changes, with bad arguments it is invalid |
| TransitionEffects.ShownUntilWritten | internal/core/memory_store.go:464-939 | over any run each part shows what it showed until some event writes it |
| TransitionEffects.ShownIsLastWritten | internal/core/memory_store.go:464-939 | and then what was last written: a recorded execution reference stays until a step presents another or the assignment is requeued |
| TransitionEffects.ShownHasAWriter | internal/core/memory_store.go:464-939 | whatever has changed was written by some event since, the last one that wrote it |
| TransitionEffects.StartStays | internal/core/memory_store.go:708-939 | once work was reported on its start time stays for the rest of its lifetime |
| FenceSafety.FenceBegins | internal/core/memory_store.go:567-596 | a claim id becomes current only by the leased claim that issues it, on the assignment that claim names |
| FenceSafety.FenceWasIssued | internal/core/memory_store.go:567-596 | every current fence was issued by an earlier claim of that assignment |
| FenceSafety.FenceTracesBack | internal/core/memory_store.go:548-787 | a fence that is current now has been current ever since its issue |
| FenceSafety.FenceIsOneStretch | internal/core/memory_store.go:548-787 | with never-repeating claim ids the states in which a fence is current are one contiguous stretch on one assignment |
| FenceSafety.RetiredFenceIsDead | internal/core/memory_store.go:599-787 | once released, recovered, replaced or deleted, a fence is refused by every renew, recover, prepare, release, status and completion call ever after, with nothing changed |
| FenceSafety.LeaseStep | internal/core/memory_store.go:599-626 | a grant sets the expiry to the reading plus the lifetime or keeps a later one; nothing else moves it |
| FenceSafety.ExpiryBounded | internal/core/memory_store.go:567-626 | on a clock that does not go back no lease outlives the latest reading by more than the lifetime |
| FenceSafety.RecoveryBounded | internal/core/memory_store.go:628-653 | recovery is enabled no later than the last successful claim or renewal plus the lifetime |
| HandoffRules.SameContentMeaning | internal/core/types.go:689-710 | the field-by-field comparison is equality of everything but the three stamps |
| HandoffRules.PatchIdempotent | internal/core/types.go:634-687 | applying a patch to its own result changes no content, however the stamps moved |
| HandoffRules.StatusStampMoves | internal/core/memory_store.go:1241-1252 | the status stamp moves exactly when the status does, for a set stamp within the revision; otherwise exactly under the stated condition |
| HandoffRuns.HandoffEvolves | internal/core/memory_store.go:1190-1412 | whatever the operation, a handoff is left alone, created, removed, or replaced by a patch or acceptance that presented its exact revision |
| HandoffRuns.HandoffRevisionsRise | internal/core/memory_store.go:1427-1441 | within one lifetime of a handoff its revision never falls and an equal revision means an identical handoff |
| HandoffRuns.HandoffSightingsShareALifetime | internal/core/memory_store.go:1427-1441 | with handoff ids that never repeat, any two sightings of one id are of one lifetime, so the same holds between them |
| HandoffRuns.ConsumingMatches | internal/core/memory_store.go:1224-1274 | a call changes or deletes a handoff only under the revision it then has |
| HandoffRuns.ConsumingRaises | internal/core/memory_store.go:1427-1441 | a call that changes a handoff leaves a revision strictly above the token it used |
| HandoffRuns.TakenAgainOnlyIfReborn | internal/core/memory_store.go:1224-1274 | a token is taken a second time only if the handoff was created anew in between, with a revision not above the token |
| HandoffRuns.OneWriterPerToken | internal/core/memory_store.go:1224-1274 | with handoff ids that never repeat, per handoff and token at most one content-changing patch, handoff-changing acceptance or deletion succeeds |
| HandoffRuns.ResendIsNoop | internal/core/memory_store.go:1224-1255 | sending a successful patch again under the token it returned succeeds and changes nothing |
| HandoffRules.PatchCanSayAnything | internal/core/types.go:634-687 | a patch that sets every field makes any handoff say exactly what another says |
| HandoffRules.PatchesCompose | internal/core/types.go:634-687 | two patches in a row do what the two as one do, the later one winning; with the law above this determines every patch |
| HandoffRules.RevisedStamps | internal/core/memory_store.go:1241-1252 | the revision of a changed handoff is the least it may be, its status time is that revision if the status moved and otherwise stays, or becomes the creation time if it was unset |
| FollowUps.FailureChangesNothing | internal/core/memory_store.go:1276-1412 | a failed acceptance leaves the store exactly as it was |
| FollowUps.ExecutionEffect | internal/core/memory_store.go:1276-1412 | a fresh acceptance files its receipt, stores the accepted handoff and adds at most the one assignment it was given an id for |
| FollowUps.SuccessIsIntact | internal/core/memory_store.go:1289-1305 | every success, fresh or replayed, returns an accepted handoff whose target assignment, target work item and role are those of the returned, stored assignment |
| FollowUps.ReplayEffect | internal/core/memory_store.go:1286-1306 | a call under a used key changes nothing: a different request conflicts, the same one conflicts or returns the receipt's assignment |
| FollowUps.LaterCallsReplay | internal/core/memory_store.go:1286-1306 | every later call under the key leaves the store unchanged and conflicts or returns the same assignment id |
| Acceptance.AcceptsExactlyWhen | internal/core/memory_store.go:1308-1384 | under a fresh key an acceptance succeeds exactly when the handoff is filed there under that revision, neither dismissed nor superseded, has a stored receiving role, and its target can be linked or a follow-up queued |
| Acceptance.OutcomeExactlyWhen | internal/core/memory_store.go:1327-1348 | without a target assignment a follow-up is created, with one it is linked, and already satisfied exactly when an accepted handoff names its work item too |
| Acceptance.FollowUpIsForTheRole | internal/core/memory_store.go:1349-1384 | the created follow-up is queued and unclaimed, in the mode of the role or pulled if it has none, for a human exactly when the mode is manual, with the skills of the role and the root of its work item, stamped with the first clock reading |
| Acceptance.AcceptedHandoffMeans | internal/core/memory_store.go:1390-1398 | the accepted handoff aims at that assignment and its work item under the least new revision, its status time moves if its status did, and nothing else changes |
| Acceptance.AcceptanceTouches | internal/core/memory_store.go:1390-1411 | an acceptance writes the handoff, a new assignment and the receipt, and nothing else |
| Acceptance.SameRequestMeans | internal/core/types.go:730-749 | two commands are the same request exactly when they agree on all but the key |
| Acceptance.ReplaysExactlyWhen | internal/core/memory_store.go:1286-1306 | a used key answers exactly its own request, while the handoff and the assignment are stored and still paired, with those two as they now are |
| Integrity.StepKeepsRefs | internal/core/memory_store.go:104-1404 | every operation keeps every reference to a project or work item resolvable |
| Integrity.TransitKeepsRefs | internal/core/memory_store.go:464-492 | reassigning queued work checks the new work item before it moves |
| Integrity.AcceptKeepsRefs | internal/core/memory_store.go:1276-1404 | accepting a handoff leaves its target and its new assignment under existing work items |
| Integrity.WorkItemSweepKeepsRefs | internal/core/memory_store.go:261-298 | the cascade of a work item deletion leaves no reference to it, including handoffs aimed at it |
| Integrity.ProjectSweepKeepsRefs | internal/core/memory_store.go:104-133 | the cascade of a project deletion leaves nothing filed under it |
| Integrity.RefsInEveryRun | internal/core/memory_store.go:1452-1486 | in every reachable state each assignment, artifact, evidence, review and handoff names an existing work item of its project, and each aimed handoff an existing target |
| Filing.FiledInEveryRun | internal/core/memory_store.go:14-55 | in every reachable state every record is filed under its own project and id |
| RecordRules.HandoffRefsMean | internal/core/memory_store.go:1452-1486 | the reference check of a handoff holds exactly when its work item, roles, source and target are stored and belong together |
| RecordRules.ArtifactFiledExactlyWhen | internal/core/memory_store.go:1012-1038 | filed, alone, exactly when work item, assignment and role resolve and the key is free; otherwise not found before duplicate |
| RecordRules.EvidenceFiledExactlyWhen | internal/core/memory_store.go:1073-1094 | the same for evidence |
| RecordRules.ReviewFiledExactlyWhen | internal/core/memory_store.go:1129-1155 | the same for reviews |
| RecordRules.AssignmentCreatedExactlyWhen | internal/core/service.go:819-875 | created exactly when it names a stored work item and role, its root is one of the project and its key is free; whatever was asked for it is stored queued and unclaimed, with unset times filled in |
| RecordRules.HandoffCreatedExactlyWhen | internal/core/service.go:1579-1640 | created exactly when its references resolve and its key is free, with unset times filled in |
| RecordRules.HandoffDeletedExactlyWhen | internal/core/memory_store.go:1258-1274 | deleted exactly under its current revision, and alone |
| RecordRules.HandoffPatchedExactlyWhen | internal/core/memory_store.go:1224-1256 | patched exactly under its current revision and if the result resolves; a patch that changes nothing leaves it alone |
| RecordRules.AssignmentTakes | internal/core/memory_store.go:941-963 | a deleted assignment takes exactly its own artifacts and reviews along |
| RecordRules.WorkItemTakes | internal/core/memory_store.go:261-298 | a deleted work item takes exactly what is filed under it and the handoffs aimed at it |
| RecordRules.ProjectTakes | internal/core/memory_store.go:104-133 | a deleted project takes exactly what is filed under it and the receipts of its handoffs |
| RecordRules.SmallDeletions | internal/core/memory_store.go:363-375 | roles, memory entries and candidates go alone, without a look at who names them |
| RecordRules.UpdatesExactlyWhen | internal/core/memory_store.go:93-102 | an update replaces the record that is there and is refused without one |
| RecordRules.DeletionsRefusedExactlyWhen | internal/core/memory_store.go:104-116 | a deletion is refused exactly when there is nothing to delete |
| MemoryStore.HandoffTransitionTime | internal/core/memory_store.go:1427-1441 | the loop over the floors computes the least instant not before the clock or any stored stamp and strictly after the revision |
| MemoryStore.ApplyPatch | internal/core/types.go:634-687 | the field-by-field assignments give each field its patch value if there is one and leave the others |
| MemoryStore.ProgressFenced | internal/core/memory_store.go:708-743 | the double stamping of a fenced progress step gives the same start time and revision as stamping once |
| MemoryStore.Finish | internal/core/memory_store.go:745-787 | the in-place completion step sets times, reference and expiry as the transition says |
| MemoryStore.Sweep | internal/core/memory_store.go:276-296 | the cascade loop keeps exactly the rows that are not condemned |
| MemoryStore.MemoryStore.DeleteProject | internal/core/memory_store.go:104-133 | drops the project, every table under it, and the receipts whose handoff belonged to it; its proposal records are swept by the ledger |
| MemoryStore.MemoryStore.DeleteWorkItem | internal/core/memory_store.go:261-298 | sweeps what is filed under the work item and the handoffs aimed at it, and nothing else |
| MemoryStore.MemoryStore.CreateAssignment | internal/core/memory_store.go:409-436 | stores the assignment unchanged after the claim, project, work item, role and duplicate checks, in that order |
| MemoryStore.MemoryStore.RestoreAssignmentSnapshot | internal/core/memory_store.go:438-462 | replaces a stored assignment; unlike creation it insists on finding the role |
| MemoryStore.MemoryStore.UpdateQueuedAssignment | internal/core/memory_store.go:464-492 | takes exactly the model's transition |
| MemoryStore.MemoryStore.ClaimAssignmentWithLease | internal/core/memory_store.go:567-597 | takes exactly the model's transition |
| MemoryStore.MemoryStore.RenewAssignmentClaim | internal/core/memory_store.go:599-626 | takes exactly the model's transition |
| MemoryStore.MemoryStore.RecoverAssignmentClaim | internal/core/memory_store.go:628-653 | takes exactly the model's transition |
| MemoryStore.MemoryStore.PrepareAssignmentWithClaim | internal/core/memory_store.go:655-679 | takes exactly the model's transition |
| MemoryStore.MemoryStore.ReleaseAssignmentWithClaim | internal/core/memory_store.go:681-706 | takes exactly the model's transition |
| MemoryStore.MemoryStore.UpdateAssignmentStatusWithClaim | internal/core/memory_store.go:708-743 | takes exactly the model's transition |
| MemoryStore.MemoryStore.CompleteAssignmentWithClaim | internal/core/memory_store.go:745-787 | takes exactly the model's transition |
| MemoryStore.MemoryStore.ClaimAssignment | internal/core/memory_store.go:789-810 | takes exactly the model's transition |
| MemoryStore.MemoryStore.PrepareAssignment | internal/core/memory_store.go:812-835 | takes exactly the model's transition |
| MemoryStore.MemoryStore.ReleaseAssignment | internal/core/memory_store.go:837-862 | takes exactly the model's transition |
| MemoryStore.MemoryStore.CompleteAssignment | internal/core/memory_store.go:864-902 | takes exactly the model's transition |
| MemoryStore.MemoryStore.UpdateAssignmentStatus | internal/core/memory_store.go:904-939 | takes exactly the model's transition |
| MemoryStore.MemoryStore.DeleteAssignment | internal/core/memory_store.go:941-963 | takes the artifacts and reviews of the assignment along, and leaves its evidence |
| MemoryStore.MemoryStore.ValidateHandoff | internal/core/memory_store.go:1452-1486 | reports NotFound exactly when some reference of the handoff does not resolve |
| MemoryStore.MemoryStore.RestoreHandoffSnapshot | internal/core/memory_store.go:1207-1222 | replaces a stored handoff only under the same work item |
| MemoryStore.MemoryStore.UpdateHandoff | internal/core/memory_store.go:1224-1256 | compare-and-set patch: exactly the model's step |
| MemoryStore.MemoryStore.DeleteHandoff | internal/core/memory_store.go:1258-1274 | compare-and-set deletion: exactly the model's step |
| MemoryStore.MemoryStore.AcceptHandoffWithFollowUp | internal/core/memory_store.go:1276-1412 | exactly the model's idempotent acceptance, receipt and all |
| RowCodec.CodecRoundTrip | internal/sqlitestore/store.go:2506-2545 | an assignment survives its row exactly when its claim, if any, has an id and an acquisition time; a valid claim state always does |
| SqliteStore.GuardIsSnapshotMatch | internal/sqlitestore/store.go:888-922 | on well-formed rows the WHERE clause of the queued update is the in-memory snapshot comparison |
| SqliteStore.GuardedColumns | internal/sqlitestore/store.go:934-1366 | the columns the guards compare hold what was read, including an empty claim id on queued rows, so the guards never miss |
| SqliteStore.ProgressStored | internal/sqlitestore/store.go:1066-1118 | the SET list of a progress step reads back as the validated candidate |
| SqliteStore.FinishStored | internal/sqlitestore/store.go:1120-1185 | the SET list of a completion step reads back as the validated candidate |
| SqliteStore.RequeueStored | internal/sqlitestore/store.go:993-1011 | the SET list of recover and release reads back as the requeued assignment |
| SqliteStore.SqliteStore.Begin | internal/sqlitestore/store.go:1387-1398 | reads the row inside the transaction, or rolls back with the read error |
| SqliteStore.SqliteStore.Rollback | internal/sqlitestore/store.go:1417-1431 | restores the rows of an active transaction and does nothing otherwise |
| SqliteStore.SqliteStore.Finish | internal/sqlitestore/store.go:1463-1476 | no returned row is a conflict and a rollback; a row that does not scan is rolled back; otherwise commit |
| SqliteStore.SqliteStore.ClaimAssignmentWithLease | internal/sqlitestore/store.go:934-966 | from any well-formed rows: the same reply and the same decoded table as the model's step, through read, check, guarded update and commit |
| SqliteStore.SqliteStore.RenewAssignmentClaim | internal/sqlitestore/store.go:968-991 | from any well-formed rows: the same reply and the same decoded table as the model's step, through read, check, guarded update and commit |
| SqliteStore.SqliteStore.RecoverAssignmentClaim | internal/sqlitestore/store.go:993-1011 | from any well-formed rows: the same reply and the same decoded table as the model's step, through read, check, guarded update and commit |
| SqliteStore.SqliteStore.PrepareAssignmentWithClaim | internal/sqlitestore/store.go:1013-1044 | from any well-formed rows: the same reply and the same decoded table as the model's step, through read, check, guarded update and commit |
| SqliteStore.SqliteStore.ReleaseAssignmentWithClaim | internal/sqlitestore/store.go:1046-1064 | from any well-formed rows: the same reply and the same decoded table as the model's step, through read, check, guarded update and commit |
| SqliteStore.SqliteStore.UpdateAssignmentStatusWithClaim | internal/sqlitestore/store.go:1066-1118 | from any well-formed rows: the same reply and the same decoded table as the model's step, through read, check, guarded update and commit |
| SqliteStore.SqliteStore.CompleteAssignmentWithClaim | internal/sqlitestore/store.go:1120-1185 | from any well-formed rows: the same reply and the same decoded table as the model's step, through read, check, guarded update and commit |
| SqliteStore.SqliteStore.ClaimAssignment | internal/sqlitestore/store.go:1187-1204 | from any well-formed rows: the same reply and the same decoded table as the model's step, through read, check, guarded update and commit |
| SqliteStore.SqliteStore.PrepareAssignment | internal/sqlitestore/store.go:1206-1236 | from any well-formed rows: the same reply and the same decoded table as the model's step, through read, check, guarded update and commit |
| SqliteStore.SqliteStore.ReleaseAssignment | internal/sqlitestore/store.go:1238-1255 | from any well-formed rows: the same reply and the same decoded table as the model's step, through read, check, guarded update and commit |
| SqliteStore.SqliteStore.CompleteAssignment | internal/sqlitestore/store.go:1257-1313 | from any well-formed rows: the same reply and the same decoded table as the model's step, through read, check, guarded update and commit |
| SqliteStore.SqliteStore.UpdateAssignmentStatus | internal/sqlitestore/store.go:1315-1366 | from any well-formed rows: the same reply and the same decoded table as the model's step, through read, check, guarded update and commit |
| SqliteHandoffs.HandoffCodec | internal/sqlitestore/store.go:2595-2624 | a handoff comes back from its row unchanged exactly when its status time is set or its creation time is zero too |
| SqliteHandoffs.SqliteHandoffStore.ValidateTransition | internal/sqlitestore/store.go:1816-1849 | reports NotFound exactly when the in-memory validator does, given the foreign key |
| SqliteHandoffs.SqliteHandoffStore.UpdateRow | internal/sqlitestore/store.go:1851-1878 | the guarded UPDATE changes and returns the row exactly when project, work item, id and revision match |
| SqliteHandoffs.SqliteHandoffStore.DeleteHandoff | internal/sqlitestore/store.go:1934-1956 | exactly the in-memory step |
| SnapshotModel.ImportMeaning | internal/core/snapshot.go:231-330 | importing one record is refused exactly when a reference is missing or it may not overwrite, and otherwise changes its own slot alone: keep, replace, or replace but for the creation time |
| SnapshotModel.BlendIsABand | internal/core/snapshot.go:231-330 | merging keeps something of the first and of the last record for a slot and nothing in between |
| SnapshotModel.SlotsAreTheStore | internal/core/snapshot.go:16-33 | the snapshot families and the receipts are the whole store |
| SnapshotProofs.ResolvesBelow | internal/core/snapshot.go:120-179 | the family order is a dependency order: whether a record resolves depends on earlier families only |
| SnapshotProofs.RoundTrip | internal/core/snapshot.go:120-179 | loading a listing of a store into an empty one succeeds if and only if every reference in it resolves, and gives back the same store but for the receipts |
| SnapshotProofs.LoadIsConservative | internal/core/snapshot.go:281-300 | slots that are not mentioned are untouched and stored artifacts, evidence and reviews win, even if the load fails half way |
| SnapshotProofs.LastRecordWins | internal/core/snapshot.go:231-280 | a successful load leaves the last record for each project, skill, role, work item, assignment and handoff |
| SnapshotProofs.FirstRecordStays | internal/core/snapshot.go:281-300 | it leaves the first record for each artifact, piece of evidence and review that was not stored before |
| SnapshotProofs.MemoryKeepsItsBirth | internal/core/snapshot.go:312-330 | of memory it leaves the last record with the creation time of the stored or first one |
| SnapshotProofs.ImportTwice | internal/core/snapshot.go:107-180 | loading the same records again succeeds if and only if every assignment names a stored role, and then changes nothing |
| SnapshotProofs.NamedRolesAreFound | internal/core/snapshot.go:271-279 | records whose assignments all name a role satisfy that condition |
| SnapshotProofs.FoldTwice | internal/core/snapshot.go:231-330 | per slot, folding the same records a second time changes nothing, whatever was there first |
| SnapshotProofs.HandoffHome | internal/core/memory_store.go:1207-1222 | a successful import leaves a handoff under the work item that each of its records names |
| Snapshots.ImportIsConservative | internal/core/snapshot.go:107-180 | the same for a whole import, failed or not |
| Snapshots.ImportIsIdempotent | internal/core/snapshot.go:107-180 | importing a snapshot twice equals importing it once, under the exact role condition |
| Snapshots.ExportImport | internal/core/snapshot.go:37-180 | importing an export into an empty store succeeds exactly for stores whose references resolve, and re-creates every table |
| Snapshots.Preflight | internal/core/snapshot.go:108-119 | the validation loop accepts exactly the acceptable snapshots |
| Snapshots.ImportOne | internal/core/snapshot.go:231-330 | create, and on a duplicate update, restore or keep, on the real store |
| Snapshots.ImportFamily | internal/core/snapshot.go:120-179 | the loop over one family stops at the first refusal with the prefix written |
| Snapshots.ImportSnapshot | internal/core/snapshot.go:107-180 | the eleven loops in order, after the preflight: state and error are those of the import function |
| SnapshotExport.ExportSnapshot | internal/core/snapshot.go:37-105 | the nested listings visit every record of the store exactly once, family by family |
| SnapshotExport.ListRows | internal/core/memory_store.go:135-151 | a listing returns the rows of one owner, each once |
| SnapshotInvariants.LoadKeepsInvariants | internal/core/snapshot.go:107-180 | an import keeps referential integrity, filing and claim-state validity, even when it stops half way |
| SnapshotInvariants.DanglingEvidenceIsNotRestored | internal/core/memory_store.go:941-963 | a concrete run after which the export cannot be imported: evidence outlives its deleted assignment |
| SnapshotInvariants.RolelessImportsOnce | internal/core/snapshot.go:271-279 | a concrete snapshot that imports once and fails the second time: its assignment names no role |
| Closeout.Evaluate | internal/core/closeout_readiness.go:43-138 | ready if and only if the item is not closed, every assignment is completed and has evidence, no handoff is open, and every review that asks for follow-up is settled; the blockers are exactly the counted messages and those of the reviews, none twice |
| Closeout.FollowUpBlockerMeans | internal/core/closeout_readiness.go:209-255 | which of the three review messages is reported, or none, said of the linked handoffs and their targets alone |
| Closeout.CountedBlockers | internal/core/closeout_readiness.go:70-100 | exactly the six counted messages whose count is positive, each with its count of the listed positions |
| Closeout.UnsupportedCount | internal/core/closeout_readiness.go:55-63 | missing evidence counts the completed assignments that no evidence names and for which there is none of the work item as a whole |
| Closeout.UnsupportedMeans | internal/core/closeout_readiness.go:55-63 | and reports exactly their ids |
| Closeout.OpenIdsMean | internal/core/closeout_readiness.go:83-89 | the open handoffs are reported by exactly their ids |
| Closeout.OrderIrrelevant | internal/core/closeout_readiness.go:43-138 | the verdict depends only on the elements of the four lists, not on their order |
| Closeout.ReviewFollowUpBlocker | internal/core/closeout_readiness.go:209-255 | the two nested loops with early return compute the quantified blocker |
| Closeout.UnblockedIsSettled | internal/core/closeout_readiness.go:209-255 | with all assignments completed a review is unblocked exactly when it has linked handoffs, none open, and a listed target or no target at all and some dismissed or superseded |
| Closeout.VerdictIsMayClose | internal/core/closeout_readiness.go:70-134 | the counted blockers and the review blockers add up to the declarative decision |
| Closeout.CountAssignments | internal/core/closeout_readiness.go:181-189 | counts the assignments whose trimmed status satisfies the predicate |
| Closeout.AssignmentHasEvidence | internal/core/closeout_readiness.go:171-179 | true exactly when some evidence is for the assignment or for the work item as a whole |
| Closeout.CountsVanish | internal/core/closeout_readiness.go:70-100 | the four status blockers are all absent exactly when every assignment is completed |
| Closeout.UniqueBlockers | internal/core/closeout_readiness.go:264-279 | keeps the same elements and repeats none |
| Closeout.AssignmentsById | internal/core/closeout_readiness.go:150-156 | indexes the assignments, a later one with the same id winning |
| Projections.SameVerdictExactlyWhen | internal/core/activity.go:72-92 | the two views classify an assignment alike if and only if it is not an expired claim stored with a padded status |
| Projections.ClaimStateGivesSameVerdict | internal/core/operations_brief.go:188-254 | claim-state validity alone makes them agree |
| Projections.LeasedVerdict | internal/core/activity.go:72-92 | on a valid leased claim both views are blocked exactly when the store would let it be recovered and active exactly when it would let the worker act |
| Projections.PlainVerdict | internal/core/operations_brief.go:188-254 | otherwise they go by the status: which ones are blocked, active or completed in each view |
| Projections.BlockedClaimsAreRecoverable | internal/core/activity.go:72-92 | in every run and at any reading a claimed assignment is blocked in either view exactly when a recovery of its claim would succeed |
| Projections.ActiveClaimsAreRenewable | internal/core/activity.go:72-92 | and active exactly when a host holds it or a renewal by its worker would succeed |
| Projections.ProjectActivity | internal/core/activity.go:44-64 | the buckets split the listing in order, every status count is right, and active plus expired claims is claimed plus running plus in review |
| Projections.GroupByWorkItem | internal/core/operations_brief.go:33-36 | groups the assignments by work item, keeping their order |
| Projections.Regrouped | internal/core/operations_brief.go:67-86 | counting work item by work item misses exactly the assignments whose work item is not listed |
| Projections.BriefAssignments | internal/core/operations_brief.go:72-86 | items and both counts of the inner loop |
| Projections.AssignmentItemsMean | internal/core/operations_brief.go:72-86 | one item for each assignment that needs attention, pointing at it and carrying its revision |
| Projections.BriefWorkItem | internal/core/operations_brief.go:61-141 | assignment counts, gap counts and readiness of one work item, and its items kind by kind, each counted once; with known statuses an open work item always has an item |
| Projections.ItemsUnderMean | internal/core/operations_brief.go:61-141 | exactly what is listed of a work item and what each item points at: assignments, missing evidence, follow-ups, open handoffs, readiness, or that nobody is assigned |
| Projections.NothingLeftIsReady | internal/core/operations_brief.go:87-131 | completed work with no missing evidence, open handoff or follow-up may be closed, so the closeout item appears |
| Projections.ProjectOperationsBrief | internal/core/operations_brief.go:12-170 | every count is that of the whole listing, the counts add up to the number of items, exactly the items of all work items and pending candidates are listed, by rank, latest and title, and no item comes before the next one; an empty list means no open work and no pending candidate |
| Projections.PendingItemsMean | internal/core/operations_brief.go:46-60 | one item for each pending candidate, pointing at it |
| OperationsOrder.SortArranges | internal/core/operations_brief.go:149-161 | the stable sort orders the items by rank, then latest first, then title, and keeps tied items in their old order |
| OperationsOrder.OneArrangement | internal/core/operations_brief.go:149-161 | there is only one such order, so the brief does not depend on how the sort works |
| OperationsOrder.NextComesFirst | internal/core/operations_brief.go:162-168 | the first item of a non-empty brief is one of its items, and none comes before it |
| OperationsOrder.UrgencyDecides | internal/core/operations_brief.go:256-281 | blocked work before missing evidence, follow-ups, handoffs, candidates, work going on, closeouts and planning, whatever the dates; within one concern the latest first |
| OperationsOrder.NextIsMostUrgent | internal/core/operations_brief.go:149-168 | the next item is of the most urgent concern that there is, and the latest of those |
| OperationsOrder.BlockedWorkComesNext | internal/core/operations_brief.go:149-168 | a blocked assignment is next whenever there is one, and the latest of them |
| Projections.CountsAgree | internal/core/operations_brief.go:72-84 | on any listings where every assignment has its work item and a common class, active and blocked counts are equal |
| Projections.ProjectionsAgreeInEveryRun | internal/core/activity.go:44-108 | in every reachable state, for one clock reading and any order of the listings, the active and blocked counts of the two views are equal |
| Projections.StatusesListedInEveryRun | internal/core/operations_brief.go:188-254 | in every reachable state every status is one the brief knows |
| Runs.LifecycleInEveryRun | internal/core/memory_store.go:708-939 | completion time set exactly when terminal; start time unset only while queued, claimed or cancelled; start at most completion, which equals the revision: so in all states of an assignment if and only if it was created without either time and no host completed it from queued with an unset stamp; and then a cancelled assignment has no start time exactly when some event cancelled it from queued |
| FenceSafety.RecoveryStaysEnabled | internal/core/memory_store.go:628-653 | on a clock that does not go back, once enabled, recovery stays enabled for as long as the assignment is there and no recovery or host operation on it succeeds |
| FenceSafety.RecoveryEnabledExactlyWhen | internal/core/memory_store.go:628-653 | with never-repeating claim ids it is still enabled if and only if nothing ended the claim |
| FenceSafety.FenceKeepsLease | internal/core/memory_store.go:548-626 | while a fence is current its holder and acquisition time never change, and no renewal shortens its lease |
| FollowUps.ReceiptStep | internal/core/memory_store.go:104-133 | a receipt comes with an execution under its key and goes exactly when its project is deleted; nothing else touches it |
| FollowUps.ReceiptFound | internal/core/memory_store.go:1410-1411 | the receipt of a fresh acceptance is found by every later call under its key until a deletion of the project succeeds |
| FollowUps.ReceiptFoundExactlyWhen | internal/core/memory_store.go:1286-1411 | a receipt is found if and only if an execution under its key was not followed by a deletion of the project, and it is the receipt of that execution |
| FollowUps.UsedKeyStaysUsed | internal/core/memory_store.go:1286-1411 | a used key is still used if and only if the project was not deleted since, or the key was used again after the last deletion |
| FollowUps.DeletionFreesKeys | internal/core/memory_store.go:118-122 | a deletion of the project leaves no receipt under any key of it |
| FollowUps.ExecutedAtMostOnce | internal/core/memory_store.go:1276-1412 | between two executions under one project and key a deletion of the project succeeded |
| HandoffRuns.TokenTakenExactlyWhen | internal/core/memory_store.go:1224-1255 | under the current token a patch takes the token if and only if it changes content and its references resolve; one that changes nothing succeeds all the same |
| Snapshots.MalformedChangesNothing | internal/core/snapshot.go:108-119 | one malformed claim, or one claim in a version 1 snapshot, anywhere among the assignments leaves the store exactly as it was |
| Snapshots.PreflightMeans | internal/core/snapshot.go:108-119 | the preflight passes exactly version 1 or 2 with valid claim states, and without claims in version 1; anything else is refused as a whole |
| SqliteStore.SqliteStore.UpdateQueuedAssignment | internal/sqlitestore/store.go:888-922 | references read before the transaction, other callers in between, then the guarded update with its foreign key: the same reply and decoded table as the stated step on the two stores |
| SqliteStore.QueuedDiffersExactlyWhen | internal/sqlitestore/store.go:888-922 | that step differs from the plain one on the later store if and only if a reference vanished in between and the assignment is there and either stale or to be moved to a vanished role |
| SqliteStore.QueuedAlone | internal/sqlitestore/store.go:888-922 | with no other caller in between it is the plain step |
| HandoffDialect.PatchesAgreeExactlyWhen | internal/sqlitestore/store.go:1899-1932 | the SQLite patch equals the in-memory one if and only if it does not pass every check, change the status and stamp it on the zero time |
| HandoffDialect.AcceptancesAgreeExactlyWhen | internal/sqlitestore/store.go:1958-2150 | the SQLite acceptance equals the in-memory one if and only if it neither hides a stamp in that way nor repeats a key whose handoff now lies under another work item or has a blank role or assignment id |
| HandoffDialect.LaterStampsReadBack | internal/sqlitestore/store.go:1514-1528 | no stamp is hidden unless both the clock and the revision lie before the zero time |
| SqliteHandoffs.SqliteHandoffStore.UpdateHandoff | internal/sqlitestore/store.go:1899-1932 | takes exactly the SQLite patch step on the decoded store; the guard never misses |
| SqliteHandoffs.SqliteHandoffStore.ReplayReceipt | internal/sqlitestore/store.go:1973-2008 | answers from the receipt and changes nothing, exactly as the SQLite replay step |
| SqliteHandoffs.SqliteHandoffStore.Settle | internal/sqlitestore/store.go:2096-2145 | guarded update, rollback on a miss, receipt and commit: the in-memory settlement as its row reads |
| SqliteHandoffs.SqliteHandoffStore.AcceptHandoffWithFollowUp | internal/sqlitestore/store.go:1958-2150 | takes exactly the SQLite acceptance step on the decoded store, with rollback on every error |
| SqliteRecords.RecordStore.CreateAssignment | internal/sqlitestore/store.go:828-853 | from well-formed rows: the same reply and decoded store as creation in memory; the new row reads back as the assignment |
| SqliteRecords.RecordStore.CreateHandoff | internal/sqlitestore/store.go:1759-1814 | the same checks, one by one, then a row that reads back as stated |
| SqliteRecords.RecordStore.DeleteAssignment | internal/sqlitestore/store.go:1539-1568 | three DELETEs in one transaction, undone when the last finds nothing: the in-memory cascade |
| SqliteRecords.RecordStore.DeleteWorkItem | internal/sqlitestore/store.go:700-731 | six DELETEs in one transaction: the in-memory cascade, with the handoffs aimed at the work item |
| SqliteRecords.RecordStore.DeleteProject | internal/sqlitestore/store.go:524-564 | the DELETEs by project column and the projects row, undone when there is no such project |
| SqliteRecords.CreationsAgreeExactlyWhen | internal/sqlitestore/store.go:1759-1814 | SQLite creates a handoff as the in-memory store does if and only if it is refused or its status time reads back |
| SqliteRecords.FreshReadsBack | internal/core/service.go:1603-1609 | what the service creates always reads back |
| SqliteRecords.ProjectDeletionsAgree | internal/sqlitestore/store.go:524-564 | deleting receipts by their project column or by the project of their handoff is the same, for receipts filed as every run files them |
| SqliteRuns.ReadsBackInEveryRun | internal/sqlitestore/store.go:2595-2624 | on a clock after the zero time every stored handoff comes back unchanged from its row |
| SqliteRuns.HandoffStaysFiled | internal/core/memory_store.go:1224-1412 | without reuse of handoff ids a handoff stays under its work item over any run, at any clock |
| SqliteRuns.NoReplayIsMissed | internal/sqlitestore/store.go:1973-2008 | in every ordinary run the two stores replay alike |
| SqliteRuns.HandoffStepsAgree | internal/sqlitestore/store.go:1899-2150 | in every state of an ordinary run the two stores patch and accept alike |
| SqliteRuns.RunsAgree | internal/sqlitestore/store.go:524-2150 | a whole ordinary run takes the two stores through the same states with the same replies, each operation on assignments and handoffs and each deletion being the step proved of the row classes; creations and updates of the other records are the in-memory ones by definition |
| Witnesses.RenewalErasesInARun | internal/core/memory_store.go:599-626 | a concrete run that ends with a malformed claim |
| Witnesses.RequeueStampsCanDiffer | internal/sqlitestore/store.go:1046-1064 | a concrete run after which the stores release one claim to different revisions |
| Witnesses.BlankRoleIsWavedThrough | internal/sqlitestore/store.go:888-894 | a concrete run after which one queued update is refused in memory and done in SQLite |
| Witnesses.StatusStampCanStay | internal/core/memory_store.go:1427-1441 | a concrete patch that moves a status and not its stamp |
| Witnesses.UnsetStampMovesAlone | internal/core/memory_store.go:1246-1252 | a concrete patch that moves a stamp and not its status |
| Witnesses.HiddenStampReadsAsCreation | internal/sqlitestore/store.go:2618-2622 | a concrete patch after which the stores report different status times |
| Witnesses.ReplayCanBeMissed | internal/sqlitestore/store.go:1983-2003 | a concrete run after which a repeated acceptance is answered in memory and a conflict in SQLite |
| Witnesses.UpdateCanMissARecreation | internal/core/service.go:850-858 | a concrete run in which an assignment is created, read, deleted and created anew, and the update succeeds with the revision read first |
| Witnesses.TokenCanBeTakenTwice | internal/core/service.go:1603-1609 | a concrete run in which one token deletes a handoff twice, around its re-creation |
| Witnesses.CompletionCanStampUnset | internal/core/memory_store.go:864-902 | a concrete run in which queued work is completed and both its times stay unset |
| Witnesses.KeyCanBeUsedAgain | internal/core/memory_store.go:118-122 | a concrete run with two executions and two assignments under one project and key |
| Assistant.OnlyTokensCanBeMissing | internal/core/assistant.go:19-35 | a proposal that could be stored can be applied if and only if each of its handoff updates presents a token |
| AssistantActions.ProposableExactlyWhen | internal/core/assistant.go:253-327 | exactly which actions validation lets through, kind by kind |
| AssistantActions.ActionsAreHarmless | internal/core/assistant.go:381-472 | such an action removes nothing, moves no stored assignment, creates assignments only queued, unclaimed and without a reference, and changes a handoff only under the revision it presents |
| AssistantActions.ActionsStayInTheirProject | internal/core/assistant.go:683-735 | the project an action is said to name is the one it acts in: nothing outside changes |
| Assistant.ProposalProject | internal/core/assistant.go:683-735 | the loop finds the project of the proposal, or else of its first action that names one |
| Assistant.NormalizedIsStored | internal/core/assistant.go:177-221 | a record that validates once normalized keeps validating, and a second normalization is the last that changes anything |
| Assistant.NormalizedMeans | internal/core/assistant.go:177-221 | a normalized record and its proposal have one id and one project, and its status is the outcome its latest result names, or applied if it was |
| Assistant.ProposedMeans | internal/core/assistant.go:49-62 | a proposal is filed under a fresh key as proposed, never tried, with its project found |
| Assistant.ActOnRecord | internal/core/assistant.go:49-76 | exactly what an act does to the record under a key: a deletion of its project removes it, an import replaces it, a proposal only fills an empty place |
| AssistantLedger.RefusalChangesNothing | internal/core/memory_store.go:82-1412 | whatever the operation, a refused call leaves the store as it was |
| AssistantLedger.FailedActionIsSkipped | internal/core/assistant.go:97-112 | the action that fails takes no effect: what follows is as if only the other callers had acted |
| AssistantLedger.PrefixIsUnique | internal/core/assistant.go:97-116 | the outcome of applying a proposal is determined: one prefix, one result, one final world |
| AssistantLedger.WriteBackMeans | internal/core/memory_store.go:1781-1798 | writing an outcome back fails if and only if the record is gone or the stored proposal was not fit to be applied |
| AssistantLedger.Ledger.CreateRecord | internal/core/memory_store.go:1766-1779 | normalizes, validates and files a record under a fresh id |
| AssistantLedger.Ledger.UpdateRecord | internal/core/memory_store.go:1781-1798 | normalizes, validates and replaces a record that is there |
| AssistantLedger.Ledger.ImportRecord | internal/core/assistant.go:64-76 | creates the record or overwrites what is there |
| AssistantLedger.Ledger.SweepRecords | internal/core/memory_store.go:127-131 | the loop of a project deletion removes exactly the records of the project |
| AssistantLedger.Ledger.ApplyProposal | internal/core/assistant.go:78-116 | runs exactly a prefix of the actions, each once and in order amid other callers: applied count equals the failed index, one result per action tried, partial or rejected by that count; unconfirmed or invalid proposals run nothing |
| AssistantLedger.Ledger.ApplyRecord | internal/core/assistant.go:118-149 | a spent record conflicts and nothing runs; otherwise the outcome is written over whatever the record has become, or lost with NotFound if it is gone |
| LedgerRuns.GoneExactlyWhen | internal/core/memory_store.go:127-131 | a record that was there is gone if and only if its project was deleted and the record neither imported nor proposed anew since |
| LedgerRuns.OutcomeLostExactlyWhen | internal/core/assistant.go:141-148 | the outcome of a call that ran is lost if and only if that happened while it ran |
| LedgerRuns.ReopensExactlyWhen | internal/core/assistant.go:64-76 | one act ends the applied condition of a record if and only if it deletes its project or imports an unapplied record over it |
| LedgerRuns.SpentExactlyWhen | internal/core/assistant.go:131-139 | after any acts a spent record is still there and spent if and only if none of them left it open |
| LedgerRuns.CallSucceedsExactlyWhen | internal/core/assistant.go:118-149 | a call succeeds if and only if the record is there, unspent and fit, the call is confirmed, every action is accepted, and the record outlives them |
| LedgerRuns.OutcomeRecorded | internal/core/assistant.go:141-148 | the record then says what happened: applied, partial or rejected by how many actions were accepted, or never confirmed; the returned result; the time of success on success alone; and one more attempt with the confirmation, error and time of this call |
| LedgerRuns.SpentAnswers | internal/core/assistant.go:131-139 | a record applied by its latest result or by its status answers with what it reports, and nothing changes |
| LedgerRuns.SucceedsAgainExactlyWhen | internal/core/assistant.go:118-149 | after a record was applied and others acted, a sound call on it succeeds if and only if they left it open and it is not lost for good |
| LedgerRuns.SpentUntilReopened | internal/core/assistant.go:131-139 | over any history an applied record stays so and every later call on it conflicts, runs nothing and changes nothing, until some act reopens it |
| LedgerRuns.SucceedsAgainOnlyIfReopened | internal/core/assistant.go:118-149 | between two successes of one record some act reopened it |
| LedgerRuns.AttemptsOnlyGrow | internal/core/assistant.go:144-147 | while a record is neither removed nor replaced, attempts are only appended to it, at most one a call |
| LedgerWitnesses.OutcomeCanBeLost | internal/core/assistant.go:141-148 | a concrete call whose action takes effect and whose success is not recorded |
| LedgerWitnesses.SucceedsAgainAfterImport | internal/core/assistant.go:64-76 | a concrete history in which one proposal succeeds twice around an import |
| LedgerWitnesses.SucceedsAgainAfterDeletion | internal/core/memory_store.go:127-131 | a concrete history in which it succeeds twice around a deletion of its project |
| Witnesses.RoleCanVanish | internal/sqlitestore/store.go:888-922 | a concrete run in which SQLite moves a queued assignment to a role that was deleted meanwhile |
| Witnesses.PaddedClaimDiffers | internal/core/activity.go:72-92 | a concrete expired claim that is active in one view and blocked in the other |
| LedgerWitnesses.TokenlessRecordsNothing | internal/core/assistant.go:141-148 | a concrete stored proposal that is refused when applied, without a trace |
| LeaseTtl.NormalizeIsLeastFit | internal/core/service.go:44-53 | for every positive 64-bit duration the result is the least whole number of seconds not below it that fits, else the greatest that fits |
| LeaseTtl.NormalizeProperties | internal/app/tools.go:1463 | at least one second, monotone, idempotent, and recovered exactly from the advertised seconds |
| LeaseTtl.OneOverflow | internal/core/service.go:52 | the rounding sum overflows for exactly one duration, and wraps back to the right value |
| ResourceUri.ParseBuild | internal/app/resources.go:337-385 | parsing a built URI returns the original kind and ids, for non-empty slash-free ids |
| ResourceUri.BuildInjective | internal/app/resources.go:337-359 | distinct references build distinct URIs |
| ResourceUri.BuildParse | internal/app/resources.go:361-385 | rebuilding any parsed URI gives the input with outer slashes trimmed |
| ResourceUri.DocumentedTemplates | README.md:157-162 | each of the six documented templates is read as its own kind with its ids |
| ResourceUri.SplitJoin | internal/app/resources.go:361-385 | splitting at slashes undoes joining slash-free parts |
| ResourceUri.JoinSplit | internal/app/resources.go:361-385 | joining undoes splitting |

## Left out

- MCP and JSON-RPC transport, tool registration, text formatting and the user interface: plumbing.
- The SQLite driver, schema, migrations, connections and the mapping of driver errors: an immediate transaction is taken to be atomic and exclusive, and statements to fail only as the constraints say.
- SQLite's creation and update of projects, roles, work items, artifacts, evidence, reviews, skills and memory records, its snapshot restores, and its listings: in SqliteRuns these creations and updates are the in-memory ones. The tables that a transaction only reads, inserts into or sweeps are kept decoded.
- SqliteRecords.RecordStore.CreateHandoff: expects nobody between its reads and its INSERT, like the creation of an assignment; what other callers can do in such a gap is modelled for the queued update alone.
- MemoryStore.MemoryStore.DeleteProject: the proposal records of the project are not in this class but in AssistantLedger.Ledger, whose Store method sweeps them with the same event.
- Trimming and other normalization of arguments by the service: arguments arrive normalized, except where a rule itself trims.
- Aliasing: the store clones slices on the way in and out; values here cannot alias.
- Prose fields, priorities, owners and the like: carried as one opaque text or not at all.
- Times beyond the range that Go represents, and monotonic clock readings.
- Random ids and SHA-256: fresh ids are a hypothesis or a parameter, the hash is the request itself.
- Sorting of listings, of each snapshot family and of activity items: it reorders and nothing here depends on the order. Titles of brief items are known by their place in the lexical order only.
- SnapshotExport.ExportSnapshot: expects the filing and reference invariants that every run and every import keep.
- Assistant proposals and command receipts in snapshots: receipts are not exported; importing a proposal record is modelled in the ledger and not in the round trip.
- Creation times of proposals and the defaulting of their unset timestamps.
- Assistant actions on project roots and project defaults: each is a read and a later write, which the model would show as a plain project update.
- Promotion of memory candidates, skill discovery, guidance and launch packets: file system and read-only assembly.
