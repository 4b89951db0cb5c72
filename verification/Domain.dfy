/** The coordination entities of Cairnline as values, and the small predicates on them.

    Timestamps are whole nanoseconds counted from Go's zero time, so `ZERO_TIME` is what
    `time.Time.IsZero` recognises; earlier instants are negative. */
module Domain {

  /** A string that the rules only compare and trim: empty, some text without surrounding
      whitespace (numbered, so that equal texts are equal numbers), or a text with
      whitespace around it. */
  datatype Text = Blank | Word(code: nat) | Spaced(inner: Text)

  /** `strings.TrimSpace`. */
  function Trim(t: Text): Text {
    if t.Spaced? then Trim(t.inner) else t
  }

  /** The two tests the claim validator makes on a name, that it is not blank once trimmed
      and that trimming leaves it alone, single out the plain words. */
  lemma WordMeaning(t: Text)
    ensures t.Word? <==> Trim(t) != Blank && t == Trim(t)
  {
    if t.Spaced? { TrimIsPlain(t.inner); }
  }

  lemma TrimIsPlain(t: Text)
    ensures !Trim(t).Spaced?
  {
  }

  type Id = Text

  /** An id that the store generated: never blank, nothing to trim. */
  type FreshId = t: Id | t.Word? witness Word(0)

  type Time = int

  /** Keys of the two-level maps `map[projectID]map[id]`, flattened. */
  datatype Key = Key(project: Id, id: Id)

  const ZERO_TIME: Time := 0

  datatype Option<+T> = None | Some(value: T)

  datatype Error = NotFound | Duplicate | Conflict | Invalid | Internal

  datatype Result<+T> = Ok(value: T) | Err(error: Error)

  function Max(a: int, b: int): int {
    if a < b then b else a
  }

  // ---------------------------------------------------------------- assignments

  /** An assignment status is one of the eight names, a name with surrounding whitespace,
      or some other text. Only the first kind is equal to a status constant. */
  datatype Status =
    | Queued | Claimed | Running | AwaitingApproval | AwaitingReview
    | Completed | Failed | Cancelled
    | Padded(inner: Status)
    | Unlisted(text: nat)

  function TrimStatus(s: Status): Status {
    if s.Padded? then TrimStatus(s.inner) else s
  }

  predicate IsTerminal(s: Status) {
    s == Completed || s == Failed || s == Cancelled
  }

  predicate IsProgress(s: Status) {
    s == Running || s == AwaitingApproval || s == AwaitingReview
  }

  predicate IsCompletion(s: Status) {
    s == Completed || s == Failed || s == Cancelled || s == AwaitingReview
  }

  datatype ExecutionRef = ExecutionRef(
    kind: Text, taskId: Text, runId: Text, sessionId: Text, traceId: Text,
    pendingApprovals: int)

  const MCP_PULL := Word(1)
  const MANUAL := Word(2)
  const HUMAN := Word(3)
  const ANY_AGENT := Word(4)

  const WORK_DONE := Word(5)
  const WORK_CANCELLED := Word(6)
  const CHANGES_REQUESTED := Word(7)
  const BLOCKED_VERDICT := Word(8)

  const EMPTY_REF := ExecutionRef(Blank, Blank, Blank, Blank, Blank, 0)

  datatype DesiredAgent = DesiredAgent(kind: Text, skillIds: seq<Id>)

  datatype ClaimLease = ClaimLease(id: Id, acquiredAt: Time, expiresAt: Time)

  datatype Assignment = Assignment(
    id: Id, projectId: Id, workItemId: Id, roleId: Id, rootId: Id,
    executionMode: Text, status: Status, desiredAgent: DesiredAgent,
    claimedBy: Text, claim: Option<ClaimLease>,
    executionRef: ExecutionRef, contextSnapshotId: Id,
    createdAt: Time, updatedAt: Time, startedAt: Time, completedAt: Time)

  datatype Coordination = Coordination(
    workItemId: Id, roleId: Id, rootId: Id, executionMode: Text, desiredAgent: DesiredAgent)

  datatype QueuedUpdate = QueuedUpdate(
    expected: Coordination, expectedUpdatedAt: Time, replacement: Coordination)

  // ---------------------------------------------------------------- handoffs

  datatype HandoffStatus =
    | Open | Accepted | Superseded | Dismissed
    | PaddedStatus(inner: HandoffStatus)
    | UnlistedStatus(text: nat)

  function TrimHandoffStatus(s: HandoffStatus): HandoffStatus {
    if s.PaddedStatus? then TrimHandoffStatus(s.inner) else s
  }

  datatype Handoff = Handoff(
    id: Id, projectId: Id, workItemId: Id,
    sourceAssignmentId: Id, sourceRunId: Id, sourceChatSessionId: Id, sourceMessageId: Id,
    fromRoleId: Id, toRoleId: Id, targetAssignmentId: Id, targetWorkItemId: Id,
    title: Text, body: Text, recommendedNextAction: Text,
    linkedArtifactIds: seq<Id>, linkedMemoryIds: seq<Id>, contextRefs: seq<Text>,
    status: HandoffStatus, provenanceKind: Text, trustLabel: Text,
    createdAt: Time, updatedAt: Time, statusChangedAt: Time)

  /** A field of a patch is `None` where the Go pointer is nil. */
  datatype HandoffPatch = HandoffPatch(
    sourceAssignmentId: Option<Id>, sourceRunId: Option<Id>,
    sourceChatSessionId: Option<Id>, sourceMessageId: Option<Id>,
    fromRoleId: Option<Id>, toRoleId: Option<Id>,
    targetAssignmentId: Option<Id>, targetWorkItemId: Option<Id>,
    title: Option<Text>, body: Option<Text>, recommendedNextAction: Option<Text>,
    linkedArtifactIds: Option<seq<Id>>, linkedMemoryIds: Option<seq<Id>>,
    contextRefs: Option<seq<Text>>,
    status: Option<HandoffStatus>, provenanceKind: Option<Text>, trustLabel: Option<Text>)

  datatype HandoffUpdate = HandoffUpdate(expectedUpdatedAt: Time, patch: HandoffPatch)

  datatype AcceptCommand = AcceptCommand(
    projectId: Id, workItemId: Id, handoffId: Id, expectedUpdatedAt: Time,
    idempotencyKey: Text, intent: Text)

  datatype FollowUpOutcome = CreatedFollowUp | LinkedExisting | AlreadySatisfied

  datatype FollowUpResult = FollowUpResult(
    handoff: Handoff, assignment: Assignment, outcome: FollowUpOutcome, replayed: bool)

  // ---------------------------------------------------------------- everything else

  datatype Project = Project(id: Id, rootIds: seq<Id>, prose: Text)

  datatype Role = Role(
    id: Id, projectId: Id, defaultSkillIds: seq<Id>, defaultExecutionMode: Text, prose: Text)

  datatype WorkItem = WorkItem(
    id: Id, projectId: Id, status: Text, rootId: Id, title: Text, prose: Text,
    updatedAt: Time)

  datatype Artifact = Artifact(
    id: Id, projectId: Id, workItemId: Id, assignmentId: Id, authorRoleId: Id, prose: Text)

  datatype Evidence = Evidence(
    id: Id, projectId: Id, workItemId: Id, assignmentId: Id, prose: Text)

  datatype Review = Review(
    id: Id, projectId: Id, workItemId: Id, assignmentId: Id, reviewerRoleId: Id,
    title: Text, verdict: Text, prose: Text)
}
