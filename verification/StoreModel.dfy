/** The whole coordination store as one value, and every live operation as a step on it.

    A step holds the store's lock for its whole body, so any concurrent use is some
    sequence of these steps, each with its own clock reading. */
module StoreModel {
  import opened Domain
  import opened AssignmentRules
  import opened HandoffRules

  /** The project-scoped records that nothing else refers to. */
  datatype PlainRecord = PlainRecord(id: Id, projectId: Id, createdAt: Time, prose: Text)

  /** `RequestHash` is taken to be injective, so a fingerprint is the request itself. */
  datatype Fingerprint = Fingerprint(
    projectId: Id, workItemId: Id, handoffId: Id, expectedUpdatedAt: Time, intent: Text)

  datatype Receipt = Receipt(request: Fingerprint, result: FollowUpResult)

  /** One table; the wrapper keeps the tables a step does not touch out of its proof. */
  datatype Table<K, V> = Table(rows: map<K, V>)

  function Put<K, V>(t: Table<K, V>, k: K, v: V): Table<K, V> {
    Table(t.rows[k := v])
  }

  function Drop<K, V>(t: Table<K, V>, k: K): Table<K, V> {
    Table(t.rows - {k})
  }

  datatype State = State(
    projects: Table<Id, Project>,
    skills: Table<Key, PlainRecord>,
    roles: Table<Key, Role>,
    workItems: Table<Key, WorkItem>,
    assignments: Table<Key, Assignment>,
    artifacts: Table<Key, Artifact>,
    evidence: Table<Key, Evidence>,
    reviews: Table<Key, Review>,
    handoffs: Table<Key, Handoff>,
    entries: Table<Key, PlainRecord>,
    candidates: Table<Key, PlainRecord>,
    receipts: Table<Key, Receipt>)

  const EMPTY := State(
    Table(map[]), Table(map[]), Table(map[]), Table(map[]), Table(map[]), Table(map[]),
    Table(map[]), Table(map[]), Table(map[]), Table(map[]), Table(map[]), Table(map[]))

  datatype Reply =
    | Done
    | Assigned(assignment: Assignment)
    | Handed(handoff: Handoff)
    | FollowedUp(result: FollowUpResult)
    | Refused(error: Error)

  datatype Outcome = Outcome(state: State, reply: Reply)

  function Fail(s: State, e: Error): Outcome {
    Outcome(s, Refused(e))
  }

  // ---------------------------------------------------------------- projects, roles, work items

  function CreateProject(s: State, p: Project): Outcome {
    if p.id in s.projects.rows then Fail(s, Duplicate)
    else Outcome(s.(projects := Put(s.projects, p.id, p)), Done)
  }

  function UpdateProject(s: State, p: Project): Outcome {
    if p.id !in s.projects.rows then Fail(s, NotFound)
    else Outcome(s.(projects := Put(s.projects, p.id, p)), Done)
  }

  /** The entries of other projects. */
  function Outside<V>(t: Table<Key, V>, projectId: Id): Table<Key, V> {
    Table(map k | k in t.rows && k.project != projectId :: t.rows[k])
  }

  function ReceiptsOutside(t: Table<Key, Receipt>, projectId: Id): Table<Key, Receipt> {
    Table(map k | k in t.rows && t.rows[k].result.handoff.projectId != projectId :: t.rows[k])
  }

  function DeleteProject(s: State, id: Id): Outcome {
    if id !in s.projects.rows then Fail(s, NotFound)
    else Outcome(State(
      Drop(s.projects, id), Outside(s.skills, id), Outside(s.roles, id), Outside(s.workItems, id),
      Outside(s.assignments, id), Outside(s.artifacts, id), Outside(s.evidence, id),
      Outside(s.reviews, id), Outside(s.handoffs, id), Outside(s.entries, id),
      Outside(s.candidates, id),
      ReceiptsOutside(s.receipts, id)), Done)
  }

  // Skills, memory entries and memory candidates are filed under a project and nothing else.

  function CreateSkill(s: State, x: PlainRecord): Outcome {
    if x.projectId !in s.projects.rows then Fail(s, NotFound)
    else if Key(x.projectId, x.id) in s.skills.rows then Fail(s, Duplicate)
    else Outcome(s.(skills := Put(s.skills, Key(x.projectId, x.id), x)), Done)
  }

  function UpdateSkill(s: State, x: PlainRecord): Outcome {
    if x.projectId !in s.projects.rows || Key(x.projectId, x.id) !in s.skills.rows then Fail(s, NotFound)
    else Outcome(s.(skills := Put(s.skills, Key(x.projectId, x.id), x)), Done)
  }

  function CreateEntry(s: State, x: PlainRecord): Outcome {
    if x.projectId !in s.projects.rows then Fail(s, NotFound)
    else if Key(x.projectId, x.id) in s.entries.rows then Fail(s, Duplicate)
    else Outcome(s.(entries := Put(s.entries, Key(x.projectId, x.id), x)), Done)
  }

  /** An update keeps the time the stored entry was created. */
  function UpdateEntry(s: State, x: PlainRecord): Outcome {
    var k := Key(x.projectId, x.id);
    if x.projectId !in s.projects.rows || k !in s.entries.rows then Fail(s, NotFound)
    else Outcome(s.(entries := Put(s.entries, k, x.(createdAt := s.entries.rows[k].createdAt))), Done)
  }

  function CreateCandidate(s: State, x: PlainRecord): Outcome {
    if x.projectId !in s.projects.rows then Fail(s, NotFound)
    else if Key(x.projectId, x.id) in s.candidates.rows then Fail(s, Duplicate)
    else Outcome(s.(candidates := Put(s.candidates, Key(x.projectId, x.id), x)), Done)
  }

  function UpdateCandidate(s: State, x: PlainRecord): Outcome {
    var k := Key(x.projectId, x.id);
    if x.projectId !in s.projects.rows || k !in s.candidates.rows then Fail(s, NotFound)
    else Outcome(s.(candidates := Put(s.candidates, k, x.(createdAt := s.candidates.rows[k].createdAt))), Done)
  }

  function DeleteEntry(s: State, projectId: Id, id: Id): Outcome {
    if projectId !in s.projects.rows || Key(projectId, id) !in s.entries.rows then Fail(s, NotFound)
    else Outcome(s.(entries := Drop(s.entries, Key(projectId, id))), Done)
  }

  function DeleteCandidate(s: State, projectId: Id, id: Id): Outcome {
    if projectId !in s.projects.rows || Key(projectId, id) !in s.candidates.rows then Fail(s, NotFound)
    else Outcome(s.(candidates := Drop(s.candidates, Key(projectId, id))), Done)
  }

  /** The operations on records that nothing refers to. */
  datatype PlainOp =
    | OpCreateSkill(skill: PlainRecord)
    | OpUpdateSkill(skill: PlainRecord)
    | OpCreateEntry(entry: PlainRecord)
    | OpUpdateEntry(entry: PlainRecord)
    | OpDeleteEntry(projectId: Id, id: Id)
    | OpCreateCandidate(candidate: PlainRecord)
    | OpUpdateCandidate(candidate: PlainRecord)
    | OpDeleteCandidate(projectId: Id, id: Id)

  function ApplyPlain(s: State, op: PlainOp): Outcome {
    match op
    case OpCreateSkill(x) => CreateSkill(s, x)
    case OpUpdateSkill(x) => UpdateSkill(s, x)
    case OpCreateEntry(x) => CreateEntry(s, x)
    case OpUpdateEntry(x) => UpdateEntry(s, x)
    case OpDeleteEntry(p, id) => DeleteEntry(s, p, id)
    case OpCreateCandidate(x) => CreateCandidate(s, x)
    case OpUpdateCandidate(x) => UpdateCandidate(s, x)
    case OpDeleteCandidate(p, id) => DeleteCandidate(s, p, id)
  }

  function CreateRole(s: State, r: Role): Outcome {
    if r.projectId !in s.projects.rows then Fail(s, NotFound)
    else if Key(r.projectId, r.id) in s.roles.rows then Fail(s, Duplicate)
    else Outcome(s.(roles := Put(s.roles, Key(r.projectId, r.id), r)), Done)
  }

  function UpdateRole(s: State, r: Role): Outcome {
    if r.projectId !in s.projects.rows || Key(r.projectId, r.id) !in s.roles.rows then Fail(s, NotFound)
    else Outcome(s.(roles := Put(s.roles, Key(r.projectId, r.id), r)), Done)
  }

  function DeleteRole(s: State, projectId: Id, id: Id): Outcome {
    if projectId !in s.projects.rows || Key(projectId, id) !in s.roles.rows then Fail(s, NotFound)
    else Outcome(s.(roles := Drop(s.roles, Key(projectId, id))), Done)
  }

  predicate HasWorkItem(s: State, projectId: Id, workItemId: Id) {
    projectId in s.projects.rows && Key(projectId, workItemId) in s.workItems.rows
  }

  function CreateWorkItem(s: State, w: WorkItem): Outcome {
    if w.projectId !in s.projects.rows then Fail(s, NotFound)
    else if Key(w.projectId, w.id) in s.workItems.rows then Fail(s, Duplicate)
    else Outcome(s.(workItems := Put(s.workItems, Key(w.projectId, w.id), w)), Done)
  }

  function UpdateWorkItem(s: State, w: WorkItem): Outcome {
    if !HasWorkItem(s, w.projectId, w.id) then Fail(s, NotFound)
    else Outcome(s.(workItems := Put(s.workItems, Key(w.projectId, w.id), w)), Done)
  }

  // What a deleted work item leaves behind, table by table.

  function SparedAssignments(t: Table<Key, Assignment>, p: Id, w: Id): Table<Key, Assignment> {
    Table(map k | k in t.rows && !(k.project == p && t.rows[k].workItemId == w) :: t.rows[k])
  }

  function SparedArtifacts(t: Table<Key, Artifact>, p: Id, w: Id): Table<Key, Artifact> {
    Table(map k | k in t.rows && !(k.project == p && t.rows[k].workItemId == w) :: t.rows[k])
  }

  function SparedEvidence(t: Table<Key, Evidence>, p: Id, w: Id): Table<Key, Evidence> {
    Table(map k | k in t.rows && !(k.project == p && t.rows[k].workItemId == w) :: t.rows[k])
  }

  function SparedReviews(t: Table<Key, Review>, p: Id, w: Id): Table<Key, Review> {
    Table(map k | k in t.rows && !(k.project == p && t.rows[k].workItemId == w) :: t.rows[k])
  }

  function SparedHandoffs(t: Table<Key, Handoff>, p: Id, w: Id): Table<Key, Handoff> {
    Table(map k | k in t.rows
            && !(k.project == p && (t.rows[k].workItemId == w || t.rows[k].targetWorkItemId == w)) :: t.rows[k])
  }

  /** Deleting a work item sweeps everything filed under it, and the handoffs aimed at it. */
  function DeleteWorkItem(s: State, projectId: Id, id: Id): Outcome {
    if !HasWorkItem(s, projectId, id) then Fail(s, NotFound)
    else Outcome(s.(
      workItems := Drop(s.workItems, Key(projectId, id)),
      assignments := SparedAssignments(s.assignments, projectId, id),
      evidence := SparedEvidence(s.evidence, projectId, id),
      artifacts := SparedArtifacts(s.artifacts, projectId, id),
      reviews := SparedReviews(s.reviews, projectId, id),
      handoffs := SparedHandoffs(s.handoffs, projectId, id)), Done)
  }

  // ---------------------------------------------------------------- assignments

  /** `MemoryStore.CreateAssignment`. */
  function InsertAssignment(s: State, a: Assignment): Outcome {
    if !ClaimStateOk(a) then Fail(s, Invalid)
    else if !HasWorkItem(s, a.projectId, a.workItemId) then Fail(s, NotFound)
    else if a.roleId != Blank && Key(a.projectId, a.roleId) !in s.roles.rows then Fail(s, NotFound)
    else if Key(a.projectId, a.id) in s.assignments.rows then Fail(s, Duplicate)
    else Outcome(s.(assignments := Put(s.assignments, Key(a.projectId, a.id), a)), Assigned(a))
  }

  /** `MemoryStore.RestoreAssignmentSnapshot`: unlike insertion it insists on the role. */
  function RestoreAssignment(s: State, a: Assignment): Outcome {
    if !ClaimStateOk(a) then Fail(s, Invalid)
    else if !HasWorkItem(s, a.projectId, a.workItemId) then Fail(s, NotFound)
    else if Key(a.projectId, a.roleId) !in s.roles.rows then Fail(s, NotFound)
    else if Key(a.projectId, a.id) !in s.assignments.rows then Fail(s, NotFound)
    else Outcome(s.(assignments := Put(s.assignments, Key(a.projectId, a.id), a)), Assigned(a))
  }

  /** What `Service.CreateAssignment` hands to the store: queued, unclaimed, stamped. */
  function FreshAssignment(input: Assignment, now: Time): Assignment {
    var created := if input.createdAt == ZERO_TIME then now else input.createdAt;
    input.(status := Queued, claimedBy := Blank, claim := None, createdAt := created,
           updatedAt := if input.updatedAt == ZERO_TIME then created else input.updatedAt)
  }

  predicate RootKnown(s: State, projectId: Id, rootId: Id) {
    rootId == Blank || (projectId in s.projects.rows && rootId in s.projects.rows[projectId].rootIds)
  }

  /** `Service.CreateAssignment`. */
  function CreateAssignment(s: State, input: Assignment, now: Time): Outcome {
    if input.projectId == Blank || input.workItemId == Blank || input.roleId == Blank then Fail(s, Invalid)
    else if !RootKnown(s, input.projectId, input.rootId) then Fail(s, NotFound)
    else if !HasWorkItem(s, input.projectId, input.workItemId) then Fail(s, NotFound)
    else if Key(input.projectId, input.roleId) !in s.roles.rows then Fail(s, NotFound)
    else InsertAssignment(s, FreshAssignment(input, now))
  }

  /** The stored references a queued update must find. SQLite accepts a blank role. */
  predicate ReferencesFound(d: Dialect, s: State, projectId: Id, t: Transition) {
    t.UpdateQueued? ==>
      && Key(projectId, t.update.replacement.workItemId) in s.workItems.rows
      && (Key(projectId, t.update.replacement.roleId) in s.roles.rows
          || (d.Sqlite? && t.update.replacement.roleId == Blank))
  }

  /** One assignment transition on the store. */
  function Transit(d: Dialect, s: State, projectId: Id, id: Id, t: Transition, now: Time): Outcome {
    if !ArgumentsOk(t) then Fail(s, Invalid)
    else if projectId !in s.projects.rows then Fail(s, NotFound)
    else if !ReferencesFound(d, s, projectId, t) then Fail(s, NotFound)
    else if Key(projectId, id) !in s.assignments.rows then Fail(s, NotFound)
    else Stored(s, Key(projectId, id), Next(d, t, s.assignments.rows[Key(projectId, id)], now))
  }

  function Stored(s: State, k: Key, r: Result<Assignment>): Outcome {
    if r.Err? then Fail(s, r.error) else Outcome(s.(assignments := Put(s.assignments, k, r.value)), Assigned(r.value))
  }

  /** A transition with good arguments, other than the queued update, reads one assignment. */
  lemma TransitMeans(d: Dialect, s: State, projectId: Id, id: Id, t: Transition, now: Time)
    requires ArgumentsOk(t) && !t.UpdateQueued?
    ensures var k := Key(projectId, id);
      Transit(d, s, projectId, id, t, now) ==
        if projectId in s.projects.rows
          && k in s.assignments.rows then Stored(s, k, Next(d, t, s.assignments.rows[k], now))
        else Fail(s, NotFound)
  {
  }

  function ArtifactsNotOf(t: Table<Key, Artifact>, p: Id, assignmentId: Id): Table<Key, Artifact> {
    Table(map k | k in t.rows && !(k.project == p && t.rows[k].assignmentId == assignmentId) :: t.rows[k])
  }

  function ReviewsNotOf(t: Table<Key, Review>, p: Id, assignmentId: Id): Table<Key, Review> {
    Table(map k | k in t.rows && !(k.project == p && t.rows[k].assignmentId == assignmentId) :: t.rows[k])
  }

  /** Deleting an assignment takes its artifacts and reviews along, but not its evidence. */
  function DeleteAssignment(s: State, projectId: Id, id: Id): Outcome {
    if projectId !in s.projects.rows || Key(projectId, id) !in s.assignments.rows then Fail(s, NotFound)
    else Outcome(s.(
      assignments := Drop(s.assignments, Key(projectId, id)),
      artifacts := ArtifactsNotOf(s.artifacts, projectId, id),
      reviews := ReviewsNotOf(s.reviews, projectId, id)), Done)
  }

  // ---------------------------------------------------------------- artifacts, evidence, reviews

  predicate AssignmentFits(s: State, projectId: Id, assignmentId: Id, workItemId: Id) {
    assignmentId != Blank ==>
      Key(projectId, assignmentId) in s.assignments.rows
        && s.assignments.rows[Key(projectId, assignmentId)].workItemId == workItemId
  }

  predicate RoleFits(s: State, projectId: Id, roleId: Id) {
    roleId != Blank ==> Key(projectId, roleId) in s.roles.rows
  }

  function CreateArtifact(s: State, x: Artifact): Outcome {
    if !HasWorkItem(s, x.projectId, x.workItemId) then Fail(s, NotFound)
    else if !AssignmentFits(s, x.projectId, x.assignmentId, x.workItemId) then Fail(s, NotFound)
    else if !RoleFits(s, x.projectId, x.authorRoleId) then Fail(s, NotFound)
    else if Key(x.projectId, x.id) in s.artifacts.rows then Fail(s, Duplicate)
    else Outcome(s.(artifacts := Put(s.artifacts, Key(x.projectId, x.id), x)), Done)
  }

  function CreateEvidence(s: State, x: Evidence): Outcome {
    if !HasWorkItem(s, x.projectId, x.workItemId) then Fail(s, NotFound)
    else if !AssignmentFits(s, x.projectId, x.assignmentId, x.workItemId) then Fail(s, NotFound)
    else if Key(x.projectId, x.id) in s.evidence.rows then Fail(s, Duplicate)
    else Outcome(s.(evidence := Put(s.evidence, Key(x.projectId, x.id), x)), Done)
  }

  function CreateReview(s: State, x: Review): Outcome {
    if !HasWorkItem(s, x.projectId, x.workItemId) then Fail(s, NotFound)
    else if !AssignmentFits(s, x.projectId, x.assignmentId, x.workItemId) then Fail(s, NotFound)
    else if !RoleFits(s, x.projectId, x.reviewerRoleId) then Fail(s, NotFound)
    else if Key(x.projectId, x.id) in s.reviews.rows then Fail(s, Duplicate)
    else Outcome(s.(reviews := Put(s.reviews, Key(x.projectId, x.id), x)), Done)
  }

  // ---------------------------------------------------------------- handoffs

  /** `validateHandoffLocked`; every failure is NotFound. */
  predicate HandoffRefsOk(s: State, h: Handoff) {
    && HasWorkItem(s, h.projectId, h.workItemId)
    && RoleFits(s, h.projectId, h.fromRoleId)
    && RoleFits(s, h.projectId, h.toRoleId)
    && AssignmentFits(s, h.projectId, h.sourceAssignmentId, h.workItemId)
    && (h.targetAssignmentId != Blank ==>
          && Key(h.projectId, h.targetAssignmentId) in s.assignments.rows
          && (h.targetWorkItemId != Blank ==>
                s.assignments.rows[Key(h.projectId, h.targetAssignmentId)].workItemId == h.targetWorkItemId))
    && (h.targetWorkItemId != Blank ==> Key(h.projectId, h.targetWorkItemId) in s.workItems.rows)
  }

  /** `MemoryStore.CreateHandoff`. */
  function InsertHandoff(s: State, h: Handoff): Outcome {
    if !HandoffRefsOk(s, h) then Fail(s, NotFound)
    else if Key(h.projectId, h.id) in s.handoffs.rows then Fail(s, Duplicate)
    else Outcome(s.(handoffs := Put(s.handoffs, Key(h.projectId, h.id), h)), Handed(h))
  }

  /** `MemoryStore.RestoreHandoffSnapshot`. */
  function RestoreHandoff(s: State, h: Handoff): Outcome {
    if !HandoffRefsOk(s, h) then Fail(s, NotFound)
    else if Key(h.projectId, h.id) !in s.handoffs.rows
           || s.handoffs.rows[Key(h.projectId, h.id)].workItemId != h.workItemId
    then Fail(s, NotFound)
    else Outcome(s.(handoffs := Put(s.handoffs, Key(h.projectId, h.id), h)), Handed(h))
  }

  /** What `Service.CreateHandoff` hands to the store. */
  function FreshHandoff(input: Handoff, now: Time): Handoff {
    var created := if input.createdAt == ZERO_TIME then now else input.createdAt;
    input.(createdAt := created,
           updatedAt := if input.updatedAt == ZERO_TIME then created else input.updatedAt,
           statusChangedAt := if input.statusChangedAt == ZERO_TIME then created else input.statusChangedAt)
  }

  predicate HandoffFiled(s: State, projectId: Id, workItemId: Id, id: Id) {
    Key(projectId, id) in s.handoffs.rows && s.handoffs.rows[Key(projectId, id)].workItemId == workItemId
  }

  /** A patch that presented the current revision. */
  function PatchCurrent(s: State, k: Key, h: Handoff, u: HandoffUpdate, now: Time): Outcome {
    if SameContent(h, Patched(h, u.patch)) then Outcome(s, Handed(h))
    else if !HandoffRefsOk(s, Patched(h, u.patch)) then Fail(s, NotFound)
    else
      var revised := Revised(h, u.patch, now);
      Outcome(s.(handoffs := Put(s.handoffs, k, revised)), Handed(revised))
  }

  function PatchHandoff(s: State, projectId: Id, workItemId: Id, id: Id, u: HandoffUpdate, now: Time): Outcome {
    if !HasWorkItem(s, projectId, workItemId) || !HandoffFiled(s, projectId, workItemId, id) then Fail(s, NotFound)
    else
      var current := s.handoffs.rows[Key(projectId, id)];
      if current.updatedAt != u.expectedUpdatedAt then Fail(s, Conflict)
      else PatchCurrent(s, Key(projectId, id), current, u, now)
  }

  function DeleteHandoff(s: State, projectId: Id, workItemId: Id, id: Id, expectedUpdatedAt: Time): Outcome {
    if !HasWorkItem(s, projectId, workItemId) || !HandoffFiled(s, projectId, workItemId, id) then Fail(s, NotFound)
    else if s.handoffs.rows[Key(projectId, id)].updatedAt != expectedUpdatedAt then Fail(s, Conflict)
    else Outcome(s.(handoffs := Drop(s.handoffs, Key(projectId, id))), Done)
  }

  // ---------------------------------------------------------------- accept with follow-up

  function Request(c: AcceptCommand): Fingerprint {
    Fingerprint(c.projectId, c.workItemId, c.handoffId, c.expectedUpdatedAt, c.intent)
  }

  /** The handoff still carries the follow-up it was accepted with. */
  predicate FollowUpIntact(h: Handoff, a: Assignment) {
    && h.status == Accepted
    && h.targetAssignmentId == a.id
    && h.targetWorkItemId == a.workItemId
    && h.toRoleId == a.roleId
  }

  function Replay(s: State, c: AcceptCommand, r: Receipt): Outcome {
    var hk, ak := Key(c.projectId, r.result.handoff.id), Key(c.projectId, r.result.assignment.id);
    if r.request != Request(c) then Fail(s, Conflict)
    else if hk !in s.handoffs.rows || ak !in s.assignments.rows
           || !FollowUpIntact(s.handoffs.rows[hk], s.assignments.rows[ak])
    then Fail(s, Conflict)
    else Outcome(s, FollowedUp(r.result.(handoff := s.handoffs.rows[hk], assignment := s.assignments.rows[ak],
                                         replayed := true)))
  }

  /** The assignment a fresh acceptance queues for the receiving role. */
  function FollowUpAssignment(c: AcceptCommand, newId: Id, w: WorkItem, workItemId: Id, r: Role, roleId: Id,
                              now: Time): Assignment {
    var mode := if r.defaultExecutionMode == Blank then MCP_PULL else r.defaultExecutionMode;
    Assignment(newId, c.projectId, workItemId, roleId, w.rootId, mode, Queued,
               DesiredAgent(if mode == MANUAL then HUMAN else ANY_AGENT, r.defaultSkillIds),
               Blank, None, EMPTY_REF, Blank, now, now, ZERO_TIME, ZERO_TIME)
  }

  /** `h` accepted; the stamp floors see the new target but the old status. */
  function AcceptedAs(h: Handoff, now: Time): Handoff {
    var stamp := HandoffStamp(h, now);
    h.(status := Accepted, updatedAt := stamp,
       statusChangedAt := if h.status != Accepted then stamp else h.statusChangedAt)
  }

  function Settle(s: State, c: AcceptCommand, h: Handoff, a: Assignment, outcome: FollowUpOutcome, now: Time): Outcome {
    var accepted := if outcome == AlreadySatisfied then h else AcceptedAs(h, now);
    var result := FollowUpResult(accepted, a, outcome, false);
    Outcome(s.(handoffs := if outcome == AlreadySatisfied then s.handoffs
                             else Put(s.handoffs, Key(c.projectId, c.handoffId), accepted),
               receipts := Put(s.receipts, Key(c.projectId, c.idempotencyKey), Receipt(Request(c), result))),
            FollowedUp(result))
  }

  function LinkExisting(s: State, c: AcceptCommand, h: Handoff, now: Time): Outcome
    requires h.targetAssignmentId != Blank
  {
    var ak := Key(c.projectId, h.targetAssignmentId);
    if ak !in s.assignments.rows then Fail(s, Conflict)
    else
      var linked := s.assignments.rows[ak];
      if linked.roleId != h.toRoleId || (h.targetWorkItemId != Blank && linked.workItemId != h.targetWorkItemId)
      then Fail(s, Conflict)
      else if Key(c.projectId, linked.workItemId) !in s.workItems.rows then Fail(s, Conflict)
      else
        var outcome := if h.status == Accepted && h.targetWorkItemId == linked.workItemId then AlreadySatisfied
                         else LinkedExisting;
        Settle(s, c, h.(targetWorkItemId := linked.workItemId), linked, outcome, now)
  }

  function CreateFollowUp(s: State, c: AcceptCommand, newId: Id, h: Handoff, r: Role, created: Time,
                          now: Time): Outcome {
    var workItemId := if h.targetWorkItemId == Blank then h.workItemId else h.targetWorkItemId;
    if Key(c.projectId, workItemId) !in s.workItems.rows then Fail(s, NotFound)
    else
      var w := s.workItems.rows[Key(c.projectId, workItemId)];
      if !RootKnown(s, c.projectId, w.rootId) then Fail(s, NotFound)
      else if Key(c.projectId, newId) in s.assignments.rows then Fail(s, Duplicate)
      else
        var a := FollowUpAssignment(c, newId, w, workItemId, r, h.toRoleId, created);
        Settle(s.(assignments := Put(s.assignments, Key(c.projectId, newId), a)), c,
               h.(targetAssignmentId := newId, targetWorkItemId := workItemId), a, CreatedFollowUp, now)
  }

  /** The clock is read twice: `created` for a new assignment, then `now` for the handoff. */
  function AcceptHandoff(s: State, c: AcceptCommand, newId: Id, created: Time, now: Time): Outcome {
    var rk := Key(c.projectId, c.idempotencyKey);
    if rk in s.receipts.rows then Replay(s, c, s.receipts.rows[rk])
    else if !HandoffFiled(s, c.projectId, c.workItemId, c.handoffId) then Fail(s, NotFound)
    else
      var h := s.handoffs.rows[Key(c.projectId, c.handoffId)];
      if h.updatedAt != c.expectedUpdatedAt then Fail(s, Conflict)
      else if h.status == Dismissed || h.status == Superseded then Fail(s, Conflict)
      else if h.toRoleId == Blank then Fail(s, Invalid)
      else if Key(c.projectId, h.toRoleId) !in s.roles.rows then Fail(s, NotFound)
      else if h.targetAssignmentId != Blank then LinkExisting(s, c, h, now)
      else CreateFollowUp(s, c, newId, h, s.roles.rows[Key(c.projectId, h.toRoleId)], created, now)
  }

  // ---------------------------------------------------------------- events

  /** The live operations; snapshot import is not one of them. */
  datatype Op =
    | OpCreateProject(project: Project)
    | OpUpdateProject(project: Project)
    | OpDeleteProject(projectId: Id)
    | OpPlain(plain: PlainOp)
    | OpCreateRole(role: Role)
    | OpUpdateRole(role: Role)
    | OpDeleteRole(projectId: Id, id: Id)
    | OpCreateWorkItem(workItem: WorkItem)
    | OpUpdateWorkItem(workItem: WorkItem)
    | OpDeleteWorkItem(projectId: Id, id: Id)
    | OpCreateAssignment(assignment: Assignment)
    | OpTransit(projectId: Id, id: Id, transition: Transition)
    | OpDeleteAssignment(projectId: Id, id: Id)
    | OpCreateArtifact(artifact: Artifact)
    | OpCreateEvidence(evidence: Evidence)
    | OpCreateReview(review: Review)
    | OpCreateHandoff(handoff: Handoff)
    | OpPatchHandoff(projectId: Id, workItemId: Id, id: Id, update: HandoffUpdate)
    | OpDeleteHandoff(projectId: Id, workItemId: Id, id: Id, expectedUpdatedAt: Time)
    | OpAcceptHandoff(command: AcceptCommand, newAssignmentId: Id, created: Time)

  datatype Event = Event(op: Op, now: Time)

  function Apply(s: State, e: Event): Outcome {
    match e.op
    case OpCreateProject(p) => CreateProject(s, p)
    case OpUpdateProject(p) => UpdateProject(s, p)
    case OpDeleteProject(id) => DeleteProject(s, id)
    case OpPlain(p) => ApplyPlain(s, p)
    case OpCreateRole(r) => CreateRole(s, r)
    case OpUpdateRole(r) => UpdateRole(s, r)
    case OpDeleteRole(p, id) => DeleteRole(s, p, id)
    case OpCreateWorkItem(w) => CreateWorkItem(s, w)
    case OpUpdateWorkItem(w) => UpdateWorkItem(s, w)
    case OpDeleteWorkItem(p, id) => DeleteWorkItem(s, p, id)
    case OpCreateAssignment(a) => CreateAssignment(s, a, e.now)
    case OpTransit(p, id, t) => Transit(Memory, s, p, id, t, e.now)
    case OpDeleteAssignment(p, id) => DeleteAssignment(s, p, id)
    case OpCreateArtifact(x) => CreateArtifact(s, x)
    case OpCreateEvidence(x) => CreateEvidence(s, x)
    case OpCreateReview(x) => CreateReview(s, x)
    case OpCreateHandoff(h) => InsertHandoff(s, FreshHandoff(h, e.now))
    case OpPatchHandoff(p, w, id, u) => PatchHandoff(s, p, w, id, u, e.now)
    case OpDeleteHandoff(p, w, id, t) => DeleteHandoff(s, p, w, id, t)
    case OpAcceptHandoff(c, newId, created) => AcceptHandoff(s, c, newId, created, e.now)
  }

  /** The store after the first `i` events of a run that starts empty. */
  function At(run: seq<Event>, i: nat): State
    requires i <= |run|
  {
    if i == 0 then EMPTY else Apply(At(run, i - 1), run[i - 1]).state
  }
}
