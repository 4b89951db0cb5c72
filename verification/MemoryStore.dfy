/** The in-memory store: a class over maps whose methods hold one lock throughout. Each
    method is proved to take exactly the step that `StoreModel` gives it. */
module MemoryStore {
  import opened Domain
  import opened AssignmentRules
  import opened HandoffRules
  import opened StoreModel

  function AsReply(r: Result<Assignment>): Reply {
    match r
    case Ok(a) => Assigned(a)
    case Err(e) => Refused(e)
  }

  function HandoffReply(r: Result<Handoff>): Reply {
    match r
    case Ok(h) => Handed(h)
    case Err(e) => Refused(e)
  }

  function FollowUpReply(r: Result<FollowUpResult>): Reply {
    match r
    case Ok(f) => FollowedUp(f)
    case Err(e) => Refused(e)
  }

  function DoneReply(r: Option<Error>): Reply {
    if r.Some? then Refused(r.value) else Done
  }

  /** `projectHasRoot`. */
  method ProjectHasRoot(project: Project, rootId: Id) returns (found: bool)
    ensures found <==> rootId in project.rootIds
  {
    for i := 0 to |project.rootIds|
      invariant rootId !in project.rootIds[..i]
    {
      if project.rootIds[i] == rootId {
        return true;
      }
    }
    return false;
  }

  /** `handoffTransitionTime`: raise the reading to each floor in turn. */
  method HandoffTransitionTime(h: Handoff, now: Time) returns (stamp: Time)
    ensures stamp == HandoffStamp(h, now)
  {
    stamp := now;
    var floors := [h.createdAt, h.updatedAt, h.statusChangedAt];
    for i := 0 to 3
      invariant stamp == if i == 0 then now
                         else if i == 1 then Max(now, h.createdAt)
                         else if i == 2 then Max(Max(now, h.createdAt), h.updatedAt)
                         else Max(Max(Max(now, h.createdAt), h.updatedAt), h.statusChangedAt)
    {
      if stamp < floors[i] {
        stamp := floors[i];
      }
    }
    if !(stamp > h.updatedAt) {
      stamp := h.updatedAt + 1;
    }
  }

  /** The assignment that an acceptance queues, from the defaults of the role. */
  method NewFollowUp(c: AcceptCommand, newAssignmentId: Id, workItem: WorkItem, workItemId: Id, role: Role, roleId: Id,
                     created: Time)
    returns (assignment: Assignment)
    ensures assignment == FollowUpAssignment(c, newAssignmentId, workItem, workItemId, role, roleId, created)
  {
    var executionMode := role.defaultExecutionMode;
    if executionMode == Blank {
      executionMode := MCP_PULL;
    }
    var desiredKind := ANY_AGENT;
    if executionMode == MANUAL {
      desiredKind := HUMAN;
    }
    assignment := Assignment(
      newAssignmentId, c.projectId, workItemId, roleId, workItem.rootId,
      executionMode, Queued, DesiredAgent(desiredKind, role.defaultSkillIds),
      Blank, None, EMPTY_REF, Blank, created, created, ZERO_TIME, ZERO_TIME);
  }

  /** `HandoffPatch.Apply`, field by field on a local copy. */
  method ApplyPatch(p: HandoffPatch, h: Handoff) returns (current: Handoff)
    ensures current == Patched(h, p)
  {
    current := ApplySources(p, h);
    current := ApplyTargets(p, current);
    current := ApplyProse(p, current);
    current := ApplyRest(p, current);
  }

  method ApplySources(p: HandoffPatch, h: Handoff) returns (current: Handoff)
    ensures current == h.(sourceAssignmentId := Or(p.sourceAssignmentId, h.sourceAssignmentId),
                          sourceRunId := Or(p.sourceRunId, h.sourceRunId),
                          sourceChatSessionId := Or(p.sourceChatSessionId, h.sourceChatSessionId),
                          sourceMessageId := Or(p.sourceMessageId, h.sourceMessageId))
  {
    current := h;
    if p.sourceAssignmentId.Some? { current := current.(sourceAssignmentId := p.sourceAssignmentId.value); }
    if p.sourceRunId.Some? { current := current.(sourceRunId := p.sourceRunId.value); }
    if p.sourceChatSessionId.Some? { current := current.(sourceChatSessionId := p.sourceChatSessionId.value); }
    if p.sourceMessageId.Some? { current := current.(sourceMessageId := p.sourceMessageId.value); }
  }

  method ApplyTargets(p: HandoffPatch, h: Handoff) returns (current: Handoff)
    ensures current == h.(fromRoleId := Or(p.fromRoleId, h.fromRoleId),
                          toRoleId := Or(p.toRoleId, h.toRoleId),
                          targetAssignmentId := Or(p.targetAssignmentId, h.targetAssignmentId),
                          targetWorkItemId := Or(p.targetWorkItemId, h.targetWorkItemId))
  {
    current := h;
    if p.fromRoleId.Some? { current := current.(fromRoleId := p.fromRoleId.value); }
    if p.toRoleId.Some? { current := current.(toRoleId := p.toRoleId.value); }
    if p.targetAssignmentId.Some? { current := current.(targetAssignmentId := p.targetAssignmentId.value); }
    if p.targetWorkItemId.Some? { current := current.(targetWorkItemId := p.targetWorkItemId.value); }
  }

  method ApplyProse(p: HandoffPatch, h: Handoff) returns (current: Handoff)
    ensures current == h.(title := Or(p.title, h.title), body := Or(p.body, h.body),
                          recommendedNextAction := Or(p.recommendedNextAction, h.recommendedNextAction),
                          linkedArtifactIds := Or(p.linkedArtifactIds, h.linkedArtifactIds))
  {
    current := h;
    if p.title.Some? { current := current.(title := p.title.value); }
    if p.body.Some? { current := current.(body := p.body.value); }
    if p.recommendedNextAction.Some? { current := current.(recommendedNextAction := p.recommendedNextAction.value); }
    if p.linkedArtifactIds.Some? { current := current.(linkedArtifactIds := p.linkedArtifactIds.value); }
  }

  method ApplyRest(p: HandoffPatch, h: Handoff) returns (current: Handoff)
    ensures current == h.(linkedMemoryIds := Or(p.linkedMemoryIds, h.linkedMemoryIds),
                          contextRefs := Or(p.contextRefs, h.contextRefs),
                          status := Or(p.status, h.status),
                          provenanceKind := Or(p.provenanceKind, h.provenanceKind),
                          trustLabel := Or(p.trustLabel, h.trustLabel))
  {
    current := h;
    if p.linkedMemoryIds.Some? { current := current.(linkedMemoryIds := p.linkedMemoryIds.value); }
    if p.contextRefs.Some? { current := current.(contextRefs := p.contextRefs.value); }
    if p.status.Some? { current := current.(status := p.status.value); }
    if p.provenanceKind.Some? { current := current.(provenanceKind := p.provenanceKind.value); }
    if p.trustLabel.Some? { current := current.(trustLabel := p.trustLabel.value); }
  }

  /** `clearAssignmentClaimReservation`. */
  function ClearReservation(a: Assignment): Assignment {
    if a.claim.None? then a else a.(claim := Some(a.claim.value.(expiresAt := ZERO_TIME)))
  }

  /** The fenced progress steps: the stamp is computed again after the start time is set. */
  method ProgressFenced(a: Assignment, status: Status, ref: ExecutionRef, now: Time) returns (item: Assignment)
    ensures item == Progressed(a, status, ref, Stamp(a, now))
  {
    item := a.(status := status);
    if item.startedAt == ZERO_TIME {
      item := item.(startedAt := MemoryStamp(item.updatedAt, item.startedAt, now));
    }
    if ref != EMPTY_REF {
      item := item.(executionRef := ref);
    }
    if a.status == Claimed {
      item := ClearReservation(item);
    }
    item := item.(updatedAt := MemoryStamp(item.updatedAt, item.startedAt, now));
  }

  /** The host progress steps. */
  method Progress(a: Assignment, status: Status, ref: ExecutionRef, now: Time) returns (item: Assignment)
    ensures item == Progressed(a, status, ref, Stamp(a, now))
  {
    var stamp := MemoryStamp(a.updatedAt, a.startedAt, now);
    item := a.(status := status);
    if item.startedAt == ZERO_TIME {
      item := item.(startedAt := stamp);
    }
    if ref != EMPTY_REF {
      item := item.(executionRef := ref);
    }
    if a.status == Claimed {
      item := ClearReservation(item);
    }
    item := item.(updatedAt := stamp);
  }

  /** The completion steps on a local copy, shared by the fenced and the host operation. */
  method Finish(a: Assignment, status: Status, ref: ExecutionRef, now: Time) returns (item: Assignment)
    ensures item == Finished(a, status, ref, Stamp(a, now))
  {
    var stamp := MemoryStamp(a.updatedAt, a.startedAt, now);
    item := a.(status := status);
    if item.startedAt == ZERO_TIME && !(a.status == Queued && status == Cancelled) {
      item := item.(startedAt := stamp);
    }
    if IsTerminal(status) && item.completedAt == ZERO_TIME {
      item := item.(completedAt := stamp);
    }
    if ref != EMPTY_REF {
      item := item.(executionRef := ref);
    }
    if a.status == Claimed {
      item := ClearReservation(item);
    }
    item := item.(updatedAt := stamp);
  }

  /** A range-and-delete loop over one table: visit every row, drop the condemned. */
  method Sweep<V>(rows: map<Key, V>, condemned: (Key, V) -> bool) returns (kept: map<Key, V>)
    ensures kept == map k | k in rows && !condemned(k, rows[k]) :: rows[k]
  {
    kept := rows;
    var unvisited := rows.Keys;
    while unvisited != {}
      invariant unvisited <= rows.Keys
      invariant kept == map k | k in rows && (k in unvisited || !condemned(k, rows[k])) :: rows[k]
    {
      var k :| k in unvisited;
      if condemned(k, rows[k]) {
        kept := kept - {k};
      }
      unvisited := unvisited - {k};
    }
  }

  method DropProject<V>(rows: map<Key, V>, id: Id) returns (kept: map<Key, V>)
    ensures Table(kept) == Outside(Table(rows), id)
  {
    kept := Sweep(rows, (k: Key, v: V) => k.project == id);
  }

  method SweepAssignments(rows: map<Key, Assignment>, p: Id, w: Id) returns (kept: map<Key, Assignment>)
    ensures Table(kept) == SparedAssignments(Table(rows), p, w)
  {
    kept := Sweep(rows, (k: Key, v: Assignment) => k.project == p && v.workItemId == w);
  }

  method SweepArtifacts(rows: map<Key, Artifact>, p: Id, w: Id) returns (kept: map<Key, Artifact>)
    ensures Table(kept) == SparedArtifacts(Table(rows), p, w)
  {
    kept := Sweep(rows, (k: Key, v: Artifact) => k.project == p && v.workItemId == w);
  }

  method SweepEvidence(rows: map<Key, Evidence>, p: Id, w: Id) returns (kept: map<Key, Evidence>)
    ensures Table(kept) == SparedEvidence(Table(rows), p, w)
  {
    kept := Sweep(rows, (k: Key, v: Evidence) => k.project == p && v.workItemId == w);
  }

  method SweepReviews(rows: map<Key, Review>, p: Id, w: Id) returns (kept: map<Key, Review>)
    ensures Table(kept) == SparedReviews(Table(rows), p, w)
  {
    kept := Sweep(rows, (k: Key, v: Review) => k.project == p && v.workItemId == w);
  }

  method SweepHandoffs(rows: map<Key, Handoff>, p: Id, w: Id) returns (kept: map<Key, Handoff>)
    ensures Table(kept) == SparedHandoffs(Table(rows), p, w)
  {
    kept := Sweep(rows, (k: Key, v: Handoff) => k.project == p && (v.workItemId == w || v.targetWorkItemId == w));
  }

  method SweepArtifactsOf(rows: map<Key, Artifact>, p: Id, w: Id) returns (kept: map<Key, Artifact>)
    ensures Table(kept) == ArtifactsNotOf(Table(rows), p, w)
  {
    kept := Sweep(rows, (k: Key, v: Artifact) => k.project == p && v.assignmentId == w);
  }

  method SweepReviewsOf(rows: map<Key, Review>, p: Id, w: Id) returns (kept: map<Key, Review>)
    ensures Table(kept) == ReviewsNotOf(Table(rows), p, w)
  {
    kept := Sweep(rows, (k: Key, v: Review) => k.project == p && v.assignmentId == w);
  }

  method SweepReceipts(rows: map<Key, Receipt>, id: Id) returns (kept: map<Key, Receipt>)
    ensures Table(kept) == ReceiptsOutside(Table(rows), id)
  {
    kept := Sweep(rows, (k: Key, v: Receipt) => v.result.handoff.projectId == id);
  }

  class MemoryStore {
    var projects: map<Id, Project>
    var skills: map<Key, PlainRecord>
    var roles: map<Key, Role>
    var workItems: map<Key, WorkItem>
    var assignments: map<Key, Assignment>
    var artifacts: map<Key, Artifact>
    var evidence: map<Key, Evidence>
    var reviews: map<Key, Review>
    var handoffs: map<Key, Handoff>
    var entries: map<Key, PlainRecord>
    var candidates: map<Key, PlainRecord>
    var receipts: map<Key, Receipt>

    ghost function View(): State
      reads this
    {
      State(Table(projects), Table(skills), Table(roles), Table(workItems), Table(assignments), Table(artifacts),
            Table(evidence), Table(reviews), Table(handoffs), Table(entries), Table(candidates), Table(receipts))
    }

    constructor ()
      ensures View() == EMPTY
    {
      projects, skills, roles, workItems := map[], map[], map[], map[];
      assignments, artifacts, evidence, reviews := map[], map[], map[], map[];
      handoffs, entries, candidates, receipts := map[], map[], map[], map[];
    }

    // -------------------------------------------------------------- projects, roles, work items

    method CreateProject(p: Project) returns (r: Option<Error>)
      modifies this
      ensures Outcome(View(), DoneReply(r)) == StoreModel.CreateProject(old(View()), p)
    {
      if p.id in projects { return Some(Duplicate); }
      projects := projects[p.id := p];
      return None;
    }

    method UpdateProject(p: Project) returns (r: Option<Error>)
      modifies this
      ensures Outcome(View(), DoneReply(r)) == StoreModel.UpdateProject(old(View()), p)
    {
      if p.id !in projects { return Some(NotFound); }
      projects := projects[p.id := p];
      return None;
    }

    method DeleteProject(id: Id) returns (r: Option<Error>)
      modifies this
      ensures Outcome(View(), DoneReply(r)) == StoreModel.DeleteProject(old(View()), id)
    {
      hide StoreModel.Outside, StoreModel.ReceiptsOutside;
      if id !in projects { return Some(NotFound); }
      projects := projects - {id};
      DropPlans(id);
      DropWork(id);
      DropReviews(id);
      return None;
    }

    method DropPlans(id: Id)
      modifies `skills, `roles, `workItems, `entries, `candidates
      ensures Table(skills) == Outside(Table(old(skills)), id) && Table(roles) == Outside(Table(old(roles)), id)
      ensures Table(workItems) == Outside(Table(old(workItems)), id)
      ensures Table(entries) == Outside(Table(old(entries)), id)
        && Table(candidates) == Outside(Table(old(candidates)), id)
    {
      hide StoreModel.Outside;
      skills := DropProject(skills, id);
      workItems := DropProject(workItems, id);
      roles := DropProject(roles, id);
      entries := DropProject(entries, id);
      candidates := DropProject(candidates, id);
    }

    method DropWork(id: Id)
      modifies `assignments, `artifacts, `evidence
      ensures Table(assignments) == Outside(Table(old(assignments)), id)
      ensures Table(artifacts) == Outside(Table(old(artifacts)), id)
      ensures Table(evidence) == Outside(Table(old(evidence)), id)
    {
      hide StoreModel.Outside;
      assignments := DropProject(assignments, id);
      artifacts := DropProject(artifacts, id);
      evidence := DropProject(evidence, id);
    }

    method DropReviews(id: Id)
      modifies `reviews, `handoffs, `receipts
      ensures Table(reviews) == Outside(Table(old(reviews)), id) && Table(handoffs) == Outside(Table(old(handoffs)), id)
      ensures Table(receipts) == ReceiptsOutside(Table(old(receipts)), id)
    {
      hide StoreModel.Outside, StoreModel.ReceiptsOutside;
      reviews := DropProject(reviews, id);
      handoffs := DropProject(handoffs, id);
      receipts := SweepReceipts(receipts, id);
    }

    method CreateProjectSkill(x: PlainRecord) returns (r: Option<Error>)
      modifies this
      ensures Outcome(View(), DoneReply(r)) == CreateSkill(old(View()), x)
    {
      if x.projectId !in projects { return Some(NotFound); }
      if Key(x.projectId, x.id) in skills { return Some(Duplicate); }
      skills := skills[Key(x.projectId, x.id) := x];
      return None;
    }

    method UpdateProjectSkill(x: PlainRecord) returns (r: Option<Error>)
      modifies this
      ensures Outcome(View(), DoneReply(r)) == UpdateSkill(old(View()), x)
    {
      if x.projectId !in projects || Key(x.projectId, x.id) !in skills { return Some(NotFound); }
      skills := skills[Key(x.projectId, x.id) := x];
      return None;
    }

    method CreateMemoryEntry(x: PlainRecord) returns (r: Option<Error>)
      modifies this
      ensures Outcome(View(), DoneReply(r)) == CreateEntry(old(View()), x)
    {
      if x.projectId !in projects { return Some(NotFound); }
      if Key(x.projectId, x.id) in entries { return Some(Duplicate); }
      entries := entries[Key(x.projectId, x.id) := x];
      return None;
    }

    method UpdateMemoryEntry(x: PlainRecord) returns (r: Option<Error>)
      modifies this
      ensures Outcome(View(), DoneReply(r)) == UpdateEntry(old(View()), x)
    {
      if x.projectId !in projects || Key(x.projectId, x.id) !in entries { return Some(NotFound); }
      var existing := entries[Key(x.projectId, x.id)];
      entries := entries[Key(x.projectId, x.id) := x.(createdAt := existing.createdAt)];
      return None;
    }

    method CreateMemoryCandidate(x: PlainRecord) returns (r: Option<Error>)
      modifies this
      ensures Outcome(View(), DoneReply(r)) == CreateCandidate(old(View()), x)
    {
      if x.projectId !in projects { return Some(NotFound); }
      if Key(x.projectId, x.id) in candidates { return Some(Duplicate); }
      candidates := candidates[Key(x.projectId, x.id) := x];
      return None;
    }

    method UpdateMemoryCandidate(x: PlainRecord) returns (r: Option<Error>)
      modifies this
      ensures Outcome(View(), DoneReply(r)) == UpdateCandidate(old(View()), x)
    {
      if x.projectId !in projects || Key(x.projectId, x.id) !in candidates { return Some(NotFound); }
      var existing := candidates[Key(x.projectId, x.id)];
      candidates := candidates[Key(x.projectId, x.id) := x.(createdAt := existing.createdAt)];
      return None;
    }

    method DeleteMemoryEntry(projectId: Id, id: Id) returns (r: Option<Error>)
      modifies this
      ensures Outcome(View(), DoneReply(r)) == DeleteEntry(old(View()), projectId, id)
    {
      if projectId !in projects || Key(projectId, id) !in entries { return Some(NotFound); }
      entries := entries - {Key(projectId, id)};
      return None;
    }

    method DeleteMemoryCandidate(projectId: Id, id: Id) returns (r: Option<Error>)
      modifies this
      ensures Outcome(View(), DoneReply(r)) == DeleteCandidate(old(View()), projectId, id)
    {
      if projectId !in projects || Key(projectId, id) !in candidates { return Some(NotFound); }
      candidates := candidates - {Key(projectId, id)};
      return None;
    }

    method CreateRole(role: Role) returns (r: Option<Error>)
      modifies this
      ensures Outcome(View(), DoneReply(r)) == StoreModel.CreateRole(old(View()), role)
    {
      if role.projectId !in projects { return Some(NotFound); }
      if Key(role.projectId, role.id) in roles { return Some(Duplicate); }
      roles := roles[Key(role.projectId, role.id) := role];
      return None;
    }

    method UpdateRole(role: Role) returns (r: Option<Error>)
      modifies this
      ensures Outcome(View(), DoneReply(r)) == StoreModel.UpdateRole(old(View()), role)
    {
      if role.projectId !in projects { return Some(NotFound); }
      if Key(role.projectId, role.id) !in roles { return Some(NotFound); }
      roles := roles[Key(role.projectId, role.id) := role];
      return None;
    }

    method DeleteRole(projectId: Id, id: Id) returns (r: Option<Error>)
      modifies this
      ensures Outcome(View(), DoneReply(r)) == StoreModel.DeleteRole(old(View()), projectId, id)
    {
      if projectId !in projects { return Some(NotFound); }
      if Key(projectId, id) !in roles { return Some(NotFound); }
      roles := roles - {Key(projectId, id)};
      return None;
    }

    method CreateWorkItem(w: WorkItem) returns (r: Option<Error>)
      modifies this
      ensures Outcome(View(), DoneReply(r)) == StoreModel.CreateWorkItem(old(View()), w)
    {
      if w.projectId !in projects { return Some(NotFound); }
      if Key(w.projectId, w.id) in workItems { return Some(Duplicate); }
      workItems := workItems[Key(w.projectId, w.id) := w];
      return None;
    }

    method UpdateWorkItem(w: WorkItem) returns (r: Option<Error>)
      modifies this
      ensures Outcome(View(), DoneReply(r)) == StoreModel.UpdateWorkItem(old(View()), w)
    {
      if w.projectId !in projects { return Some(NotFound); }
      if Key(w.projectId, w.id) !in workItems { return Some(NotFound); }
      workItems := workItems[Key(w.projectId, w.id) := w];
      return None;
    }

    method SweepFiled(projectId: Id, id: Id)
      modifies `evidence, `artifacts, `reviews, `handoffs
      ensures Table(evidence) == SparedEvidence(Table(old(evidence)), projectId, id)
      ensures Table(artifacts) == SparedArtifacts(Table(old(artifacts)), projectId, id)
      ensures Table(reviews) == SparedReviews(Table(old(reviews)), projectId, id)
      ensures Table(handoffs) == SparedHandoffs(Table(old(handoffs)), projectId, id)
    {
      hide StoreModel.SparedArtifacts, StoreModel.SparedEvidence, StoreModel.SparedReviews, StoreModel.SparedHandoffs;
      evidence := SweepEvidence(evidence, projectId, id);
      artifacts := SweepArtifacts(artifacts, projectId, id);
      reviews := SweepReviews(reviews, projectId, id);
      handoffs := SweepHandoffs(handoffs, projectId, id);
    }

    method DeleteWorkItem(projectId: Id, id: Id) returns (r: Option<Error>)
      modifies this
      ensures Outcome(View(), DoneReply(r)) == StoreModel.DeleteWorkItem(old(View()), projectId, id)
    {
      hide StoreModel.SparedAssignments, StoreModel.SparedArtifacts, StoreModel.SparedEvidence,
        StoreModel.SparedReviews, StoreModel.SparedHandoffs;
      if projectId !in projects { return Some(NotFound); }
      if Key(projectId, id) !in workItems { return Some(NotFound); }
      workItems := workItems - {Key(projectId, id)};
      assignments := SweepAssignments(assignments, projectId, id);
      SweepFiled(projectId, id);
      return None;
    }

    // -------------------------------------------------------------- assignments

    method CreateAssignment(a: Assignment) returns (r: Result<Assignment>)
      modifies this
      ensures Outcome(View(), AsReply(r)) == InsertAssignment(old(View()), a)
    {
      if !ClaimStateOk(a) { return Err(Invalid); }
      if a.projectId !in projects { return Err(NotFound); }
      if Key(a.projectId, a.workItemId) !in workItems { return Err(NotFound); }
      if a.roleId != Blank {
        if Key(a.projectId, a.roleId) !in roles { return Err(NotFound); }
      }
      if Key(a.projectId, a.id) in assignments { return Err(Duplicate); }
      assignments := assignments[Key(a.projectId, a.id) := a];
      return Ok(a);
    }

    method RestoreAssignmentSnapshot(a: Assignment) returns (r: Result<Assignment>)
      modifies this
      ensures Outcome(View(), AsReply(r)) == RestoreAssignment(old(View()), a)
    {
      if !ClaimStateOk(a) { return Err(Invalid); }
      if a.projectId !in projects { return Err(NotFound); }
      if Key(a.projectId, a.workItemId) !in workItems { return Err(NotFound); }
      if Key(a.projectId, a.roleId) !in roles { return Err(NotFound); }
      if Key(a.projectId, a.id) !in assignments { return Err(NotFound); }
      assignments := assignments[Key(a.projectId, a.id) := a];
      return Ok(a);
    }

    method UpdateQueuedAssignment(projectId: Id, id: Id, update: QueuedUpdate, now: Time)
      returns (r: Result<Assignment>)
      modifies this
      ensures Outcome(View(), AsReply(r)) == Transit(Memory, old(View()), projectId, id, UpdateQueued(update), now)
    {
      if projectId !in projects { return Err(NotFound); }
      if Key(projectId, update.replacement.workItemId) !in workItems { return Err(NotFound); }
      if Key(projectId, update.replacement.roleId) !in roles { return Err(NotFound); }
      if Key(projectId, id) !in assignments { return Err(NotFound); }
      var current := assignments[Key(projectId, id)];
      if !SnapshotMatches(current, update) { return Err(Conflict); }
      current := current.(workItemId := update.replacement.workItemId);
      current := current.(roleId := update.replacement.roleId);
      current := current.(rootId := update.replacement.rootId);
      current := current.(executionMode := update.replacement.executionMode);
      current := current.(desiredAgent := update.replacement.desiredAgent);
      current := current.(updatedAt := MemoryStamp(current.updatedAt, current.startedAt, now));
      assignments := assignments[Key(projectId, id) := current];
      return Ok(current);
    }

    method ClaimAssignmentWithLease(projectId: Id, id: Id, claimedBy: Text, claimId: Id, ttl: int, now: Time)
      returns (r: Result<Assignment>)
      modifies this
      ensures Outcome(View(), AsReply(r))
        == Transit(Memory, old(View()), projectId, id, ClaimWithLease(claimedBy, claimId, ttl), now)
    {
      if claimId == Blank || ttl <= 0 { return Err(Invalid); }
      TransitMeans(Memory, View(), projectId, id, ClaimWithLease(claimedBy, claimId, ttl), now);
      hide StoreModel.Transit, AssignmentRules.ArgumentsOk;
      if projectId !in projects { return Err(NotFound); }
      if Key(projectId, id) !in assignments { return Err(NotFound); }
      var item := assignments[Key(projectId, id)];
      if item.status != Queued { return Err(Conflict); }
      var stamp := MemoryStamp(item.updatedAt, item.startedAt, now);
      var lease := ClaimLease(claimId, now, now + ttl);
      item := item.(status := Claimed);
      item := item.(claimedBy := claimedBy);
      item := item.(claim := Some(lease));
      item := item.(updatedAt := stamp);
      if !ClaimStateOk(item) { return Err(Invalid); }
      assignments := assignments[Key(projectId, id) := item];
      return Ok(item);
    }

    method RenewAssignmentClaim(projectId: Id, id: Id, claimId: Id, ttl: int, now: Time) returns (r: Result<Assignment>)
      modifies this
      ensures Outcome(View(), AsReply(r)) == Transit(Memory, old(View()), projectId, id, Renew(claimId, ttl), now)
    {
      if ttl <= 0 { return Err(Invalid); }
      TransitMeans(Memory, View(), projectId, id, Renew(claimId, ttl), now);
      hide StoreModel.Transit, AssignmentRules.ArgumentsOk;
      if projectId !in projects { return Err(NotFound); }
      if Key(projectId, id) !in assignments { return Err(NotFound); }
      var item := assignments[Key(projectId, id)];
      if item.status != Claimed || !AllowsMutation(item, claimId, now) { return Err(Conflict); }
      var claim := item.claim.value;
      var candidateExpiry := now + ttl;
      if claim.expiresAt > candidateExpiry {
        candidateExpiry := claim.expiresAt;
      }
      item := item.(claim := Some(claim.(expiresAt := candidateExpiry)));
      assignments := assignments[Key(projectId, id) := item];
      return Ok(item);
    }

    method RecoverAssignmentClaim(projectId: Id, id: Id, expectedClaimId: Id, now: Time) returns (r: Result<Assignment>)
      modifies this
      ensures Outcome(View(), AsReply(r)) == Transit(Memory, old(View()), projectId, id, Recover(expectedClaimId), now)
    {
      TransitMeans(Memory, View(), projectId, id, Recover(expectedClaimId), now);
      hide StoreModel.Transit, AssignmentRules.ArgumentsOk;
      if projectId !in projects { return Err(NotFound); }
      if Key(projectId, id) !in assignments { return Err(NotFound); }
      var item := assignments[Key(projectId, id)];
      if item.status != Claimed || item.claim.None? || item.claim.value.id != expectedClaimId
         || item.claim.value.expiresAt == ZERO_TIME || item.claim.value.expiresAt > now {
        return Err(Conflict);
      }
      item := item.(status := Queued, claimedBy := Blank, claim := None);
      item := item.(executionRef := EMPTY_REF, contextSnapshotId := Blank);
      item := item.(startedAt := ZERO_TIME, completedAt := ZERO_TIME);
      item := item.(updatedAt := MemoryStamp(item.updatedAt, item.startedAt, now));
      assignments := assignments[Key(projectId, id) := item];
      return Ok(item);
    }

    method PrepareAssignmentWithClaim(projectId: Id, id: Id, claimId: Id, ref: ExecutionRef, contextSnapshotId: Id,
                                      now: Time)
      returns (r: Result<Assignment>)
      modifies this
      ensures Outcome(View(), AsReply(r))
        == Transit(Memory, old(View()), projectId, id, PrepareWithClaim(claimId, ref, contextSnapshotId), now)
    {
      TransitMeans(Memory, View(), projectId, id, PrepareWithClaim(claimId, ref, contextSnapshotId), now);
      hide StoreModel.Transit, AssignmentRules.ArgumentsOk;
      if projectId !in projects { return Err(NotFound); }
      if Key(projectId, id) !in assignments { return Err(NotFound); }
      var item := assignments[Key(projectId, id)];
      if item.status != Claimed || !AllowsMutation(item, claimId, now) { return Err(Conflict); }
      if ref != EMPTY_REF {
        item := item.(executionRef := ref);
      }
      if contextSnapshotId != Blank {
        item := item.(contextSnapshotId := contextSnapshotId);
      }
      item := item.(updatedAt := MemoryStamp(item.updatedAt, item.startedAt, now));
      assignments := assignments[Key(projectId, id) := item];
      return Ok(item);
    }

    method ReleaseAssignmentWithClaim(projectId: Id, id: Id, claimId: Id, now: Time) returns (r: Result<Assignment>)
      modifies this
      ensures Outcome(View(), AsReply(r)) == Transit(Memory, old(View()), projectId, id, ReleaseWithClaim(claimId), now)
    {
      TransitMeans(Memory, View(), projectId, id, ReleaseWithClaim(claimId), now);
      hide StoreModel.Transit, AssignmentRules.ArgumentsOk;
      if projectId !in projects { return Err(NotFound); }
      if Key(projectId, id) !in assignments { return Err(NotFound); }
      var item := assignments[Key(projectId, id)];
      if item.status != Claimed || !AllowsMutation(item, claimId, now) { return Err(Conflict); }
      item := item.(status := Queued, claimedBy := Blank, claim := None);
      item := item.(executionRef := EMPTY_REF, contextSnapshotId := Blank);
      item := item.(startedAt := ZERO_TIME, completedAt := ZERO_TIME);
      item := item.(updatedAt := MemoryStamp(item.updatedAt, item.startedAt, now));
      assignments := assignments[Key(projectId, id) := item];
      return Ok(item);
    }

    method UpdateAssignmentStatusWithClaim(projectId: Id, id: Id, claimId: Id, status: Status, ref: ExecutionRef,
                                           now: Time)
      returns (r: Result<Assignment>)
      modifies this
      ensures Outcome(View(), AsReply(r))
        == Transit(Memory, old(View()), projectId, id, StatusWithClaim(claimId, status, ref), now)
    {
      if !IsProgress(status) { return Err(Invalid); }
      TransitMeans(Memory, View(), projectId, id, StatusWithClaim(claimId, status, ref), now);
      hide StoreModel.Transit, AssignmentRules.ArgumentsOk;
      if projectId !in projects { return Err(NotFound); }
      if Key(projectId, id) !in assignments { return Err(NotFound); }
      var item := assignments[Key(projectId, id)];
      NextByName(Memory, claimId, status, ref, item, now);
      hide AssignmentRules.Progressed, AssignmentRules.Finished, AssignmentRules.ClaimStateOk, AssignmentRules.Stamp;
      hide AssignmentRules.Next;
      if item.status == Queued || IsTerminal(item.status)
        || !AllowsMutation(item, claimId, now) { return Err(Conflict); }
      item := ProgressFenced(item, status, ref, now);
      if !ClaimStateOk(item) { return Err(Invalid); }
      assignments := assignments[Key(projectId, id) := item];
      return Ok(item);
    }

    method CompleteAssignmentWithClaim(projectId: Id, id: Id, claimId: Id, status: Status, ref: ExecutionRef, now: Time)
      returns (r: Result<Assignment>)
      modifies this
      ensures Outcome(View(), AsReply(r))
        == Transit(Memory, old(View()), projectId, id, CompleteWithClaim(claimId, status, ref), now)
    {
      if !IsCompletion(status) { return Err(Invalid); }
      TransitMeans(Memory, View(), projectId, id, CompleteWithClaim(claimId, status, ref), now);
      hide StoreModel.Transit, AssignmentRules.ArgumentsOk;
      if projectId !in projects { return Err(NotFound); }
      if Key(projectId, id) !in assignments { return Err(NotFound); }
      var item := assignments[Key(projectId, id)];
      NextByName(Memory, claimId, status, ref, item, now);
      hide AssignmentRules.Progressed, AssignmentRules.Finished, AssignmentRules.ClaimStateOk, AssignmentRules.Stamp;
      hide AssignmentRules.Next;
      if IsTerminal(item.status) { return Err(Conflict); }
      if item.status == Queued || !AllowsMutation(item, claimId, now) { return Err(Conflict); }
      item := Finish(item, status, ref, now);
      if !ClaimStateOk(item) { return Err(Invalid); }
      assignments := assignments[Key(projectId, id) := item];
      return Ok(item);
    }

    method ClaimAssignment(projectId: Id, id: Id, claimedBy: Text, now: Time) returns (r: Result<Assignment>)
      modifies this
      ensures Outcome(View(), AsReply(r)) == Transit(Memory, old(View()), projectId, id, HostClaim(claimedBy), now)
    {
      TransitMeans(Memory, View(), projectId, id, HostClaim(claimedBy), now);
      hide StoreModel.Transit, AssignmentRules.ArgumentsOk;
      if projectId !in projects { return Err(NotFound); }
      if Key(projectId, id) !in assignments { return Err(NotFound); }
      var item := assignments[Key(projectId, id)];
      if item.status != Queued { return Err(Conflict); }
      var stamp := MemoryStamp(item.updatedAt, item.startedAt, now);
      item := item.(status := Claimed, claimedBy := claimedBy, claim := None, updatedAt := stamp);
      assignments := assignments[Key(projectId, id) := item];
      return Ok(item);
    }

    method PrepareAssignment(projectId: Id, id: Id, claimedBy: Text, ref: ExecutionRef, contextSnapshotId: Id,
                             now: Time)
      returns (r: Result<Assignment>)
      modifies this
      ensures Outcome(View(), AsReply(r))
        == Transit(Memory, old(View()), projectId, id, HostPrepare(claimedBy, ref, contextSnapshotId), now)
    {
      TransitMeans(Memory, View(), projectId, id, HostPrepare(claimedBy, ref, contextSnapshotId), now);
      hide StoreModel.Transit, AssignmentRules.ArgumentsOk;
      if projectId !in projects { return Err(NotFound); }
      if Key(projectId, id) !in assignments { return Err(NotFound); }
      var item := assignments[Key(projectId, id)];
      if item.status != Claimed || item.claimedBy != claimedBy { return Err(Conflict); }
      if ref != EMPTY_REF {
        item := item.(executionRef := ref);
      }
      if contextSnapshotId != Blank {
        item := item.(contextSnapshotId := contextSnapshotId);
      }
      item := item.(updatedAt := MemoryStamp(item.updatedAt, item.startedAt, now));
      assignments := assignments[Key(projectId, id) := item];
      return Ok(item);
    }

    method ReleaseAssignment(projectId: Id, id: Id, claimedBy: Text, now: Time) returns (r: Result<Assignment>)
      modifies this
      ensures Outcome(View(), AsReply(r)) == Transit(Memory, old(View()), projectId, id, HostRelease(claimedBy), now)
    {
      TransitMeans(Memory, View(), projectId, id, HostRelease(claimedBy), now);
      hide StoreModel.Transit, AssignmentRules.ArgumentsOk;
      if projectId !in projects { return Err(NotFound); }
      if Key(projectId, id) !in assignments { return Err(NotFound); }
      var item := assignments[Key(projectId, id)];
      if item.status != Claimed || item.claimedBy != claimedBy { return Err(Conflict); }
      var stamp := MemoryStamp(item.updatedAt, item.startedAt, now);
      item := item.(status := Queued, claimedBy := Blank, claim := None);
      item := item.(executionRef := EMPTY_REF, contextSnapshotId := Blank);
      item := item.(startedAt := ZERO_TIME, completedAt := ZERO_TIME, updatedAt := stamp);
      assignments := assignments[Key(projectId, id) := item];
      return Ok(item);
    }

    method CompleteAssignment(projectId: Id, id: Id, status: Status, ref: ExecutionRef, now: Time)
      returns (r: Result<Assignment>)
      modifies this
      ensures Outcome(View(), AsReply(r)) == Transit(Memory, old(View()), projectId, id, HostComplete(status, ref), now)
    {
      if !IsCompletion(status) { return Err(Invalid); }
      TransitMeans(Memory, View(), projectId, id, HostComplete(status, ref), now);
      hide StoreModel.Transit, AssignmentRules.ArgumentsOk;
      if projectId !in projects { return Err(NotFound); }
      if Key(projectId, id) !in assignments { return Err(NotFound); }
      var item := assignments[Key(projectId, id)];
      NextByName(Memory, Blank, status, ref, item, now);
      hide AssignmentRules.Progressed, AssignmentRules.Finished, AssignmentRules.ClaimStateOk, AssignmentRules.Stamp;
      hide AssignmentRules.Next;
      if IsTerminal(item.status) { return Err(Conflict); }
      item := Finish(item, status, ref, now);
      if !ClaimStateOk(item) { return Err(Invalid); }
      assignments := assignments[Key(projectId, id) := item];
      return Ok(item);
    }

    method UpdateAssignmentStatus(projectId: Id, id: Id, status: Status, ref: ExecutionRef, now: Time)
      returns (r: Result<Assignment>)
      modifies this
      ensures Outcome(View(), AsReply(r)) == Transit(Memory, old(View()), projectId, id, HostStatus(status, ref), now)
    {
      if !IsProgress(status) { return Err(Invalid); }
      TransitMeans(Memory, View(), projectId, id, HostStatus(status, ref), now);
      hide StoreModel.Transit, AssignmentRules.ArgumentsOk;
      if projectId !in projects { return Err(NotFound); }
      if Key(projectId, id) !in assignments { return Err(NotFound); }
      var item := assignments[Key(projectId, id)];
      NextByName(Memory, Blank, status, ref, item, now);
      hide AssignmentRules.Progressed, AssignmentRules.Finished, AssignmentRules.ClaimStateOk, AssignmentRules.Stamp;
      hide AssignmentRules.Next;
      if item.status == Queued || IsTerminal(item.status) { return Err(Conflict); }
      item := Progress(item, status, ref, now);
      if !ClaimStateOk(item) { return Err(Invalid); }
      assignments := assignments[Key(projectId, id) := item];
      return Ok(item);
    }

    method DeleteAssignment(projectId: Id, id: Id) returns (r: Option<Error>)
      modifies this
      ensures Outcome(View(), DoneReply(r)) == StoreModel.DeleteAssignment(old(View()), projectId, id)
    {
      if projectId !in projects { return Some(NotFound); }
      if Key(projectId, id) !in assignments { return Some(NotFound); }
      assignments := assignments - {Key(projectId, id)};
      artifacts := SweepArtifactsOf(artifacts, projectId, id);
      reviews := SweepReviewsOf(reviews, projectId, id);
      return None;
    }

    // -------------------------------------------------------------- artifacts, evidence, reviews

    method CreateArtifact(x: Artifact) returns (r: Option<Error>)
      modifies this
      ensures Outcome(View(), DoneReply(r)) == StoreModel.CreateArtifact(old(View()), x)
    {
      if x.projectId !in projects || Key(x.projectId, x.workItemId) !in workItems { return Some(NotFound); }
      if x.assignmentId != Blank {
        if Key(x.projectId, x.assignmentId) !in assignments
           || assignments[Key(x.projectId, x.assignmentId)].workItemId != x.workItemId {
          return Some(NotFound);
        }
      }
      if x.authorRoleId != Blank && Key(x.projectId, x.authorRoleId) !in roles { return Some(NotFound); }
      if Key(x.projectId, x.id) in artifacts { return Some(Duplicate); }
      artifacts := artifacts[Key(x.projectId, x.id) := x];
      return None;
    }

    method CreateEvidence(x: Evidence) returns (r: Option<Error>)
      modifies this
      ensures Outcome(View(), DoneReply(r)) == StoreModel.CreateEvidence(old(View()), x)
    {
      if x.projectId !in projects || Key(x.projectId, x.workItemId) !in workItems { return Some(NotFound); }
      if x.assignmentId != Blank {
        if Key(x.projectId, x.assignmentId) !in assignments
           || assignments[Key(x.projectId, x.assignmentId)].workItemId != x.workItemId {
          return Some(NotFound);
        }
      }
      if Key(x.projectId, x.id) in evidence { return Some(Duplicate); }
      evidence := evidence[Key(x.projectId, x.id) := x];
      return None;
    }

    method CreateReview(x: Review) returns (r: Option<Error>)
      modifies this
      ensures Outcome(View(), DoneReply(r)) == StoreModel.CreateReview(old(View()), x)
    {
      if x.projectId !in projects || Key(x.projectId, x.workItemId) !in workItems { return Some(NotFound); }
      if x.assignmentId != Blank {
        if Key(x.projectId, x.assignmentId) !in assignments
           || assignments[Key(x.projectId, x.assignmentId)].workItemId != x.workItemId {
          return Some(NotFound);
        }
      }
      if x.reviewerRoleId != Blank && Key(x.projectId, x.reviewerRoleId) !in roles { return Some(NotFound); }
      if Key(x.projectId, x.id) in reviews { return Some(Duplicate); }
      reviews := reviews[Key(x.projectId, x.id) := x];
      return None;
    }

    // -------------------------------------------------------------- handoffs

    /** `validateHandoffLocked`. */
    method ValidateHandoff(h: Handoff) returns (r: Option<Error>)
      ensures r == if HandoffRefsOk(View(), h) then None else Some(NotFound)
    {
      if h.projectId !in projects || Key(h.projectId, h.workItemId) !in workItems { return Some(NotFound); }
      if h.fromRoleId != Blank && Key(h.projectId, h.fromRoleId) !in roles { return Some(NotFound); }
      if h.toRoleId != Blank && Key(h.projectId, h.toRoleId) !in roles { return Some(NotFound); }
      if h.sourceAssignmentId != Blank {
        if Key(h.projectId, h.sourceAssignmentId) !in assignments
           || assignments[Key(h.projectId, h.sourceAssignmentId)].workItemId != h.workItemId {
          return Some(NotFound);
        }
      }
      if h.targetAssignmentId != Blank {
        if Key(h.projectId, h.targetAssignmentId) !in assignments { return Some(NotFound); }
        if h.targetWorkItemId != Blank
           && assignments[Key(h.projectId, h.targetAssignmentId)].workItemId != h.targetWorkItemId {
          return Some(NotFound);
        }
      }
      if h.targetWorkItemId != Blank && Key(h.projectId, h.targetWorkItemId) !in workItems { return Some(NotFound); }
      return None;
    }

    method CreateHandoff(h: Handoff) returns (r: Result<Handoff>)
      modifies this
      ensures Outcome(View(), HandoffReply(r)) == InsertHandoff(old(View()), h)
    {
      var invalid := ValidateHandoff(h);
      if invalid.Some? { return Err(invalid.value); }
      if Key(h.projectId, h.id) in handoffs { return Err(Duplicate); }
      handoffs := handoffs[Key(h.projectId, h.id) := h];
      return Ok(h);
    }

    method RestoreHandoffSnapshot(h: Handoff) returns (r: Result<Handoff>)
      modifies this
      ensures Outcome(View(), HandoffReply(r)) == RestoreHandoff(old(View()), h)
    {
      var invalid := ValidateHandoff(h);
      if invalid.Some? { return Err(invalid.value); }
      if Key(h.projectId, h.id) !in handoffs || handoffs[Key(h.projectId, h.id)].workItemId != h.workItemId {
        return Err(NotFound);
      }
      handoffs := handoffs[Key(h.projectId, h.id) := h];
      return Ok(h);
    }

    method UpdateHandoff(projectId: Id, workItemId: Id, id: Id, update: HandoffUpdate, now: Time)
      returns (r: Result<Handoff>)
      modifies this
      ensures Outcome(View(), HandoffReply(r)) == PatchHandoff(old(View()), projectId, workItemId, id, update, now)
    {
      if projectId !in projects || Key(projectId, workItemId) !in workItems { return Err(NotFound); }
      if Key(projectId, id) !in handoffs
        || handoffs[Key(projectId, id)].workItemId != workItemId { return Err(NotFound); }
      var current := handoffs[Key(projectId, id)];
      if current.updatedAt != update.expectedUpdatedAt { return Err(Conflict); }
      var replacement := ApplyPatch(update.patch, current);
      if SameContent(current, replacement) { return Ok(current); }
      var invalid := ValidateHandoff(replacement);
      if invalid.Some? { return Err(invalid.value); }
      replacement := replacement.(createdAt := current.createdAt);
      var stamp := HandoffTransitionTime(current, now);
      replacement := replacement.(updatedAt := stamp);
      replacement := replacement.(statusChangedAt := current.statusChangedAt);
      if replacement.statusChangedAt == ZERO_TIME {
        replacement := replacement.(statusChangedAt := current.createdAt);
      }
      if replacement.status != current.status {
        replacement := replacement.(statusChangedAt := replacement.updatedAt);
      }
      handoffs := handoffs[Key(projectId, id) := replacement];
      return Ok(replacement);
    }

    method DeleteHandoff(projectId: Id, workItemId: Id, id: Id, expectedUpdatedAt: Time) returns (r: Option<Error>)
      modifies this
      ensures Outcome(View(), DoneReply(r))
        == StoreModel.DeleteHandoff(old(View()), projectId, workItemId, id, expectedUpdatedAt)
    {
      if projectId !in projects || Key(projectId, workItemId) !in workItems { return Some(NotFound); }
      if Key(projectId, id) !in handoffs
        || handoffs[Key(projectId, id)].workItemId != workItemId { return Some(NotFound); }
      if handoffs[Key(projectId, id)].updatedAt != expectedUpdatedAt { return Some(Conflict); }
      handoffs := handoffs - {Key(projectId, id)};
      return None;
    }

    method ReplayReceipt(c: AcceptCommand, receipt: Receipt) returns (r: Result<FollowUpResult>)
      ensures Outcome(View(), FollowUpReply(r)) == Replay(View(), c, receipt)
    {
      if receipt.request != Request(c) { return Err(Conflict); }
      var hk := Key(c.projectId, receipt.result.handoff.id);
      var ak := Key(c.projectId, receipt.result.assignment.id);
      if hk !in handoffs || ak !in assignments
         || handoffs[hk].status != Accepted
         || handoffs[hk].targetAssignmentId != assignments[ak].id
         || handoffs[hk].targetWorkItemId != assignments[ak].workItemId
         || handoffs[hk].toRoleId != assignments[ak].roleId {
        return Err(Conflict);
      }
      return Ok(receipt.result.(handoff := handoffs[hk], assignment := assignments[ak], replayed := true));
    }

    method SettleFollowUp(c: AcceptCommand, h: Handoff, assignment: Assignment, outcome: FollowUpOutcome, now: Time)
      returns (result: FollowUpResult)
      modifies `handoffs, `receipts
      ensures Outcome(View(), FollowedUp(result)) == Settle(old(View()), c, h, assignment, outcome, now)
    {
      var current := h;
      if outcome != AlreadySatisfied {
        var previousStatus := current.status;
        current := current.(status := Accepted);
        var stamp := HandoffTransitionTime(current, now);
        current := current.(updatedAt := stamp);
        if previousStatus != current.status {
          current := current.(statusChangedAt := current.updatedAt);
        }
        handoffs := handoffs[Key(c.projectId, c.handoffId) := current];
      }
      result := FollowUpResult(current, assignment, outcome, false);
      receipts := receipts[Key(c.projectId, c.idempotencyKey) := Receipt(Request(c), result)];
    }

    method LinkFollowUp(c: AcceptCommand, h: Handoff, now: Time) returns (r: Result<FollowUpResult>)
      requires h.targetAssignmentId != Blank
      modifies `handoffs, `receipts
      ensures Outcome(View(), FollowUpReply(r)) == LinkExisting(old(View()), c, h, now)
    {
      hide StoreModel.Settle;
      if Key(c.projectId, h.targetAssignmentId) !in assignments { return Err(Conflict); }
      var linked := assignments[Key(c.projectId, h.targetAssignmentId)];
      if linked.roleId != h.toRoleId || (h.targetWorkItemId != Blank && linked.workItemId != h.targetWorkItemId) {
        return Err(Conflict);
      }
      if Key(c.projectId, linked.workItemId) !in workItems { return Err(Conflict); }
      var outcome := LinkedExisting;
      if h.status == Accepted && h.targetWorkItemId == linked.workItemId {
        outcome := AlreadySatisfied;
      }
      var result := SettleFollowUp(c, h.(targetWorkItemId := linked.workItemId), linked, outcome, now);
      return Ok(result);
    }

    method QueueFollowUp(c: AcceptCommand, newAssignmentId: Id, h: Handoff, role: Role, created: Time, now: Time)
      returns (r: Result<FollowUpResult>)
      modifies `assignments, `handoffs, `receipts
      ensures Outcome(View(), FollowUpReply(r))
        == CreateFollowUp(old(View()), c, newAssignmentId, h, role, created, now)
    {
      hide StoreModel.Settle;
      var targetWorkItemId := h.targetWorkItemId;
      if targetWorkItemId == Blank {
        targetWorkItemId := h.workItemId;
      }
      if Key(c.projectId, targetWorkItemId) !in workItems { return Err(NotFound); }
      var workItem := workItems[Key(c.projectId, targetWorkItemId)];
      if workItem.rootId != Blank {
        if c.projectId !in projects { return Err(NotFound); }
        var found := ProjectHasRoot(projects[c.projectId], workItem.rootId);
        if !found { return Err(NotFound); }
      }
      var assignment := NewFollowUp(c, newAssignmentId, workItem, targetWorkItemId, role, h.toRoleId, created);
      if Key(c.projectId, assignment.id) in assignments { return Err(Duplicate); }
      assignments := assignments[Key(c.projectId, assignment.id) := assignment];
      var result := SettleFollowUp(c, h.(targetAssignmentId := assignment.id, targetWorkItemId := targetWorkItemId),
                                   assignment, CreatedFollowUp, now);
      return Ok(result);
    }

    method AcceptHandoffWithFollowUp(c: AcceptCommand, newAssignmentId: Id, created: Time, now: Time)
      returns (r: Result<FollowUpResult>)
      modifies this
      ensures Outcome(View(), FollowUpReply(r)) == AcceptHandoff(old(View()), c, newAssignmentId, created, now)
    {
      hide StoreModel.LinkExisting, StoreModel.CreateFollowUp, StoreModel.Replay;
      var receiptKey := Key(c.projectId, c.idempotencyKey);
      if receiptKey in receipts {
        r := ReplayReceipt(c, receipts[receiptKey]);
        return;
      }
      var handoffKey := Key(c.projectId, c.handoffId);
      if handoffKey !in handoffs || handoffs[handoffKey].workItemId != c.workItemId { return Err(NotFound); }
      var current := handoffs[handoffKey];
      if current.updatedAt != c.expectedUpdatedAt { return Err(Conflict); }
      if current.status == Dismissed || current.status == Superseded { return Err(Conflict); }
      if current.toRoleId == Blank { return Err(Invalid); }
      if Key(c.projectId, current.toRoleId) !in roles { return Err(NotFound); }
      var role := roles[Key(c.projectId, current.toRoleId)];
      if current.targetAssignmentId != Blank {
        r := LinkFollowUp(c, current, now);
      } else {
        r := QueueFollowUp(c, newAssignmentId, current, role, created, now);
      }
    }
  }
}
