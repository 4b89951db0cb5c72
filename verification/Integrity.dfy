/** Referential integrity of every reachable state. */
module Integrity {
  import opened Domain
  import opened AssignmentRules
  import opened HandoffRules
  import opened StoreModel

  /** Everything filed under a work item has its work item, and every aimed handoff its
      target work item; everything filed under a project has its project. */
  predicate RefsOk(s: State) {
    var w := s.workItems.rows.Keys;
    && Scoped(w, s.projects.rows.Keys)
    && Scoped(s.roles.rows.Keys, s.projects.rows.Keys)
    && Scoped(s.skills.rows.Keys, s.projects.rows.Keys)
    && Scoped(s.entries.rows.Keys, s.projects.rows.Keys)
    && Scoped(s.candidates.rows.Keys, s.projects.rows.Keys)
    && AssignmentsFiled(s.assignments.rows, w)
    && ArtifactsFiled(s.artifacts.rows, w)
    && EvidenceFiled(s.evidence.rows, w)
    && ReviewsFiled(s.reviews.rows, w)
    && HandoffsFiled(s.handoffs.rows, w)
  }

  predicate Scoped(keys: set<Key>, projects: set<Id>) {
    forall k :: k in keys ==> k.project in projects
  }

  predicate AssignmentsFiled(rows: map<Key, Assignment>, w: set<Key>) {
    forall k :: k in rows ==> Key(k.project, rows[k].workItemId) in w
  }

  predicate ArtifactsFiled(rows: map<Key, Artifact>, w: set<Key>) {
    forall k :: k in rows ==> Key(k.project, rows[k].workItemId) in w
  }

  predicate EvidenceFiled(rows: map<Key, Evidence>, w: set<Key>) {
    forall k :: k in rows ==> Key(k.project, rows[k].workItemId) in w
  }

  predicate ReviewsFiled(rows: map<Key, Review>, w: set<Key>) {
    forall k :: k in rows ==> Key(k.project, rows[k].workItemId) in w
  }

  predicate HandoffsFiled(rows: map<Key, Handoff>, w: set<Key>) {
    forall k :: k in rows ==> HandoffRefs(w, k, rows[k])
  }

  predicate HandoffRefs(workItems: set<Key>, k: Key, h: Handoff) {
    && h.projectId == k.project
    && Key(k.project, h.workItemId) in workItems
    && (h.targetWorkItemId != Blank ==> Key(k.project, h.targetWorkItemId) in workItems)
  }

  lemma StepKeepsRefs(s: State, e: Event)
    requires RefsOk(s)
    ensures RefsOk(Apply(s, e).state)
  {
    hide RefsOk, StoreModel.ApplyPlain, StoreModel.Transit, StoreModel.AcceptHandoff,
      StoreModel.PatchHandoff, StoreModel.DeleteWorkItem,
      StoreModel.DeleteProject, StoreModel.CreateAssignment, StoreModel.DeleteAssignment;
    match e.op
    case OpTransit(p, id, t) => TransitKeepsRefs(s, p, id, t, e.now);
    case OpAcceptHandoff(c, newId, created) => AcceptKeepsRefs(s, c, newId, created, e.now);
    case OpPatchHandoff(p, w, id, u) => PatchKeepsRefs(s, p, w, id, u, e.now);
    case OpDeleteWorkItem(p, id) => WorkItemSweepKeepsRefs(s, p, id);
    case OpDeleteProject(id) => ProjectSweepKeepsRefs(s, id);
    case OpCreateAssignment(a) => CreationKeepsRefs(s, a, e.now);
    case OpDeleteAssignment(p, id) => DeletionKeepsRefs(s, p, id);
    case OpCreateArtifact(_) => RecordsKeepRefs(s, e);
    case OpCreateEvidence(_) => RecordsKeepRefs(s, e);
    case OpCreateReview(_) => RecordsKeepRefs(s, e);
    case OpCreateHandoff(_) => HandoffsKeepRefs(s, e);
    case OpDeleteHandoff(_, _, _, _) => HandoffsKeepRefs(s, e);
    case OpPlain(p) => PlainKeepsRefs(s, p);
    case _ => StructureKeepsRefs(s, e);
  }

  /** Reassigning queued work checks the new work item before it moves. */
  lemma TransitKeepsRefs(s: State, projectId: Id, id: Id, t: Transition, now: Time)
    requires RefsOk(s)
    ensures RefsOk(Transit(Memory, s, projectId, id, t, now).state)
  {
    hide Scoped, ArtifactsFiled, EvidenceFiled, ReviewsFiled, HandoffsFiled;
  }

  lemma AcceptKeepsRefs(s: State, c: AcceptCommand, newId: Id, created: Time, now: Time)
    requires RefsOk(s)
    ensures RefsOk(AcceptHandoff(s, c, newId, created, now).state)
  {
    hide StoreModel.LinkExisting, StoreModel.CreateFollowUp;
    if HandoffFiled(s, c.projectId, c.workItemId, c.handoffId) {
      var h := s.handoffs.rows[Key(c.projectId, c.handoffId)];
      if h.targetAssignmentId != Blank {
        LinkKeepsRefs(s, c, h, now);
      } else if Key(c.projectId, h.toRoleId) in s.roles.rows {
        FollowUpKeepsRefs(s, c, newId, h, s.roles.rows[Key(c.projectId, h.toRoleId)], created, now);
      }
    }
  }

  lemma LinkKeepsRefs(s: State, c: AcceptCommand, h: Handoff, now: Time)
    requires RefsOk(s) && h.targetAssignmentId != Blank
    requires HandoffRefs(s.workItems.rows.Keys, Key(c.projectId, c.handoffId), h)
    ensures RefsOk(LinkExisting(s, c, h, now).state)
  {
  }

  lemma FollowUpKeepsRefs(s: State, c: AcceptCommand, newId: Id, h: Handoff, r: Role, created: Time, now: Time)
    requires RefsOk(s) && HandoffRefs(s.workItems.rows.Keys, Key(c.projectId, c.handoffId), h)
    ensures RefsOk(CreateFollowUp(s, c, newId, h, r, created, now).state)
  {
  }

  lemma PatchKeepsRefs(s: State, projectId: Id, workItemId: Id, id: Id, u: HandoffUpdate, now: Time)
    requires RefsOk(s)
    ensures RefsOk(PatchHandoff(s, projectId, workItemId, id, u, now).state)
  {
  }

  lemma WorkItemSweepKeepsRefs(s: State, projectId: Id, id: Id)
    requires RefsOk(s)
    ensures RefsOk(DeleteWorkItem(s, projectId, id).state)
  {
  }

  lemma ProjectSweepKeepsRefs(s: State, id: Id)
    requires RefsOk(s)
    ensures RefsOk(DeleteProject(s, id).state)
  {
  }

  lemma CreationKeepsRefs(s: State, a: Assignment, now: Time)
    requires RefsOk(s)
    ensures RefsOk(CreateAssignment(s, a, now).state)
  {
  }

  lemma DeletionKeepsRefs(s: State, projectId: Id, id: Id)
    requires RefsOk(s)
    ensures RefsOk(DeleteAssignment(s, projectId, id).state)
  {
  }

  lemma StructureKeepsRefs(s: State, e: Event)
    requires RefsOk(s)
    requires e.op.OpCreateProject? || e.op.OpUpdateProject? || e.op.OpCreateRole? || e.op.OpUpdateRole?
          || e.op.OpDeleteRole? || e.op.OpCreateWorkItem? || e.op.OpUpdateWorkItem?
    ensures RefsOk(Apply(s, e).state)
  {
  }

  lemma PlainKeepsRefs(s: State, op: PlainOp)
    requires RefsOk(s)
    ensures RefsOk(ApplyPlain(s, op).state)
  {
  }

  lemma RecordsKeepRefs(s: State, e: Event)
    requires RefsOk(s)
    requires e.op.OpCreateArtifact? || e.op.OpCreateEvidence? || e.op.OpCreateReview?
    ensures RefsOk(Apply(s, e).state)
  {
  }

  lemma HandoffsKeepRefs(s: State, e: Event)
    requires RefsOk(s)
    requires e.op.OpCreateHandoff? || e.op.OpDeleteHandoff?
    ensures RefsOk(Apply(s, e).state)
  {
  }

  /** In every reachable state every reference to a work item resolves. */
  lemma {:induction false} RefsInEveryRun(run: seq<Event>, i: nat)
    requires i <= |run|
    ensures RefsOk(At(run, i))
  {
    if i > 0 {
      RefsInEveryRun(run, i - 1);
      StepKeepsRefs(At(run, i - 1), run[i - 1]);
    }
  }
}
