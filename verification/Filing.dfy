/** Every record is filed under its own project and id, in every reachable state. */
module Filing {
  import opened Domain
  import opened AssignmentRules
  import opened StoreModel

  predicate Filed(s: State) {
    && (forall k :: k in s.projects.rows ==> s.projects.rows[k].id == k)
    && (forall k :: k in s.skills.rows ==> k == Key(s.skills.rows[k].projectId, s.skills.rows[k].id))
    && (forall k :: k in s.roles.rows ==> k == Key(s.roles.rows[k].projectId, s.roles.rows[k].id))
    && (forall k :: k in s.workItems.rows ==> k == Key(s.workItems.rows[k].projectId, s.workItems.rows[k].id))
    && (forall k :: k in s.assignments.rows ==> k == Key(s.assignments.rows[k].projectId, s.assignments.rows[k].id))
    && (forall k :: k in s.artifacts.rows ==> k == Key(s.artifacts.rows[k].projectId, s.artifacts.rows[k].id))
    && (forall k :: k in s.evidence.rows ==> k == Key(s.evidence.rows[k].projectId, s.evidence.rows[k].id))
    && (forall k :: k in s.reviews.rows ==> k == Key(s.reviews.rows[k].projectId, s.reviews.rows[k].id))
    && (forall k :: k in s.handoffs.rows ==> k == Key(s.handoffs.rows[k].projectId, s.handoffs.rows[k].id))
    && (forall k :: k in s.entries.rows ==> k == Key(s.entries.rows[k].projectId, s.entries.rows[k].id))
    && (forall k :: k in s.candidates.rows ==> k == Key(s.candidates.rows[k].projectId, s.candidates.rows[k].id))
  }

  lemma StepKeepsFiling(s: State, e: Event)
    requires Filed(s)
    ensures Filed(Apply(s, e).state)
  {
    hide Filed, StoreModel.ApplyPlain, StoreModel.Transit, StoreModel.AcceptHandoff,
      StoreModel.PatchHandoff, StoreModel.DeleteWorkItem,
      StoreModel.DeleteProject, StoreModel.CreateAssignment, StoreModel.DeleteAssignment;
    match e.op
    case OpTransit(p, id, t) => TransitKeepsFiling(s, p, id, t, e.now);
    case OpAcceptHandoff(c, newId, created) => AcceptKeepsFiling(s, c, newId, created, e.now);
    case OpPatchHandoff(p, w, id, u) => PatchKeepsFiling(s, p, w, id, u, e.now);
    case OpDeleteWorkItem(p, id) => SweepsKeepFiling(s, e);
    case OpDeleteProject(id) => SweepsKeepFiling(s, e);
    case OpDeleteAssignment(p, id) => SweepsKeepFiling(s, e);
    case OpCreateArtifact(x) => ArtifactKeepsFiling(s, x);
    case OpCreateEvidence(x) => EvidenceKeepsFiling(s, x);
    case OpCreateReview(x) => ReviewKeepsFiling(s, x);
    case OpCreateHandoff(h) => HandoffKeepsFiling(s, FreshHandoff(h, e.now));
    case OpDeleteHandoff(p, w, id, t) => HandoffDeletionKeepsFiling(s, p, w, id, t);
    case OpPlain(p) => PlainKeepsFiling(s, p);
    case _ => StructureKeepsFiling(s, e);
  }

  lemma TransitKeepsFiling(s: State, projectId: Id, id: Id, t: Transition, now: Time)
    requires Filed(s)
    ensures Filed(Transit(Memory, s, projectId, id, t, now).state)
  {
  }

  lemma AcceptKeepsFiling(s: State, c: AcceptCommand, newId: Id, created: Time, now: Time)
    requires Filed(s)
    ensures Filed(AcceptHandoff(s, c, newId, created, now).state)
  {
    hide StoreModel.LinkExisting, StoreModel.CreateFollowUp;
    if HandoffFiled(s, c.projectId, c.workItemId, c.handoffId) {
      var h := s.handoffs.rows[Key(c.projectId, c.handoffId)];
      if h.targetAssignmentId != Blank {
        LinkKeepsFiling(s, c, h, now);
      } else if Key(c.projectId, h.toRoleId) in s.roles.rows {
        FollowUpKeepsFiling(s, c, newId, h, s.roles.rows[Key(c.projectId, h.toRoleId)], created, now);
      }
    }
  }

  lemma LinkKeepsFiling(s: State, c: AcceptCommand, h: Handoff, now: Time)
    requires Filed(s) && h.targetAssignmentId != Blank && Key(h.projectId, h.id) == Key(c.projectId, c.handoffId)
    ensures Filed(LinkExisting(s, c, h, now).state)
  {
  }

  lemma FollowUpKeepsFiling(s: State, c: AcceptCommand, newId: Id, h: Handoff, r: Role, created: Time, now: Time)
    requires Filed(s) && Key(h.projectId, h.id) == Key(c.projectId, c.handoffId)
    ensures Filed(CreateFollowUp(s, c, newId, h, r, created, now).state)
  {
  }

  lemma PatchKeepsFiling(s: State, projectId: Id, workItemId: Id, id: Id, u: HandoffUpdate, now: Time)
    requires Filed(s)
    ensures Filed(PatchHandoff(s, projectId, workItemId, id, u, now).state)
  {
  }

  lemma SweepsKeepFiling(s: State, e: Event)
    requires Filed(s)
    requires e.op.OpDeleteWorkItem? || e.op.OpDeleteProject? || e.op.OpDeleteAssignment?
    ensures Filed(Apply(s, e).state)
  {
  }

  lemma PlainKeepsFiling(s: State, op: PlainOp)
    requires Filed(s)
    ensures Filed(ApplyPlain(s, op).state)
  {
  }

  lemma ArtifactKeepsFiling(s: State, x: Artifact)
    requires Filed(s)
    ensures Filed(CreateArtifact(s, x).state)
  {
  }

  lemma EvidenceKeepsFiling(s: State, x: Evidence)
    requires Filed(s)
    ensures Filed(CreateEvidence(s, x).state)
  {
  }

  lemma ReviewKeepsFiling(s: State, x: Review)
    requires Filed(s)
    ensures Filed(CreateReview(s, x).state)
  {
  }

  lemma HandoffKeepsFiling(s: State, h: Handoff)
    requires Filed(s)
    ensures Filed(InsertHandoff(s, h).state)
  {
  }

  lemma HandoffDeletionKeepsFiling(s: State, projectId: Id, workItemId: Id, id: Id, expectedUpdatedAt: Time)
    requires Filed(s)
    ensures Filed(DeleteHandoff(s, projectId, workItemId, id, expectedUpdatedAt).state)
  {
  }

  lemma StructureKeepsFiling(s: State, e: Event)
    requires Filed(s)
    requires e.op.OpCreateProject? || e.op.OpUpdateProject? || e.op.OpCreateRole? || e.op.OpUpdateRole?
          || e.op.OpDeleteRole? || e.op.OpCreateWorkItem? || e.op.OpUpdateWorkItem? || e.op.OpCreateAssignment?
    ensures Filed(Apply(s, e).state)
  {
  }

  lemma {:induction false} FiledInEveryRun(run: seq<Event>, i: nat)
    requires i <= |run|
    ensures Filed(At(run, i))
  {
    if i > 0 {
      FiledInEveryRun(run, i - 1);
      StepKeepsFiling(At(run, i - 1), run[i - 1]);
    }
  }
}
