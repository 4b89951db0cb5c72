/** Snapshot import as a fold over records: what one record does to the store, stated
    through a uniform view of the store as slots holding records. */
module SnapshotModel {
  import opened Domain
  import opened AssignmentRules
  import opened StoreModel

  /** One item of a snapshot, of any family. */
  datatype Record =
    | ProjectRec(project: Project)
    | SkillRec(skill: PlainRecord)
    | RoleRec(role: Role)
    | WorkItemRec(workItem: WorkItem)
    | AssignmentRec(assignment: Assignment)
    | ArtifactRec(artifact: Artifact)
    | EvidenceRec(evidence: Evidence)
    | ReviewRec(review: Review)
    | HandoffRec(handoff: Handoff)
    | EntryRec(entry: PlainRecord)
    | CandidateRec(candidate: PlainRecord)

  /** The families in the order in which a snapshot is imported. */
  function Rank(r: Record): nat {
    match r
    case ProjectRec(_) => 0
    case SkillRec(_) => 1
    case RoleRec(_) => 2
    case WorkItemRec(_) => 3
    case AssignmentRec(_) => 4
    case ArtifactRec(_) => 5
    case EvidenceRec(_) => 6
    case ReviewRec(_) => 7
    case HandoffRec(_) => 8
    case EntryRec(_) => 9
    case CandidateRec(_) => 10
  }

  /** Where a record is filed; a project's slot has a blank id. */
  datatype Slot = Slot(rank: nat, key: Key)

  function SlotOf(r: Record): Slot {
    Slot(Rank(r),
      match r
      case ProjectRec(x) => Key(x.id, Blank)
      case SkillRec(x) => Key(x.projectId, x.id)
      case RoleRec(x) => Key(x.projectId, x.id)
      case WorkItemRec(x) => Key(x.projectId, x.id)
      case AssignmentRec(x) => Key(x.projectId, x.id)
      case ArtifactRec(x) => Key(x.projectId, x.id)
      case EvidenceRec(x) => Key(x.projectId, x.id)
      case ReviewRec(x) => Key(x.projectId, x.id)
      case HandoffRec(x) => Key(x.projectId, x.id)
      case EntryRec(x) => Key(x.projectId, x.id)
      case CandidateRec(x) => Key(x.projectId, x.id))
  }

  /** What the store holds at a slot. */
  function Lookup(s: State, t: Slot): Option<Record> {
    var k := t.key;
    if t.rank == 0 then
      if k.id == Blank && k.project in s.projects.rows then Some(ProjectRec(s.projects.rows[k.project])) else None
    else if t.rank == 1 then if k in s.skills.rows then Some(SkillRec(s.skills.rows[k])) else None
    else if t.rank == 2 then if k in s.roles.rows then Some(RoleRec(s.roles.rows[k])) else None
    else if t.rank == 3 then if k in s.workItems.rows then Some(WorkItemRec(s.workItems.rows[k])) else None
    else if t.rank == 4 then if k in s.assignments.rows then Some(AssignmentRec(s.assignments.rows[k])) else None
    else if t.rank == 5 then if k in s.artifacts.rows then Some(ArtifactRec(s.artifacts.rows[k])) else None
    else if t.rank == 6 then if k in s.evidence.rows then Some(EvidenceRec(s.evidence.rows[k])) else None
    else if t.rank == 7 then if k in s.reviews.rows then Some(ReviewRec(s.reviews.rows[k])) else None
    else if t.rank == 8 then if k in s.handoffs.rows then Some(HandoffRec(s.handoffs.rows[k])) else None
    else if t.rank == 9 then if k in s.entries.rows then Some(EntryRec(s.entries.rows[k])) else None
    else if t.rank == 10 then if k in s.candidates.rows then Some(CandidateRec(s.candidates.rows[k])) else None
    else None
  }

  /** The slots together with the receipts are the whole store. */
  lemma SlotsAreTheStore(s1: State, s2: State)
    requires forall t :: Lookup(s1, t) == Lookup(s2, t)
    requires s1.receipts == s2.receipts
    ensures s1 == s2
  {
    forall id: Id
      ensures SameAt(s1.projects.rows, s2.projects.rows, id)
    {
      assert Lookup(s1, Slot(0, Key(id, Blank))) == Lookup(s2, Slot(0, Key(id, Blank)));
    }
    forall k: Key
      ensures
        && SameAt(s1.skills.rows, s2.skills.rows, k)
        && SameAt(s1.roles.rows, s2.roles.rows, k)
        && SameAt(s1.workItems.rows, s2.workItems.rows, k)
        && SameAt(s1.assignments.rows, s2.assignments.rows, k)
        && SameAt(s1.artifacts.rows, s2.artifacts.rows, k)
        && SameAt(s1.evidence.rows, s2.evidence.rows, k)
        && SameAt(s1.reviews.rows, s2.reviews.rows, k)
        && SameAt(s1.handoffs.rows, s2.handoffs.rows, k)
        && SameAt(s1.entries.rows, s2.entries.rows, k)
        && SameAt(s1.candidates.rows, s2.candidates.rows, k)
    {
      assert Lookup(s1, Slot(1, k)) == Lookup(s2, Slot(1, k));
      assert Lookup(s1, Slot(2, k)) == Lookup(s2, Slot(2, k));
      assert Lookup(s1, Slot(3, k)) == Lookup(s2, Slot(3, k));
      assert Lookup(s1, Slot(4, k)) == Lookup(s2, Slot(4, k));
      assert Lookup(s1, Slot(5, k)) == Lookup(s2, Slot(5, k));
      assert Lookup(s1, Slot(6, k)) == Lookup(s2, Slot(6, k));
      assert Lookup(s1, Slot(7, k)) == Lookup(s2, Slot(7, k));
      assert Lookup(s1, Slot(8, k)) == Lookup(s2, Slot(8, k));
      assert Lookup(s1, Slot(9, k)) == Lookup(s2, Slot(9, k));
      assert Lookup(s1, Slot(10, k)) == Lookup(s2, Slot(10, k));
    }
    SameRows(s1.projects.rows, s2.projects.rows);
    SameRows(s1.skills.rows, s2.skills.rows);
    SameRows(s1.roles.rows, s2.roles.rows);
    SameRows(s1.workItems.rows, s2.workItems.rows);
    SameRows(s1.assignments.rows, s2.assignments.rows);
    SameRows(s1.artifacts.rows, s2.artifacts.rows);
    SameRows(s1.evidence.rows, s2.evidence.rows);
    SameRows(s1.reviews.rows, s2.reviews.rows);
    SameRows(s1.handoffs.rows, s2.handoffs.rows);
    SameRows(s1.entries.rows, s2.entries.rows);
    SameRows(s1.candidates.rows, s2.candidates.rows);
  }

  predicate SameAt<K, V(==)>(m1: map<K, V>, m2: map<K, V>, k: K) {
    (k in m1 <==> k in m2) && (k in m1 && k in m2 ==> m1[k] == m2[k])
  }

  lemma SameRows<K, V>(m1: map<K, V>, m2: map<K, V>)
    requires forall k :: SameAt(m1, m2, k)
    ensures m1 == m2
  {
    forall k | k in m1.Keys + m2.Keys
      ensures k in m1 && k in m2 && m1[k] == m2[k]
    {
      assert SameAt(m1, m2, k);
    }
  }

  // ---------------------------------------------------------------- one record

  /** Create, and on a duplicate do something else instead. */
  function OnDuplicate(created: Outcome, otherwise: Outcome): Outcome {
    if created.reply == Refused(Duplicate) then otherwise else created
  }

  /** The `Create...` call for a record. */
  function Create(s: State, r: Record): Outcome {
    match r
    case ProjectRec(x) => CreateProject(s, x)
    case SkillRec(x) => CreateSkill(s, x)
    case RoleRec(x) => CreateRole(s, x)
    case WorkItemRec(x) => CreateWorkItem(s, x)
    case AssignmentRec(x) => InsertAssignment(s, x)
    case ArtifactRec(x) => CreateArtifact(s, x)
    case EvidenceRec(x) => CreateEvidence(s, x)
    case ReviewRec(x) => CreateReview(s, x)
    case HandoffRec(x) => InsertHandoff(s, x)
    case EntryRec(x) => CreateEntry(s, x)
    case CandidateRec(x) => CreateCandidate(s, x)
  }

  /** What happens to a record whose key is taken. */
  function Overwrite(s: State, r: Record): Outcome {
    match r
    case ProjectRec(x) => UpdateProject(s, x)
    case SkillRec(x) => UpdateSkill(s, x)
    case RoleRec(x) => UpdateRole(s, x)
    case WorkItemRec(x) => UpdateWorkItem(s, x)
    case AssignmentRec(x) => RestoreAssignment(s, x)
    case HandoffRec(x) => RestoreHandoff(s, x)
    case EntryRec(x) => UpdateEntry(s, x)
    case CandidateRec(x) => UpdateCandidate(s, x)
    case _ => Outcome(s, Done)
  }

  /** The `upsert...` and `createIfMissing...` helpers. */
  function ImportRecord(s: State, r: Record): Outcome {
    OnDuplicate(Create(s, r), Overwrite(s, r))
  }

  predicate HasProject(s: State, id: Id) {
    id in s.projects.rows
  }

  /** Everything a record refers to is in the store. */
  predicate Resolves(s: State, r: Record) {
    match r
    case ProjectRec(_) => true
    case SkillRec(x) => HasProject(s, x.projectId)
    case RoleRec(x) => HasProject(s, x.projectId)
    case WorkItemRec(x) => HasProject(s, x.projectId)
    case AssignmentRec(x) =>
      ClaimStateOk(x) && HasWorkItem(s, x.projectId, x.workItemId) && RoleFits(s, x.projectId, x.roleId)
    case ArtifactRec(x) =>
      && HasWorkItem(s, x.projectId, x.workItemId) && AssignmentFits(s, x.projectId, x.assignmentId, x.workItemId)
      && RoleFits(s, x.projectId, x.authorRoleId)
    case EvidenceRec(x) =>
      HasWorkItem(s, x.projectId, x.workItemId) && AssignmentFits(s, x.projectId, x.assignmentId, x.workItemId)
    case ReviewRec(x) =>
      && HasWorkItem(s, x.projectId, x.workItemId) && AssignmentFits(s, x.projectId, x.assignmentId, x.workItemId)
      && RoleFits(s, x.projectId, x.reviewerRoleId)
    case HandoffRec(x) => HandoffRefsOk(s, x)
    case EntryRec(x) => HasProject(s, x.projectId)
    case CandidateRec(x) => HasProject(s, x.projectId)
  }

  /** The record may be written over what its slot holds: a stored assignment is only
      restored with a role that is found, a handoff only under the same work item. */
  predicate Overwrites(s: State, held: Option<Record>, r: Record) {
    && (r.AssignmentRec? && held.Some? ==> Key(r.assignment.projectId, r.assignment.roleId) in s.roles.rows)
    && (r.HandoffRec? && held.Some? ==> held.value.HandoffRec? && held.value.handoff.workItemId == r.handoff.workItemId)
  }

  predicate Admits(s: State, r: Record) {
    Resolves(s, r) && Overwrites(s, Lookup(s, SlotOf(r)), r)
  }

  /** What a slot holding `a` holds after `r` is written there: artifacts, evidence and
      reviews stay, memory keeps its creation time, everything else is replaced. */
  function Blend(a: Record, r: Record): Record {
    match r
    case ArtifactRec(_) | EvidenceRec(_) | ReviewRec(_) => a
    case EntryRec(x) => if a.EntryRec? then EntryRec(x.(createdAt := a.entry.createdAt)) else r
    case CandidateRec(x) => if a.CandidateRec? then CandidateRec(x.(createdAt := a.candidate.createdAt)) else r
    case _ => r
  }

  function Merge(held: Option<Record>, r: Record): Record {
    if held.None? then r else Blend(held.value, r)
  }

  /** Blending keeps something of the first and of the last record and nothing in between. */
  lemma BlendIsABand(a: Record, b: Record, c: Record)
    requires Rank(a) == Rank(b) == Rank(c)
    ensures Blend(a, a) == a
    ensures Blend(Blend(a, b), c) == Blend(a, c)
    ensures Blend(a, Blend(b, c)) == Blend(a, c)
    ensures Rank(Blend(a, b)) == Rank(a)
  {
  }

  lemma StoredRank(s: State, t: Slot)
    ensures Lookup(s, t).Some? ==> Rank(Lookup(s, t).value) == t.rank
  {
  }

  /** The families that refer to nothing but a project. */
  predicate IsPlan(r: Record) {
    Rank(r) <= 3 || Rank(r) >= 9
  }

  /** One imported record is refused exactly when it is not admitted, and otherwise changes
      its own slot alone. */
  lemma ImportMeaning(s: State, r: Record, t: Slot)
    ensures ImportMeans(s, r, t, ImportRecord(s, r))
  {
    hide ImportRecord, ImportMeans;
    if IsPlan(r) {
      PlanMeaning(s, r, t);
    } else {
      WorkMeaning(s, r, t);
    }
  }

  predicate ImportMeans(s: State, r: Record, t: Slot, o: Outcome) {
    && (o.reply.Refused? <==> !Admits(s, r))
    && (o.reply.Refused? ==> o.state == s)
    && o.state.receipts == s.receipts
    && Lookup(o.state, t) == if Admits(s, r) && t == SlotOf(r) then Some(Merge(Lookup(s, t), r)) else Lookup(s, t)
  }

  lemma PlanMeaning(s: State, r: Record, t: Slot)
    requires IsPlan(r)
    ensures ImportMeans(s, r, t, ImportRecord(s, r))
  {
  }

  lemma WorkMeaning(s: State, r: Record, t: Slot)
    requires !IsPlan(r)
    ensures ImportMeans(s, r, t, ImportRecord(s, r))
  {
  }
}
