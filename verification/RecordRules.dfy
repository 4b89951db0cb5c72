/** When a record is created and what is stored of it, and exactly which records go when
    another is deleted. */
module RecordRules {
  import opened Domain
  import opened HandoffRules
  import opened StoreModel

  // ---------------------------------------------------------------- references

  /** An optional reference to an assignment of this work item. */
  predicate NamesAssignment(s: State, projectId: Id, id: Id, workItemId: Id) {
    var k := Key(projectId, id);
    id == Blank || (k in s.assignments.rows && s.assignments.rows[k].workItemId == workItemId)
  }

  predicate NamesRole(s: State, projectId: Id, id: Id) {
    id == Blank || Key(projectId, id) in s.roles.rows
  }

  predicate NamesWorkItem(s: State, projectId: Id, id: Id) {
    projectId in s.projects.rows && Key(projectId, id) in s.workItems.rows
  }

  /** Every reference of a handoff resolves: its work item and its roles, a source assignment
      under its own work item, a target assignment under the target work item, if it names
      both, and the target work item. */
  predicate HandoffResolves(s: State, h: Handoff) {
    var p := h.projectId;
    && NamesWorkItem(s, p, h.workItemId)
    && NamesRole(s, p, h.fromRoleId) && NamesRole(s, p, h.toRoleId)
    && NamesAssignment(s, p, h.sourceAssignmentId, h.workItemId)
    && (h.targetAssignmentId != Blank ==> Key(p, h.targetAssignmentId) in s.assignments.rows)
    && (h.targetWorkItemId != Blank ==> NamesAssignment(s, p, h.targetAssignmentId, h.targetWorkItemId))
    && (h.targetWorkItemId != Blank ==> NamesWorkItem(s, p, h.targetWorkItemId))
  }

  lemma HandoffRefsMean(s: State, h: Handoff)
    ensures HandoffRefsOk(s, h) <==> HandoffResolves(s, h)
  {
  }

  // ---------------------------------------------------------------- creations

  /** A call that is either done, or refused as not found or as a duplicate. */
  predicate DoneWhen(o: Outcome, s: State, resolves: bool, taken: bool, done: Reply) {
    && (o.reply == done <==> resolves && !taken)
    && (o.reply != done ==> o == Outcome(s, Refused(if resolves then Duplicate else NotFound)))
  }

  /** Artifacts, evidence and reviews are filed exactly when their references resolve and
      their key is free, and then alone. */
  lemma ArtifactFiledExactlyWhen(s: State, x: Artifact)
    ensures var o, k := CreateArtifact(s, x), Key(x.projectId, x.id);
      && DoneWhen(o, s, NamesWorkItem(s, x.projectId, x.workItemId) && NamesRole(s, x.projectId, x.authorRoleId)
                        && NamesAssignment(s, x.projectId, x.assignmentId, x.workItemId), k in s.artifacts.rows, Done)
      && (o.reply == Done ==> o.state == s.(artifacts := Table(s.artifacts.rows[k := x])))
  {
  }

  lemma EvidenceFiledExactlyWhen(s: State, x: Evidence)
    ensures var o, k := CreateEvidence(s, x), Key(x.projectId, x.id);
      && DoneWhen(o, s, NamesWorkItem(s, x.projectId, x.workItemId)
                        && NamesAssignment(s, x.projectId, x.assignmentId, x.workItemId), k in s.evidence.rows, Done)
      && (o.reply == Done ==> o.state == s.(evidence := Table(s.evidence.rows[k := x])))
  {
  }

  lemma ReviewFiledExactlyWhen(s: State, x: Review)
    ensures var o, k := CreateReview(s, x), Key(x.projectId, x.id);
      && DoneWhen(o, s, NamesWorkItem(s, x.projectId, x.workItemId) && NamesRole(s, x.projectId, x.reviewerRoleId)
                        && NamesAssignment(s, x.projectId, x.assignmentId, x.workItemId), k in s.reviews.rows, Done)
      && (o.reply == Done ==> o.state == s.(reviews := Table(s.reviews.rows[k := x])))
  {
  }

  /** The times of a creation: those of the caller, an unset creation time being the clock's
      and an unset revision the creation time. */
  predicate Stamped(given: Time, givenRevision: Time, created: Time, revision: Time, now: Time) {
    && (given != ZERO_TIME ==> created == given) && (given == ZERO_TIME ==> created == now)
    && (givenRevision != ZERO_TIME ==> revision == givenRevision)
    && (givenRevision == ZERO_TIME ==> revision == created)
  }

  /** Everything an assignment must name is there, and its root is one of the project's. */
  predicate AssignmentResolves(s: State, x: Assignment) {
    && NamesWorkItem(s, x.projectId, x.workItemId) && Key(x.projectId, x.roleId) in s.roles.rows
    && (x.rootId != Blank ==> x.rootId in s.projects.rows[x.projectId].rootIds)
  }

  /** An assignment is created exactly when it names its project, work item and role, all it
      names is there, and its key is free. Whatever was asked for, it is stored queued and
      unclaimed; the rest is kept. */
  lemma AssignmentCreatedExactlyWhen(s: State, x: Assignment, now: Time)
    ensures var o, k := CreateAssignment(s, x, now), Key(x.projectId, x.id);
      var named := x.projectId != Blank && x.workItemId != Blank && x.roleId != Blank;
      && (o.reply.Assigned? <==> named && AssignmentResolves(s, x) && k !in s.assignments.rows)
      && (!o.reply.Assigned? ==> o == Outcome(s, Refused(
           if !named then Invalid else if !AssignmentResolves(s, x) then NotFound else Duplicate)))
      && (o.reply.Assigned? ==>
            var a := o.reply.assignment;
            && o.state == s.(assignments := Table(s.assignments.rows[k := a]))
            && a.status == Queued && a.claimedBy == Blank && a.claim == None
            && Stamped(x.createdAt, x.updatedAt, a.createdAt, a.updatedAt, now)
            && a == x.(status := a.status, claimedBy := a.claimedBy, claim := a.claim,
                       createdAt := a.createdAt, updatedAt := a.updatedAt))
  {
  }

  /** A handoff is created exactly when its references resolve and its key is free; unset
      times are filled in, an unset status time with the creation time. */
  lemma HandoffCreatedExactlyWhen(s: State, x: Handoff, now: Time)
    ensures var o, k := Apply(s, Event(OpCreateHandoff(x), now)), Key(x.projectId, x.id);
      && (o.reply.Handed? <==> HandoffResolves(s, x) && k !in s.handoffs.rows)
      && (!o.reply.Handed? ==> o == Outcome(s, Refused(if HandoffResolves(s, x) then Duplicate else NotFound)))
      && (o.reply.Handed? ==>
            var h := o.reply.handoff;
            && o.state == s.(handoffs := Table(s.handoffs.rows[k := h]))
            && Stamped(x.createdAt, x.updatedAt, h.createdAt, h.updatedAt, now)
            && (x.statusChangedAt != ZERO_TIME ==> h.statusChangedAt == x.statusChangedAt)
            && (x.statusChangedAt == ZERO_TIME ==> h.statusChangedAt == h.createdAt)
            && h == x.(createdAt := h.createdAt, updatedAt := h.updatedAt, statusChangedAt := h.statusChangedAt))
  {
    HandoffRefsMean(s, FreshHandoff(x, now));
    hide StoreModel.HandoffRefsOk;
  }

  // ---------------------------------------------------------------- compare and set

  /** The call names a handoff that is filed there, and presents its revision. */
  predicate Current(s: State, p: Id, w: Id, id: Id, token: Time) {
    var k := Key(p, id);
    && NamesWorkItem(s, p, w) && k in s.handoffs.rows
    && s.handoffs.rows[k].workItemId == w && s.handoffs.rows[k].updatedAt == token
  }

  /** A handoff is deleted exactly under its current revision, and goes alone. */
  lemma HandoffDeletedExactlyWhen(s: State, p: Id, w: Id, id: Id, token: Time)
    ensures var o, k := DeleteHandoff(s, p, w, id, token), Key(p, id);
      && (Current(s, p, w, id, token) ==> o == Outcome(s.(handoffs := Table(s.handoffs.rows - {k})), Done))
      && (!Current(s, p, w, id, token) ==>
            o == Outcome(s, Refused(if k in s.handoffs.rows && Current(s, p, w, id, s.handoffs.rows[k].updatedAt)
                                    then Conflict else NotFound)))
  {
  }

  /** A patch succeeds exactly under the current revision and if what it makes of the handoff
      resolves or is what is stored already, which is then left alone; otherwise it changes
      that handoff and nothing else. */
  lemma HandoffPatchedExactlyWhen(s: State, p: Id, w: Id, id: Id, u: HandoffUpdate, now: Time)
    ensures var o, k := PatchHandoff(s, p, w, id, u, now), Key(p, id);
      && (!Current(s, p, w, id, u.expectedUpdatedAt) ==>
            o == Outcome(s, Refused(if k in s.handoffs.rows && Current(s, p, w, id, s.handoffs.rows[k].updatedAt)
                                    then Conflict else NotFound)))
      && (Current(s, p, w, id, u.expectedUpdatedAt) ==>
            var h := s.handoffs.rows[k];
            var g := Patched(h, u.patch);
            if g == h then o == Outcome(s, Handed(h))
            else if !HandoffResolves(s, g) then o == Outcome(s, Refused(NotFound))
            else o.reply.Handed? && o.state == s.(handoffs := Table(s.handoffs.rows[k := o.reply.handoff]))
                 && SameContent(o.reply.handoff, g))
  {
    if Current(s, p, w, id, u.expectedUpdatedAt) {
      var h := s.handoffs.rows[Key(p, id)];
      HandoffRefsMean(s, Patched(h, u.patch));
      PatchKeepsStamps(h, u.patch, now);
    }
    hide StoreModel.HandoffRefsOk, HandoffRules.SameContent, HandoffRules.Patched, HandoffRules.Revised,
      HandoffResolves;
  }

  lemma PatchKeepsStamps(h: Handoff, p: HandoffPatch, now: Time)
    ensures Patched(h, p) == h <==> SameContent(h, Patched(h, p))
    ensures SameContent(Revised(h, p, now), Patched(h, p))
  {
  }

  // ---------------------------------------------------------------- deletions

  /** A deleted assignment takes exactly its own artifacts and reviews along: its evidence,
      and everything else in the store, stays as it is. */
  lemma AssignmentTakes(s: State, p: Id, id: Id)
    requires p in s.projects.rows && Key(p, id) in s.assignments.rows
    ensures DeleteAssignment(s, p, id) == Outcome(s.(
      assignments := Table(s.assignments.rows - {Key(p, id)}),
      artifacts := Table(s.artifacts.rows
        - set k | k in s.artifacts.rows && k.project == p && s.artifacts.rows[k].assignmentId == id),
      reviews := Table(s.reviews.rows
        - set k | k in s.reviews.rows && k.project == p && s.reviews.rows[k].assignmentId == id)), Done)
  {
    var s' := DeleteAssignment(s, p, id).state;
    assert s'.artifacts.rows == s.artifacts.rows
      - set k | k in s.artifacts.rows && k.project == p && s.artifacts.rows[k].assignmentId == id;
    assert s'.reviews.rows == s.reviews.rows
      - set k | k in s.reviews.rows && k.project == p && s.reviews.rows[k].assignmentId == id;
  }

  /** The keys of the project whose rows satisfy `filed`. */
  function FiledKeys<V>(t: Table<Key, V>, p: Id, filed: V -> bool): set<Key> {
    set k | k in t.rows && k.project == p && filed(t.rows[k])
  }

  /** What is left of a table once those rows are gone. */
  predicate Loses<V(==)>(t: Table<Key, V>, t': Table<Key, V>, p: Id, filed: V -> bool) {
    t'.rows == t.rows - FiledKeys(t, p, filed)
  }

  /** A deleted work item takes exactly what is filed under it, and the handoffs aimed at it. */
  lemma WorkItemTakes(s: State, p: Id, w: Id)
    requires p in s.projects.rows && Key(p, w) in s.workItems.rows
    ensures DeleteWorkItem(s, p, w).reply == Done
    ensures var s' := DeleteWorkItem(s, p, w).state;
      && s'.workItems.rows == s.workItems.rows - {Key(p, w)}
      && Loses(s.assignments, s'.assignments, p, (x: Assignment) => x.workItemId == w)
      && Loses(s.artifacts, s'.artifacts, p, (x: Artifact) => x.workItemId == w)
      && Loses(s.evidence, s'.evidence, p, (x: Evidence) => x.workItemId == w)
      && Loses(s.reviews, s'.reviews, p, (x: Review) => x.workItemId == w)
      && Loses(s.handoffs, s'.handoffs, p, (x: Handoff) => x.workItemId == w || x.targetWorkItemId == w)
      && s' == s.(workItems := s'.workItems, assignments := s'.assignments, artifacts := s'.artifacts,
                  evidence := s'.evidence, reviews := s'.reviews, handoffs := s'.handoffs)
  {
  }

  /** What is left of a table is what was filed under other projects. */
  predicate LosesProject<V(==)>(t: Table<Key, V>, t': Table<Key, V>, p: Id) {
    t'.rows == t.rows - set k | k in t.rows && k.project == p
  }

  lemma OutsideLoses<V>(t: Table<Key, V>, p: Id)
    ensures LosesProject(t, Outside(t, p), p)
  {
  }

  /** A deleted project takes exactly everything filed under it, and the receipts of its
      handoffs. */
  lemma ProjectTakes(s: State, p: Id)
    requires p in s.projects.rows
    ensures var s' := DeleteProject(s, p).state;
      && DeleteProject(s, p).reply == Done
      && s'.projects.rows == s.projects.rows - {p}
      && LosesProject(s.skills, s'.skills, p) && LosesProject(s.roles, s'.roles, p)
      && LosesProject(s.workItems, s'.workItems, p) && LosesProject(s.assignments, s'.assignments, p)
      && LosesProject(s.artifacts, s'.artifacts, p) && LosesProject(s.evidence, s'.evidence, p)
      && LosesProject(s.reviews, s'.reviews, p) && LosesProject(s.handoffs, s'.handoffs, p)
      && LosesProject(s.entries, s'.entries, p) && LosesProject(s.candidates, s'.candidates, p)
      && s'.receipts.rows == s.receipts.rows
           - set k | k in s.receipts.rows && s.receipts.rows[k].result.handoff.projectId == p
  {
    hide LosesProject, StoreModel.Outside;
    OutsideLoses(s.skills, p);
    OutsideLoses(s.roles, p);
    OutsideLoses(s.workItems, p);
    OutsideLoses(s.assignments, p);
    OutsideLoses(s.artifacts, p);
    OutsideLoses(s.evidence, p);
    OutsideLoses(s.reviews, p);
    OutsideLoses(s.handoffs, p);
    OutsideLoses(s.entries, p);
    OutsideLoses(s.candidates, p);
  }

  /** Roles, memory entries and candidates go alone, without a look at who names them. */
  lemma SmallDeletions(s: State, p: Id, id: Id)
    ensures var there := p in s.projects.rows && Key(p, id) in s.roles.rows;
      DeleteRole(s, p, id) == if there then Outcome(s.(roles := Table(s.roles.rows - {Key(p, id)})), Done)
                              else Outcome(s, Refused(NotFound))
    ensures var there := p in s.projects.rows && Key(p, id) in s.entries.rows;
      DeleteEntry(s, p, id) == if there then Outcome(s.(entries := Table(s.entries.rows - {Key(p, id)})), Done)
                               else Outcome(s, Refused(NotFound))
    ensures var there := p in s.projects.rows && Key(p, id) in s.candidates.rows;
      DeleteCandidate(s, p, id)
        == if there then Outcome(s.(candidates := Table(s.candidates.rows - {Key(p, id)})), Done)
                                   else Outcome(s, Refused(NotFound))
  {
  }

  /** An update replaces the record that is there and is refused without one. */
  lemma UpdatesExactlyWhen(s: State, x: Project, r: Role, w: WorkItem)
    ensures UpdateProject(s, x) ==
      if x.id in s.projects.rows then Outcome(s.(projects := Table(s.projects.rows[x.id := x])), Done)
      else Outcome(s, Refused(NotFound))
    ensures var k := Key(r.projectId, r.id);
      UpdateRole(s, r) ==
        if r.projectId in s.projects.rows
          && k in s.roles.rows then Outcome(s.(roles := Table(s.roles.rows[k := r])), Done)
        else Outcome(s, Refused(NotFound))
    ensures var k := Key(w.projectId, w.id);
      UpdateWorkItem(s, w) ==
        if NamesWorkItem(s, w.projectId, w.id) then Outcome(s.(workItems := Table(s.workItems.rows[k := w])), Done)
        else Outcome(s, Refused(NotFound))
  {
  }

  /** Deletions of what is not there are refused and change nothing. */
  lemma DeletionsRefusedExactlyWhen(s: State, p: Id, id: Id)
    ensures DeleteProject(s, p) == Outcome(s, Refused(NotFound)) <==> p !in s.projects.rows
    ensures DeleteWorkItem(s, p, id) == Outcome(s, Refused(NotFound)) <==> !NamesWorkItem(s, p, id)
    ensures DeleteAssignment(s, p, id) == Outcome(s, Refused(NotFound)) <==>
      p !in s.projects.rows || Key(p, id) !in s.assignments.rows
  {
  }
}
