/** What a proposal may ask for, and what its actions can do to a store. */
module AssistantActions {
  import opened Domain
  import HandoffRules
  import opened StoreModel
  import opened Assistant

  /** What an action that may be proposed can do to a store: nothing is ever removed, no
      assignment moves, a new assignment is queued, unclaimed and without a reference, and
      a stored handoff changes only under the revision that the action presents. */
  predicate Harmless(s: State, a: Op, s': State) {
    && s.projects.rows.Keys <= s'.projects.rows.Keys && s.roles.rows.Keys <= s'.roles.rows.Keys
    && s.workItems.rows.Keys <= s'.workItems.rows.Keys
    && (forall k :: k in s.assignments.rows ==>
          k in s'.assignments.rows && s'.assignments.rows[k] == s.assignments.rows[k])
    && (forall k :: k in s'.assignments.rows && k !in s.assignments.rows ==>
          var x := s'.assignments.rows[k];
          x.status == Queued && x.claim == None && x.claimedBy == Blank && x.executionRef == EMPTY_REF
          && Trim(x.contextSnapshotId) == Blank)
    && (forall k :: k in s.handoffs.rows ==>
          && k in s'.handoffs.rows
          && (s'.handoffs.rows[k] != s.handoffs.rows[k] ==>
                a.OpPatchHandoff? && a.update.expectedUpdatedAt == s.handoffs.rows[k].updatedAt))
    && (forall k :: k in s.evidence.rows ==> k in s'.evidence.rows && s'.evidence.rows[k] == s.evidence.rows[k])
    && (forall k :: k in s.reviews.rows ==> k in s'.reviews.rows && s'.reviews.rows[k] == s.reviews.rows[k])
    && (forall k :: k in s.candidates.rows ==>
          k in s'.candidates.rows && s'.candidates.rows[k] == s.candidates.rows[k])
    && s'.artifacts == s.artifacts && s'.skills == s.skills && s'.entries == s.entries && s'.receipts == s.receipts
  }

  lemma ActionsAreHarmless(s: State, a: Op, now: Time)
    requires ActionOk(a)
    ensures Harmless(s, a, Apply(s, Event(a, now)).state)
  {
    if a.OpPatchHandoff? {
      PatchIsHarmless(s, a, now);
    } else if Structural(a) {
      StructureIsHarmless(s, a, now);
    } else {
      RecordIsHarmless(s, a, now);
    }
    hide StoreModel.Apply, Harmless;
  }

  lemma PatchIsHarmless(s: State, a: Op, now: Time)
    requires a.OpPatchHandoff?
    ensures Harmless(s, a, Apply(s, Event(a, now)).state)
  {
    hide StoreModel.HandoffRefsOk, HandoffRules.Patched, HandoffRules.SameContent, HandoffRules.Revised;
  }

  lemma StructureIsHarmless(s: State, a: Op, now: Time)
    requires Structural(a)
    ensures Harmless(s, a, Apply(s, Event(a, now)).state)
  {
    StructureFrame(s, a, now);
    hide StoreModel.Apply;
  }

  lemma StructureFrame(s: State, a: Op, now: Time)
    requires Structural(a)
    ensures var s' := Apply(s, Event(a, now)).state;
      && s' == s.(projects := s'.projects, roles := s'.roles, workItems := s'.workItems)
      && s.projects.rows.Keys <= s'.projects.rows.Keys && s.roles.rows.Keys <= s'.roles.rows.Keys
      && s.workItems.rows.Keys <= s'.workItems.rows.Keys
  {
  }

  lemma RecordIsHarmless(s: State, a: Op, now: Time)
    requires ActionOk(a) && !Structural(a) && !a.OpPatchHandoff?
    ensures Harmless(s, a, Apply(s, Event(a, now)).state)
  {
    RecordFrame(s, a, now);
    if a.OpCreateAssignment? { CreationIsFresh(s, a.assignment, now); }
    hide StoreModel.Apply;
  }

  /** Every row of `t` is one of `t'`. */
  predicate Gains<K, V(==)>(t: Table<K, V>, t': Table<K, V>) {
    forall k :: k in t.rows ==> k in t'.rows && t'.rows[k] == t.rows[k]
  }

  lemma RecordFrame(s: State, a: Op, now: Time)
    requires ActionOk(a) && !Structural(a) && !a.OpPatchHandoff?
    ensures var s' := Apply(s, Event(a, now)).state;
      && s' == s.(assignments := s'.assignments, evidence := s'.evidence, reviews := s'.reviews,
                  handoffs := s'.handoffs, candidates := s'.candidates)
      && Gains(s.assignments, s'.assignments) && Gains(s.evidence, s'.evidence) && Gains(s.reviews, s'.reviews)
      && Gains(s.handoffs, s'.handoffs) && Gains(s.candidates, s'.candidates)
      && s'.assignments == if a.OpCreateAssignment? then CreateAssignment(s, a.assignment, now).state.assignments
                           else s.assignments
  {
    hide StoreModel.HandoffRefsOk;
  }

  lemma CreationIsFresh(s: State, x: Assignment, now: Time)
    ensures var s' := CreateAssignment(s, x, now).state;
      forall k :: k in s'.assignments.rows && k !in s.assignments.rows ==>
        s'.assignments.rows[k] == FreshAssignment(x, now)
  {
  }

  /** What a proposal may ask for: creations, of assignments only as fresh work, updates of
      records that are named, and handoff patches under a token. */
  lemma ProposableExactlyWhen(a: Op)
    ensures (a.OpCreateProject? || a.OpCreateRole? || a.OpCreateWorkItem? || a.OpCreateEvidence? || a.OpCreateReview?
             || a.OpCreateHandoff?) ==> ActionOk(a)
    ensures a.OpUpdateProject? ==> (ActionOk(a) <==> Trim(a.project.id) != Blank)
    ensures a.OpUpdateRole? ==> (ActionOk(a) <==> Trim(a.role.id) != Blank)
    ensures a.OpUpdateWorkItem? ==> (ActionOk(a) <==> Trim(a.workItem.id) != Blank)
    ensures a.OpPatchHandoff? ==> (ActionOk(a) <==> Trim(a.id) != Blank && a.update.expectedUpdatedAt != ZERO_TIME)
    ensures a.OpCreateAssignment? ==>
      var x := a.assignment;
      (ActionOk(a) <==> (x.status == NO_STATUS || TrimStatus(x.status) == Queued) && Trim(x.claimedBy) == Blank
                        && x.executionRef == EMPTY_REF && Trim(x.contextSnapshotId) == Blank)
    ensures a.OpPlain? ==> (ActionOk(a) <==> a.plain.OpCreateCandidate?)
    ensures (a.OpDeleteProject? || a.OpDeleteRole? || a.OpDeleteWorkItem? || a.OpDeleteAssignment?
             || a.OpDeleteHandoff? || a.OpTransit? || a.OpAcceptHandoff? || a.OpCreateArtifact?) ==> !ActionOk(a)
  {
  }

  // ---------------------------------------------------------------- projects

  /** Nothing outside the project is different. */
  predicate SameElsewhere(s: State, s': State, p: Id) {
    && s.projects.rows - {p} == s'.projects.rows - {p}
    && Outside(s.skills, p) == Outside(s'.skills, p) && Outside(s.roles, p) == Outside(s'.roles, p)
    && Outside(s.workItems, p) == Outside(s'.workItems, p) && Outside(s.assignments, p) == Outside(s'.assignments, p)
    && Outside(s.artifacts, p) == Outside(s'.artifacts, p) && Outside(s.evidence, p) == Outside(s'.evidence, p)
    && Outside(s.reviews, p) == Outside(s'.reviews, p) && Outside(s.handoffs, p) == Outside(s'.handoffs, p)
    && Outside(s.entries, p) == Outside(s'.entries, p) && Outside(s.candidates, p) == Outside(s'.candidates, p)
    && s.receipts == s'.receipts
  }

  lemma PutInside<V>(t: Table<Key, V>, k: Key, v: V)
    ensures Outside(Put(t, k, v), k.project) == Outside(t, k.project)
  {
    assert Outside(Put(t, k, v), k.project).rows == Outside(t, k.project).rows;
  }

  predicate Structural(a: Op) {
    || a.OpCreateProject? || a.OpUpdateProject? || a.OpCreateRole? || a.OpUpdateRole?
    || a.OpCreateWorkItem? || a.OpUpdateWorkItem?
  }

  /** The project that an action names is the one it acts in: it changes nothing outside. */
  lemma ActionsStayInTheirProject(s: State, a: Op, now: Time)
    requires ActionOk(a)
    ensures exists p :: Trim(p) == ActionProject(a) && SameElsewhere(s, Apply(s, Event(a, now)).state, p)
  {
    hide StoreModel.Apply, SameElsewhere, ActionProject;
    if Structural(a) {
      StructureStaysInside(s, a, now);
    } else {
      RecordsStayInside(s, a, now);
    }
  }

  lemma StructureStaysInside(s: State, a: Op, now: Time)
    requires Structural(a)
    ensures exists p :: Trim(p) == ActionProject(a) && SameElsewhere(s, Apply(s, Event(a, now)).state, p)
  {
    var s' := Apply(s, Event(a, now)).state;
    match a
    case OpCreateProject(x) => assert SameElsewhere(s, s', x.id);
    case OpUpdateProject(x) => assert SameElsewhere(s, s', x.id);
    case OpCreateRole(x) =>
      PutInside(s.roles, Key(x.projectId, x.id), x);
      assert SameElsewhere(s, s', x.projectId);
    case OpUpdateRole(x) =>
      PutInside(s.roles, Key(x.projectId, x.id), x);
      assert SameElsewhere(s, s', x.projectId);
    case OpCreateWorkItem(x) =>
      PutInside(s.workItems, Key(x.projectId, x.id), x);
      assert SameElsewhere(s, s', x.projectId);
    case OpUpdateWorkItem(x) =>
      PutInside(s.workItems, Key(x.projectId, x.id), x);
      assert SameElsewhere(s, s', x.projectId);
  }

  lemma HandoffsStayInside(s: State, a: Op, now: Time)
    requires a.OpCreateHandoff? || a.OpPatchHandoff?
    ensures exists p :: Trim(p) == ActionProject(a) && SameElsewhere(s, Apply(s, Event(a, now)).state, p)
  {
    hide StoreModel.HandoffRefsOk, StoreModel.PatchHandoff;
    var s' := Apply(s, Event(a, now)).state;
    match a
    case OpCreateHandoff(x) =>
      PutInside(s.handoffs, Key(x.projectId, x.id), FreshHandoff(x, now));
      assert SameElsewhere(s, s', x.projectId);
    case OpPatchHandoff(p, w, id, u) =>
      PatchInside(s, p, w, id, u, now);
      assert SameElsewhere(s, s', p);
  }

  lemma AssignmentStaysInside(s: State, a: Op, now: Time)
    requires a.OpCreateAssignment?
    ensures exists p :: Trim(p) == ActionProject(a) && SameElsewhere(s, Apply(s, Event(a, now)).state, p)
  {
    var x := a.assignment;
    PutInside(s.assignments, Key(x.projectId, x.id), FreshAssignment(x, now));
    assert SameElsewhere(s, Apply(s, Event(a, now)).state, x.projectId);
  }

  lemma RecordsStayInside(s: State, a: Op, now: Time)
    requires ActionOk(a) && !Structural(a)
    ensures exists p :: Trim(p) == ActionProject(a) && SameElsewhere(s, Apply(s, Event(a, now)).state, p)
  {
    var s' := Apply(s, Event(a, now)).state;
    match a
    case OpCreateAssignment(_) => AssignmentStaysInside(s, a, now);
    case OpCreateHandoff(_) => HandoffsStayInside(s, a, now);
    case OpPatchHandoff(_, _, _, _) => HandoffsStayInside(s, a, now);
    case OpCreateEvidence(x) =>
      hide StoreModel.PatchHandoff, StoreModel.CreateAssignment;
      PutInside(s.evidence, Key(x.projectId, x.id), x);
      assert SameElsewhere(s, s', x.projectId);
    case OpCreateReview(x) =>
      hide StoreModel.PatchHandoff, StoreModel.CreateAssignment;
      PutInside(s.reviews, Key(x.projectId, x.id), x);
      assert SameElsewhere(s, s', x.projectId);
    case OpPlain(op) =>
      hide StoreModel.PatchHandoff, StoreModel.CreateAssignment;
      var x := op.candidate;
      PutInside(s.candidates, Key(x.projectId, x.id), x);
      assert SameElsewhere(s, s', x.projectId);
  }

  lemma PatchInside(s: State, p: Id, w: Id, id: Id, u: HandoffUpdate, now: Time)
    ensures var s' := PatchHandoff(s, p, w, id, u, now).state;
      s' == s.(handoffs := s'.handoffs) && Outside(s.handoffs, p) == Outside(s'.handoffs, p)
  {
    hide StoreModel.HandoffRefsOk, HandoffRules.Patched, HandoffRules.SameContent, HandoffRules.Revised;
    var k := Key(p, id);
    if k in s.handoffs.rows {
      PutInside(s.handoffs, k, HandoffRules.Revised(s.handoffs.rows[k], u.patch, now));
    }
  }
}
