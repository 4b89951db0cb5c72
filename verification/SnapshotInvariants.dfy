/** What an import keeps, and concrete stores on which export and import fall short. */
module SnapshotInvariants {
  import opened Domain
  import opened AssignmentRules
  import opened StoreModel
  import opened SnapshotModel
  import opened SnapshotProofs
  import opened Filing
  import opened Integrity

  /** Import keeps referential integrity, filing and claim-state validity, whether it
      succeeds or stops half way. */
  lemma {:induction false} LoadKeepsInvariants(s: State, recs: seq<Record>)
    requires RefsOk(s) && Filed(s) && ClaimsOk(s)
    ensures var s' := Load(s, recs).state; RefsOk(s') && Filed(s') && ClaimsOk(s')
  {
    hide RefsOk, Filed, ClaimsOk, SnapshotModel.ImportRecord;
    if recs != [] {
      var n := |recs| - 1;
      LoadKeepsInvariants(s, recs[..n]);
      var before := Load(s, recs[..n]).state;
      ImportKeepsRefs(before, recs[n]);
      ImportKeepsFiling(before, recs[n]);
      ImportKeepsClaims(before, recs[n]);
    }
  }

  predicate ClaimsOk(s: State) {
    forall k :: k in s.assignments.rows ==> ClaimStateOk(s.assignments.rows[k])
  }

  lemma ImportKeepsRefs(s: State, r: Record)
    requires RefsOk(s)
    ensures RefsOk(ImportRecord(s, r).state)
  {
    hide RefsOk, SnapshotModel.Create, SnapshotModel.Overwrite;
    if IsPlan(r) {
      PlanKeepsRefs(s, r);
    } else if r.HandoffRec? {
      HandoffKeepsRefs(s, r);
    } else {
      WorkKeepsRefs(s, r);
    }
  }

  lemma PlanKeepsRefs(s: State, r: Record)
    requires RefsOk(s) && IsPlan(r)
    ensures RefsOk(Create(s, r).state) && RefsOk(Overwrite(s, r).state)
  {
  }

  lemma HandoffKeepsRefs(s: State, r: Record)
    requires RefsOk(s) && r.HandoffRec?
    ensures RefsOk(Create(s, r).state) && RefsOk(Overwrite(s, r).state)
  {
  }

  lemma WorkKeepsRefs(s: State, r: Record)
    requires RefsOk(s) && 4 <= Rank(r) <= 7
    ensures RefsOk(Create(s, r).state) && RefsOk(Overwrite(s, r).state)
  {
  }

  lemma ImportKeepsClaims(s: State, r: Record)
    requires ClaimsOk(s)
    ensures ClaimsOk(ImportRecord(s, r).state)
  {
  }

  lemma ImportKeepsFiling(s: State, r: Record)
    requires Filed(s)
    ensures Filed(ImportRecord(s, r).state)
  {
    hide Filed, SnapshotModel.Create, SnapshotModel.Overwrite;
    if IsPlan(r) {
      PlanKeepsFiling(s, r);
    } else {
      WorkKeepsFiling(s, r);
    }
  }

  lemma PlanKeepsFiling(s: State, r: Record)
    requires Filed(s) && IsPlan(r)
    ensures Filed(Create(s, r).state) && Filed(Overwrite(s, r).state)
  {
  }

  lemma WorkKeepsFiling(s: State, r: Record)
    requires Filed(s) && !IsPlan(r)
    ensures Filed(Create(s, r).state) && Filed(Overwrite(s, r).state)
  {
  }

  // ---------------------------------------------------------------- where the promise stops

  const NO_AGENT := DesiredAgent(Blank, [])

  function PlainAssignment(p: Id, id: Id, w: Id, role: Id): Assignment {
    Assignment(id, p, w, role, Blank, Blank, Queued, NO_AGENT, Blank, None, EMPTY_REF, Blank, 1, 1, ZERO_TIME,
               ZERO_TIME)
  }

  /** Evidence recorded for an assignment that is then deleted. */
  const DANGLING_RUN: seq<Event> := [
    Event(OpCreateProject(Project(Word(0), [], Blank)), 1),
    Event(OpCreateRole(Role(Word(1), Word(0), [], Blank, Blank)), 2),
    Event(OpCreateWorkItem(WorkItem(Word(2), Word(0), Blank, Blank, Blank, Blank, 3)), 3),
    Event(OpCreateAssignment(PlainAssignment(Word(0), Word(3), Word(2), Word(1))), 4),
    Event(OpCreateEvidence(Evidence(Word(4), Word(0), Word(2), Word(3), Blank)), 5),
    Event(OpDeleteAssignment(Word(0), Word(3)), 6)]

  /** Not every reachable store survives export and import: deleting an assignment leaves
      its evidence behind, and that evidence is then refused. */
  lemma DanglingEvidenceIsNotRestored()
    ensures !SelfContained(At(DANGLING_RUN, 6))
  {
    DanglingStates();
    var s := At(DANGLING_RUN, 6);
    var t := Slot(6, Key(Word(0), Word(4)));
    assert Lookup(s, t).Some?;
    assert !Resolves(s, Lookup(s, t).value);
  }

  lemma DanglingPlans()
    ensures var s := At(DANGLING_RUN, 3);
      && Word(0) in s.projects.rows && s.assignments == EMPTY.assignments && s.evidence == EMPTY.evidence
      && Key(Word(0), Word(1)) in s.roles.rows && Key(Word(0), Word(2)) in s.workItems.rows
  {
  }

  lemma DanglingStates()
    ensures var s := At(DANGLING_RUN, 6);
      && Key(Word(0), Word(4)) in s.evidence.rows
      && s.evidence.rows[Key(Word(0), Word(4))] == Evidence(Word(4), Word(0), Word(2), Word(3), Blank)
      && Key(Word(0), Word(3)) !in s.assignments.rows
  {
    DanglingPlans();
    var s3 := At(DANGLING_RUN, 3);
    var s4 := At(DANGLING_RUN, 4);
    assert s4.projects == s3.projects && s4.workItems == s3.workItems;
    assert Key(Word(0), Word(3)) in s4.assignments.rows;
    assert s4.assignments.rows[Key(Word(0), Word(3))].workItemId == Word(2);
    var s5 := At(DANGLING_RUN, 5);
    assert s5.projects == s3.projects && s5.assignments == s4.assignments;
    assert Key(Word(0), Word(4)) in s5.evidence.rows;
  }

  /** A snapshot with an assignment that names no role. */
  const ROLELESS: seq<Record> := [
    ProjectRec(Project(Word(0), [], Blank)),
    WorkItemRec(WorkItem(Word(2), Word(0), Blank, Blank, Blank, Blank, 3)),
    AssignmentRec(PlainAssignment(Word(0), Word(3), Word(2), Blank))]

  /** It can be imported once, but not twice. */
  lemma RolelessImportsOnce()
    ensures Load(EMPTY, ROLELESS).error.None?
    ensures Load(Load(EMPTY, ROLELESS).state, ROLELESS).error.Some?
  {
    assert ROLELESS[..2][..1] == ROLELESS[..1];
    var s0 := Load(EMPTY, ROLELESS[..0]);
    assert ROLELESS[..1][..0] == ROLELESS[..0] && s0 == Loaded(EMPTY, None);
    var s1 := Load(EMPTY, ROLELESS[..1]);
    assert s1 == Loaded(EMPTY.(projects := Put(EMPTY.projects, Word(0), Project(Word(0), [], Blank))), None);
    var s2 := Load(EMPTY, ROLELESS[..2]);
    assert s2.error.None? && s2.state.projects == s1.state.projects && s2.state.roles == EMPTY.roles;
    assert Key(Word(0), Word(2)) in s2.state.workItems.rows;
    var s3 := Load(EMPTY, ROLELESS);
    assert s3.error.None? && s3.state.roles == EMPTY.roles;
    RanksOfRoleless();
    ImportTwice(EMPTY, ROLELESS);
    assert ROLELESS[2].AssignmentRec?;
  }

  lemma RanksOfRoleless()
    ensures Ranked(ROLELESS)
  {
  }
}
