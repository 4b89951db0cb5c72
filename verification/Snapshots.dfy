/** Snapshots: what an export lists, what an import accepts, and the two loops over a store. */
module Snapshots {
  import opened Domain
  import opened AssignmentRules
  import opened StoreModel
  import opened SnapshotModel
  import opened SnapshotProofs
  import opened Filing
  import opened Integrity
  import opened MemoryStore

  const SNAPSHOT_VERSION := 2
  const LEGACY_VERSION := 1
  const FAMILIES := 11

  /** One list a family, by rank. */
  datatype Snapshot = Snapshot(version: int, families: seq<seq<Record>>)

  /** What the field types of a snapshot say. */
  predicate WellTyped(sn: Snapshot) {
    && |sn.families| == FAMILIES
    && forall r :: 0 <= r < FAMILIES ==> OfRank(sn.families[r], r)
  }

  predicate OfRank(recs: seq<Record>, rank: nat) {
    forall i :: 0 <= i < |recs| ==> Rank(recs[i]) == rank
  }

  /** The first `n` families, one after the other. */
  function Flat(families: seq<seq<Record>>, n: nat): seq<Record>
    requires n <= |families|
  {
    if n == 0 then [] else Flat(families, n - 1) + families[n - 1]
  }

  function Records(sn: Snapshot): seq<Record> {
    Flat(sn.families, |sn.families|)
  }

  lemma {:induction false} FlatIsRanked(families: seq<seq<Record>>, n: nat)
    requires n <= |families| && forall r :: 0 <= r < |families| ==> OfRank(families[r], r)
    ensures Ranked(Flat(families, n))
    ensures forall i :: 0 <= i < |Flat(families, n)| ==> Rank(Flat(families, n)[i]) < n
  {
    if n > 0 {
      FlatIsRanked(families, n - 1);
    }
  }

  // ---------------------------------------------------------------- import

  predicate AssignmentAcceptable(version: int, r: Record) {
    r.AssignmentRec? ==> ClaimStateOk(r.assignment) && (version == LEGACY_VERSION ==> r.assignment.claim.None?)
  }

  /** The checks made before anything is written. */
  predicate Acceptable(sn: Snapshot) {
    && (sn.version == SNAPSHOT_VERSION || sn.version == LEGACY_VERSION)
    && AllAcceptable(sn.version, Records(sn))
  }

  predicate AllAcceptable(version: int, recs: seq<Record>) {
    forall i :: 0 <= i < |recs| ==> AssignmentAcceptable(version, recs[i])
  }

  function Import(s: State, sn: Snapshot): Loaded {
    if !Acceptable(sn) then Loaded(s, Some(Invalid)) else Load(s, Records(sn))
  }

  /** Keys absent from the snapshot are untouched; stored artifacts, evidence and reviews
      win over the snapshot; and this holds of a failed import too. */
  lemma ImportIsConservative(s: State, sn: Snapshot, t: Slot)
    requires !Mentions(Records(sn), t) || (Lookup(s, t).Some? && 5 <= t.rank <= 7)
    ensures Lookup(Import(s, sn).state, t) == Lookup(s, t)
  {
    if Acceptable(sn) {
      LoadIsConservative(s, Records(sn), t);
    }
  }

  /** Importing a snapshot a second time changes nothing, provided every assignment in it
      names a role that is found; otherwise the second import fails. */
  lemma ImportIsIdempotent(s: State, sn: Snapshot)
    requires WellTyped(sn) && Import(s, sn).error.None?
    ensures var s1 := Import(s, sn).state;
      && (Import(s1, sn).error.None? <==> RolesFound(s1, Records(sn)))
      && (RolesFound(s1, Records(sn)) ==> Import(s1, sn).state == s1)
  {
    FlatIsRanked(sn.families, FAMILIES);
    ImportTwice(s, Records(sn));
  }

  /** Importing what a store exports into an empty one succeeds exactly when every reference
      in the store resolves, and gives the same store but for the receipts. */
  lemma ExportImport(s: State, sn: Snapshot)
    requires sn.version == SNAPSHOT_VERSION && Lists(s, Records(sn))
    ensures Import(EMPTY, sn).error.None? <==> SelfContained(s)
    ensures SelfContained(s) ==> Import(EMPTY, sn).state == s.(receipts := EMPTY.receipts)
  {
    var recs := Records(sn);
    RoundTrip(s, recs);
    if SelfContained(s) {
      forall i | 0 <= i < |recs|
        ensures AssignmentAcceptable(sn.version, recs[i])
      {
        assert Lookup(s, SlotOf(recs[i])) == Some(recs[i]);
        assert Resolves(s, recs[i]);
      }
    }
  }

  // ---------------------------------------------------------------- the import loops

  /** `upsert...` and `createIfMissing...` on the store. */
  method ImportOne(store: MemoryStore, r: Record) returns (e: Option<Error>)
    modifies store
    ensures var o := ImportRecord(old(store.View()), r);
      && store.View() == o.state
      && (e.None? <==> !o.reply.Refused?)
      && (e.Some? ==> o.reply == Refused(e.value))
  {
    hide SnapshotModel.ImportRecord;
    if IsPlan(r) {
      e := ImportPlan(store, r);
    } else {
      e := ImportWork(store, r);
    }
  }

  method ImportPlan(store: MemoryStore, r: Record) returns (e: Option<Error>)
    requires IsPlan(r)
    modifies store
    ensures var o := ImportRecord(old(store.View()), r);
      && store.View() == o.state
      && (e.None? <==> !o.reply.Refused?)
      && (e.Some? ==> o.reply == Refused(e.value))
  {
    match r {
      case ProjectRec(x) =>
        e := store.CreateProject(x);
        if e == Some(Duplicate) { e := store.UpdateProject(x); }
      case SkillRec(x) =>
        e := store.CreateProjectSkill(x);
        if e == Some(Duplicate) { e := store.UpdateProjectSkill(x); }
      case RoleRec(x) =>
        e := store.CreateRole(x);
        if e == Some(Duplicate) { e := store.UpdateRole(x); }
      case WorkItemRec(x) =>
        e := store.CreateWorkItem(x);
        if e == Some(Duplicate) { e := store.UpdateWorkItem(x); }
      case EntryRec(x) =>
        e := store.CreateMemoryEntry(x);
        if e == Some(Duplicate) { e := store.UpdateMemoryEntry(x); }
      case CandidateRec(x) =>
        e := store.CreateMemoryCandidate(x);
        if e == Some(Duplicate) { e := store.UpdateMemoryCandidate(x); }
    }
  }

  method ImportWork(store: MemoryStore, r: Record) returns (e: Option<Error>)
    requires !IsPlan(r)
    modifies store
    ensures var o := ImportRecord(old(store.View()), r);
      && store.View() == o.state
      && (e.None? <==> !o.reply.Refused?)
      && (e.Some? ==> o.reply == Refused(e.value))
  {
    match r {
      case AssignmentRec(x) =>
        var a := store.CreateAssignment(x);
        if a == Err(Duplicate) { a := store.RestoreAssignmentSnapshot(x); }
        e := if a.Err? then Some(a.error) else None;
      case ArtifactRec(x) =>
        e := store.CreateArtifact(x);
        if e == Some(Duplicate) { e := None; }
      case EvidenceRec(x) =>
        e := store.CreateEvidence(x);
        if e == Some(Duplicate) { e := None; }
      case ReviewRec(x) =>
        e := store.CreateReview(x);
        if e == Some(Duplicate) { e := None; }
      case HandoffRec(x) =>
        var h := store.CreateHandoff(x);
        if h == Err(Duplicate) { h := store.RestoreHandoffSnapshot(x); }
        e := if h.Err? then Some(h.error) else None;
    }
  }

  /** The loop over one family. */
  method ImportFamily(store: MemoryStore, recs: seq<Record>) returns (e: Option<Error>)
    modifies store
    ensures Loaded(store.View(), e) == Load(old(store.View()), recs)
  {
    for i := 0 to |recs|
      invariant Loaded(store.View(), None) == Load(old(store.View()), recs[..i])
    {
      hide SnapshotModel.ImportRecord;
      assert recs[..i + 1][..i] == recs[..i];
      assert recs == recs[..i + 1] + recs[i + 1..];
      LoadConcat(old(store.View()), recs[..i + 1], recs[i + 1..]);
      e := ImportOne(store, recs[i]);
      if e.Some? {
        return;
      }
    }
    assert recs[..|recs|] == recs;
    e := None;
  }

  /** The validation loop. */
  method Preflight(sn: Snapshot) returns (ok: bool)
    requires WellTyped(sn)
    ensures ok <==> Acceptable(sn)
  {
    if sn.version != SNAPSHOT_VERSION && sn.version != LEGACY_VERSION {
      return false;
    }
    var assignments := sn.families[4];
    for i := 0 to |assignments|
      invariant forall j :: 0 <= j < i ==> AssignmentAcceptable(sn.version, assignments[j])
    {
      var a := assignments[i].assignment;
      if (sn.version == LEGACY_VERSION && a.claim.Some?) || !ClaimStateOk(a) {
        assert !AssignmentAcceptable(sn.version, assignments[i]);
        OnlyAssignmentsMatter(sn);
        return false;
      }
    }
    OnlyAssignmentsMatter(sn);
    return true;
  }

  lemma OnlyAssignmentsMatter(sn: Snapshot)
    requires WellTyped(sn)
    ensures AllAcceptable(sn.version, Records(sn)) <==> AllAcceptable(sn.version, sn.families[4])
  {
    AcceptableUpTo(sn, FAMILIES);
  }

  /** A single malformed claim, or a single claim in a version 1 snapshot, leaves the store
      exactly as it was, wherever it stands among the assignments. */
  lemma MalformedChangesNothing(s: State, sn: Snapshot, i: nat)
    requires WellTyped(sn) && i < |sn.families[4]|
    requires var a := sn.families[4][i].assignment;
      !ClaimStateOk(a) || (sn.version == LEGACY_VERSION && a.claim.Some?)
    ensures Import(s, sn) == Loaded(s, Some(Invalid))
  {
    OnlyAssignmentsMatter(sn);
    assert !AssignmentAcceptable(sn.version, sn.families[4][i]);
  }

  /** What is looked at before anything is written: the version is 1 or 2, every assignment
      has a valid claim state, and in version 1 none has a claim; anything else is refused as
      a whole. */
  lemma PreflightMeans(s: State, sn: Snapshot)
    requires WellTyped(sn)
    ensures Acceptable(sn) <==>
      && (sn.version == 1 || sn.version == 2)
      && forall i :: 0 <= i < |sn.families[4]| ==>
           ClaimStateOk(sn.families[4][i].assignment)
             && (sn.version == 1 ==> sn.families[4][i].assignment.claim == None)
    ensures !Acceptable(sn) ==> Import(s, sn) == Loaded(s, Some(Invalid))
  {
    OnlyAssignmentsMatter(sn);
    assert OfRank(sn.families[4], 4);
  }

  lemma {:induction false} AcceptableUpTo(sn: Snapshot, n: nat)
    requires WellTyped(sn) && n <= FAMILIES
    ensures AllAcceptable(sn.version, Flat(sn.families, n)) <==> (n > 4 ==> AllAcceptable(sn.version, sn.families[4]))
  {
    if n > 0 {
      AcceptableUpTo(sn, n - 1);
      AcceptableConcat(sn.version, Flat(sn.families, n - 1), sn.families[n - 1]);
      if n - 1 != 4 {
        assert OfRank(sn.families[n - 1], n - 1);
        assert AllAcceptable(sn.version, sn.families[n - 1]);
      }
    }
  }

  lemma AcceptableConcat(version: int, front: seq<Record>, back: seq<Record>)
    ensures AllAcceptable(version, front + back) <==> AllAcceptable(version, front) && AllAcceptable(version, back)
  {
    assert forall i :: 0 <= i < |front| ==> (front + back)[i] == front[i];
    assert forall j :: 0 <= j < |back| ==> (front + back)[|front| + j] == back[j];
  }

  lemma {:induction false} FlatExtends(families: seq<seq<Record>>, n: nat, m: nat)
    requires n <= m <= |families|
    ensures |Flat(families, n)| <= |Flat(families, m)| && Flat(families, m)[..|Flat(families, n)|] == Flat(families, n)
    decreases m
  {
    if n < m {
      FlatExtends(families, n, m - 1);
    }
  }

  /** A load that fails on the first families fails with the same outcome on all of them. */
  lemma FailedEarly(s: State, families: seq<seq<Record>>, n: nat)
    requires n <= |families| && Load(s, Flat(families, n)).error.Some?
    ensures Load(s, Flat(families, |families|)) == Load(s, Flat(families, n))
  {
    FlatExtends(families, n, |families|);
    var all, front := Flat(families, |families|), Flat(families, n);
    assert all == front + all[|front|..];
    LoadConcat(s, front, all[|front|..]);
  }

  /** `ImportSnapshot`. */
  method ImportSnapshot(store: MemoryStore, sn: Snapshot) returns (e: Option<Error>)
    requires WellTyped(sn)
    modifies store
    ensures Loaded(store.View(), e) == Import(old(store.View()), sn)
  {
    var ok := Preflight(sn);
    if !ok {
      return Some(Invalid);
    }
    for rank := 0 to FAMILIES
      invariant Loaded(store.View(), None) == Load(old(store.View()), Flat(sn.families, rank))
    {
      LoadConcat(old(store.View()), Flat(sn.families, rank), sn.families[rank]);
      e := ImportFamily(store, sn.families[rank]);
      if e.Some? {
        FailedEarly(old(store.View()), sn.families, rank + 1);
        return;
      }
    }
    e := None;
  }
}
