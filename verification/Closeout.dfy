/** The closeout decision for one work item: loops over four lists against a quantified
    specification. */
module Closeout {
  import opened Domain

  /** The blocker messages, one constructor a message, with what the message quotes. */
  datatype Blocker =
    | StillActive(count: nat)
    | HaveFailed(count: nat)
    | WereCancelled(count: nat)
    | NotComplete(count: nat)
    | HandoffsOpen(count: nat)
    | MissingEvidence(count: nat)
    | NotTriaged(title: Text)
    | HasOpenHandoff(title: Text)
    | TargetNotCompleted(title: Text)

  datatype Readiness = Readiness(
    ready: bool, closed: bool, blockers: seq<Blocker>,
    completedAssignments: nat, missingEvidence: seq<Id>, openHandoffs: seq<Id>, followUps: seq<Id>)

  // ---------------------------------------------------------------- vocabulary

  predicate Closed(status: Text) {
    Trim(status) == WORK_DONE || Trim(status) == WORK_CANCELLED
  }

  predicate IsCompleted(a: Assignment) {
    TrimStatus(a.status) == Completed
  }

  predicate IsActive(s: Status) {
    var t := TrimStatus(s);
    t == Queued || t == Claimed || t == Running || t == AwaitingApproval || t == AwaitingReview
  }

  predicate NeedsFollowUp(v: Review) {
    Trim(v.verdict) == CHANGES_REQUESTED || Trim(v.verdict) == BLOCKED_VERDICT
  }

  function Title(v: Review): Text {
    if v.title != Blank then v.title else v.id
  }

  /** Evidence filed for the assignment, or for the work item as a whole. */
  predicate Supports(x: Evidence, a: Assignment) {
    Trim(x.assignmentId) == Blank || Trim(x.assignmentId) == a.id
  }

  predicate HasEvidence(a: Assignment, evidence: seq<Evidence>) {
    exists i :: 0 <= i < |evidence| && Supports(evidence[i], a)
  }

  predicate Linked(v: Review, h: Handoff) {
    exists i :: 0 <= i < |h.linkedArtifactIds| && Trim(h.linkedArtifactIds[i]) == v.id
  }

  predicate IsOpen(h: Handoff) {
    TrimHandoffStatus(h.status) == Open
  }

  predicate IsDropped(h: Handoff) {
    TrimHandoffStatus(h.status) == Dismissed || TrimHandoffStatus(h.status) == Superseded
  }

  predicate Aimed(h: Handoff) {
    Trim(h.targetAssignmentId) != Blank
  }

  predicate HitsCompleted(h: Handoff, byId: map<Id, Assignment>) {
    Aimed(h) && Trim(h.targetAssignmentId) in byId && IsCompleted(byId[Trim(h.targetAssignmentId)])
  }

  // ---------------------------------------------------------------- the decision, declaratively

  ghost predicate SomeLinked(v: Review, handoffs: seq<Handoff>) {
    exists h :: h in handoffs && Linked(v, h)
  }

  ghost predicate SomeLinkedOpen(v: Review, handoffs: seq<Handoff>) {
    exists h :: h in handoffs && Linked(v, h) && IsOpen(h)
  }

  ghost predicate SomeLinkedAimed(v: Review, handoffs: seq<Handoff>) {
    exists h :: h in handoffs && Linked(v, h) && Aimed(h)
  }

  ghost predicate SomeLinkedDropped(v: Review, handoffs: seq<Handoff>) {
    exists h :: h in handoffs && Linked(v, h) && IsDropped(h)
  }

  ghost predicate SomeLinkedHits(v: Review, handoffs: seq<Handoff>, byId: map<Id, Assignment>) {
    exists h :: h in handoffs && Linked(v, h) && HitsCompleted(h, byId)
  }

  /** What a review still needs, if anything. */
  ghost function FollowUpBlocker(v: Review, handoffs: seq<Handoff>, byId: map<Id, Assignment>): Option<Blocker> {
    if !NeedsFollowUp(v) then None
    else if !SomeLinked(v, handoffs) then Some(NotTriaged(Title(v)))
    else if SomeLinkedOpen(v, handoffs) then Some(HasOpenHandoff(Title(v)))
    else if SomeLinkedHits(v, handoffs, byId) then None
    else if SomeLinkedAimed(v, handoffs) then Some(TargetNotCompleted(Title(v)))
    else if SomeLinkedDropped(v, handoffs) then None
    else Some(NotTriaged(Title(v)))
  }

  /** A review's follow-up is settled: linked handoffs, none open, and either one aimed at
      a listed assignment, or none aimed at all and some dismissed or superseded. */
  ghost predicate Settled(v: Review, assignments: seq<Assignment>, handoffs: seq<Handoff>) {
    && !SomeLinkedOpen(v, handoffs)
    && (|| (exists h, a :: h in handoffs && Linked(v, h) && Aimed(h) && a in assignments
              && a.id == Trim(h.targetAssignmentId))
        || (!SomeLinkedAimed(v, handoffs) && SomeLinkedDropped(v, handoffs)))
  }

  /** When a work item may be closed. */
  ghost predicate MayClose(w: WorkItem, assignments: seq<Assignment>, evidence: seq<Evidence>, reviews: seq<Review>,
                           handoffs: seq<Handoff>) {
    && !Closed(w.status)
    && (forall a :: a in assignments ==> IsCompleted(a) && HasEvidence(a, evidence))
    && (forall h :: h in handoffs ==> !IsOpen(h))
    && (forall v :: v in reviews && NeedsFollowUp(v) ==> Settled(v, assignments, handoffs))
  }

  /** The verdict depends only on which elements the four lists hold, not on their order. */
  lemma OrderIrrelevant(w: WorkItem, as1: seq<Assignment>, as2: seq<Assignment>, ev1: seq<Evidence>, ev2: seq<Evidence>,
                        rs1: seq<Review>, rs2: seq<Review>, hs1: seq<Handoff>, hs2: seq<Handoff>)
    requires forall x :: x in as1 <==> x in as2
    requires forall x :: x in ev1 <==> x in ev2
    requires forall x :: x in rs1 <==> x in rs2
    requires forall x :: x in hs1 <==> x in hs2
    ensures MayClose(w, as1, ev1, rs1, hs1) ==> MayClose(w, as2, ev2, rs2, hs2)
  {
    if MayClose(w, as1, ev1, rs1, hs1) {
      forall a | a in as2
        ensures IsCompleted(a) && HasEvidence(a, ev2)
      {
        assert a in as1;
        var i :| 0 <= i < |ev1| && Supports(ev1[i], a);
        assert ev1[i] in ev2;
        var j :| 0 <= j < |ev2| && ev2[j] == ev1[i];
        assert Supports(ev2[j], a);
      }
      forall v | v in rs2 && NeedsFollowUp(v)
        ensures Settled(v, as2, hs2)
      {
        assert v in rs1 && Settled(v, as1, hs1);
        if SomeLinkedAimed(v, hs1) {
          var h, a :| h in hs1 && Linked(v, h) && Aimed(h) && a in as1 && a.id == Trim(h.targetAssignmentId);
          assert h in hs2 && a in as2;
        } else {
          var h :| h in hs1 && Linked(v, h) && IsDropped(h);
          assert h in hs2;
        }
      }
    }
  }

  // ---------------------------------------------------------------- loops

  function CountIf(assignments: seq<Assignment>, p: Status -> bool): nat {
    if assignments == [] then 0
    else CountIf(assignments[..|assignments| - 1], p) + if p(TrimStatus(assignments[|assignments| - 1].status)) then 1
                                                          else 0
  }

  lemma {:induction false} CountIfZero(assignments: seq<Assignment>, p: Status -> bool)
    ensures CountIf(assignments, p) == 0 <==> forall a :: a in assignments ==> !p(TrimStatus(a.status))
  {
    if assignments != [] {
      var n := |assignments| - 1;
      CountIfZero(assignments[..n], p);
      assert assignments == assignments[..n] + [assignments[n]];
    }
  }

  /** `countAssignments`. */
  method CountAssignments(assignments: seq<Assignment>, p: Status -> bool) returns (count: nat)
    ensures count == CountIf(assignments, p)
  {
    count := 0;
    for i := 0 to |assignments|
      invariant count == CountIf(assignments[..i], p)
    {
      assert assignments[..i + 1][..i] == assignments[..i];
      if p(TrimStatus(assignments[i].status)) {
        count := count + 1;
      }
    }
    assert assignments[..|assignments|] == assignments;
  }

  /** `assignmentHasCloseoutEvidence`. */
  method AssignmentHasEvidence(a: Assignment, evidence: seq<Evidence>) returns (found: bool)
    ensures found == HasEvidence(a, evidence)
  {
    for i := 0 to |evidence|
      invariant forall j :: 0 <= j < i ==> !Supports(evidence[j], a)
    {
      var assignmentId := Trim(evidence[i].assignmentId);
      if assignmentId == Blank || assignmentId == a.id {
        assert Supports(evidence[i], a);
        return true;
      }
    }
    return false;
  }

  method LinksReview(v: Review, h: Handoff) returns (found: bool)
    ensures found == Linked(v, h)
  {
    for i := 0 to |h.linkedArtifactIds|
      invariant forall j :: 0 <= j < i ==> Trim(h.linkedArtifactIds[j]) != v.id
    {
      if Trim(h.linkedArtifactIds[i]) == v.id {
        return true;
      }
    }
    return false;
  }

  /** The inner loop of `reviewFollowUpBlocker`: the handoffs linked to a review, in order. */
  method LinkedHandoffs(v: Review, handoffs: seq<Handoff>) returns (linked: seq<Handoff>)
    ensures forall h :: h in linked <==> h in handoffs && Linked(v, h)
  {
    linked := [];
    for i := 0 to |handoffs|
      invariant forall h :: h in linked <==> h in handoffs[..i] && Linked(v, h)
    {
      var found := LinksReview(v, handoffs[i]);
      if found {
        linked := linked + [handoffs[i]];
      }
    }
  }

  /** `reviewFollowUpBlocker`. */
  method ReviewFollowUpBlocker(v: Review, handoffs: seq<Handoff>, byId: map<Id, Assignment>)
    returns (b: Option<Blocker>)
    ensures b == FollowUpBlocker(v, handoffs, byId)
  {
    if !NeedsFollowUp(v) { return None; }
    var linked := LinkedHandoffs(v, handoffs);
    if |linked| == 0 {
      return Some(NotTriaged(Title(v)));
    }
    assert linked[0] in handoffs;
    var hasTarget, hasCompleted, hasDropped := false, false, false;
    for i := 0 to |linked|
      invariant forall h :: h in linked[..i] ==> !IsOpen(h)
      invariant hasTarget <==> exists h :: h in linked[..i] && Aimed(h)
      invariant hasCompleted <==> exists h :: h in linked[..i] && HitsCompleted(h, byId)
      invariant hasDropped <==> exists h :: h in linked[..i] && IsDropped(h)
    {
      var h := linked[i];
      assert h in linked && h in handoffs;
      assert linked[..i + 1] == linked[..i] + [h];
      if TrimHandoffStatus(h.status) == Open {
        return Some(HasOpenHandoff(Title(v)));
      }
      if IsDropped(h) {
        hasDropped := true;
      }
      var target := Trim(h.targetAssignmentId);
      assert Aimed(h) <==> target != Blank;
      assert HitsCompleted(h, byId) <==> target != Blank && target in byId && IsCompleted(byId[target]);
      if target != Blank {
        hasTarget := true;
        if target in byId && IsCompleted(byId[target]) {
          hasCompleted := true;
        }
      }
    }
    assert linked[..|linked|] == linked;
    if hasCompleted { return None; }
    if hasTarget { return Some(TargetNotCompleted(Title(v))); }
    if hasDropped { return None; }
    return Some(NotTriaged(Title(v)));
  }

  /** `assignmentsByID`: a later assignment with the same id wins. */
  function ById(assignments: seq<Assignment>): (m: map<Id, Assignment>)
    ensures forall k :: k in m ==> m[k] in assignments && m[k].id == k
    ensures forall a :: a in assignments ==> a.id in m
  {
    if assignments == [] then map[]
    else
      var n := |assignments| - 1;
      assert assignments == assignments[..n] + [assignments[n]];
      ById(assignments[..n])[assignments[n].id := assignments[n]]
  }

  method AssignmentsById(assignments: seq<Assignment>) returns (m: map<Id, Assignment>)
    ensures m == ById(assignments)
  {
    m := map[];
    for i := 0 to |assignments|
      invariant m == ById(assignments[..i])
    {
      assert assignments[..i + 1][..i] == assignments[..i];
      m := m[assignments[i].id := assignments[i]];
    }
    assert assignments[..|assignments|] == assignments;
  }

  /** `uniqueReadinessStrings`: first occurrences, in order. */
  method UniqueBlockers(values: seq<Blocker>) returns (out: seq<Blocker>)
    ensures forall b :: b in out <==> b in values
    ensures forall i, j :: 0 <= i < j < |out| ==> out[i] != out[j]
  {
    out := [];
    var seen := {};
    for i := 0 to |values|
      invariant forall b :: b in out <==> b in values[..i]
      invariant forall b :: b in seen <==> b in values[..i]
      invariant forall k, l :: 0 <= k < l < |out| ==> out[k] != out[l]
    {
      if values[i] !in seen {
        seen := seen + {values[i]};
        out := out + [values[i]];
      }
    }
  }

  /** The completed assignments without evidence, in order. */
  ghost function Unsupported(assignments: seq<Assignment>, evidence: seq<Evidence>): seq<Id> {
    if assignments == [] then []
    else
      var n := |assignments| - 1;
      var a := assignments[n];
      Unsupported(assignments[..n], evidence) + if IsCompleted(a) && !HasEvidence(a, evidence) then [a.id] else []
  }

  lemma {:induction false} UnsupportedEmpty(assignments: seq<Assignment>, evidence: seq<Evidence>)
    ensures Unsupported(assignments, evidence) == [] <==>
      forall a :: a in assignments && IsCompleted(a) ==> HasEvidence(a, evidence)
  {
    if assignments != [] {
      var n := |assignments| - 1;
      UnsupportedEmpty(assignments[..n], evidence);
      assert assignments == assignments[..n] + [assignments[n]];
    }
  }

  method ScanEvidence(assignments: seq<Assignment>, evidence: seq<Evidence>, closed: bool)
    returns (completed: nat, missing: seq<Id>)
    ensures completed == CountIf(assignments, s => s == Completed)
    ensures missing == if closed then [] else Unsupported(assignments, evidence)
  {
    completed, missing := 0, [];
    for i := 0 to |assignments|
      invariant completed == CountIf(assignments[..i], s => s == Completed)
      invariant missing == if closed then [] else Unsupported(assignments[..i], evidence)
    {
      assert assignments[..i + 1][..i] == assignments[..i];
      if TrimStatus(assignments[i].status) != Completed {
        continue;
      }
      completed := completed + 1;
      if !closed {
        var found := AssignmentHasEvidence(assignments[i], evidence);
        if !found {
          missing := missing + [assignments[i].id];
        }
      }
    }
    assert assignments[..|assignments|] == assignments;
  }

  ghost function OpenIds(handoffs: seq<Handoff>): seq<Id> {
    if handoffs == [] then []
    else OpenIds(handoffs[..|handoffs| - 1]) + if IsOpen(handoffs[|handoffs| - 1]) then [handoffs[|handoffs| - 1].id]
                                                 else []
  }

  lemma {:induction false} OpenIdsEmpty(handoffs: seq<Handoff>)
    ensures OpenIds(handoffs) == [] <==> forall h :: h in handoffs ==> !IsOpen(h)
  {
    if handoffs != [] {
      var n := |handoffs| - 1;
      OpenIdsEmpty(handoffs[..n]);
      assert handoffs == handoffs[..n] + [handoffs[n]];
    }
  }

  method ScanHandoffs(handoffs: seq<Handoff>) returns (open: seq<Id>)
    ensures open == OpenIds(handoffs)
  {
    open := [];
    for i := 0 to |handoffs|
      invariant open == OpenIds(handoffs[..i])
    {
      assert handoffs[..i + 1][..i] == handoffs[..i];
      if TrimHandoffStatus(handoffs[i].status) == Open {
        open := open + [handoffs[i].id];
      }
    }
    assert handoffs[..|handoffs|] == handoffs;
  }

  /** The reviews with an open follow-up, in order. */
  ghost function FollowUpIds(reviews: seq<Review>, handoffs: seq<Handoff>, byId: map<Id, Assignment>): (r: seq<Id>)
    ensures forall id :: id in r <==> exists v :: v in reviews && v.id == id
                                        && FollowUpBlocker(v, handoffs, byId).Some?
  {
    if reviews == [] then []
    else
      var n := |reviews| - 1;
      assert reviews == reviews[..n] + [reviews[n]];
      FollowUpIds(reviews[..n], handoffs, byId)
      + if FollowUpBlocker(reviews[n], handoffs, byId).Some? then [reviews[n].id] else []
  }

  method ScanReviews(reviews: seq<Review>, handoffs: seq<Handoff>, byId: map<Id, Assignment>)
    returns (ids: seq<Id>, blockers: seq<Blocker>)
    ensures forall b :: b in blockers <==> exists v :: v in reviews && FollowUpBlocker(v, handoffs, byId) == Some(b)
    ensures ids == FollowUpIds(reviews, handoffs, byId)
  {
    ids, blockers := [], [];
    for i := 0 to |reviews|
      invariant forall b :: b in blockers <==> exists v :: v in reviews[..i]
                                                 && FollowUpBlocker(v, handoffs, byId) == Some(b)
      invariant ids == FollowUpIds(reviews[..i], handoffs, byId)
    {
      var v := reviews[i];
      assert reviews[..i + 1] == reviews[..i] + [v];
      assert reviews[..i + 1][..i] == reviews[..i];
      var b := ReviewFollowUpBlocker(v, handoffs, byId);
      if b.None? {
        continue;
      }
      ids := ids + [v.id];
      blockers := blockers + [b.value];
    }
    assert reviews[..|reviews|] == reviews;
  }

  /** The four counted blockers vanish exactly when every assignment is completed. */
  lemma CountsVanish(assignments: seq<Assignment>)
    ensures
      && CountIf(assignments, IsActive) == 0
      && CountIf(assignments, s => s == Failed) == 0
      && CountIf(assignments, s => s == Cancelled) == 0
      && CountIf(assignments, s => !IsActive(s) && s != Completed && s != Failed && s != Cancelled) == 0
      <==> forall a :: a in assignments ==> IsCompleted(a)
  {
    CountIfZero(assignments, IsActive);
    CountIfZero(assignments, s => s == Failed);
    CountIfZero(assignments, s => s == Cancelled);
    CountIfZero(assignments, s => !IsActive(s) && s != Completed && s != Failed && s != Cancelled);
    forall a | a in assignments { TrimTwice(a.status); }
  }

  lemma TrimTwice(s: Status)
    ensures TrimStatus(TrimStatus(s)) == TrimStatus(s)
  {
  }

  /** With every assignment completed, a review is unblocked exactly when it is settled. */
  lemma UnblockedIsSettled(v: Review, assignments: seq<Assignment>, handoffs: seq<Handoff>)
    requires NeedsFollowUp(v)
    requires forall a :: a in assignments ==> IsCompleted(a)
    ensures FollowUpBlocker(v, handoffs, ById(assignments)).None? <==> Settled(v, assignments, handoffs)
  {
  }

  /** Every assignment is completed, no handoff is open, and no evidence is missing. */
  ghost predicate NothingCounted(assignments: seq<Assignment>, open: seq<Id>, missing: seq<Id>) {
    (forall a :: a in assignments ==> IsCompleted(a)) && open == [] && missing == []
  }

  // ---------------------------------------------------------------- the messages

  /** How many of the listed elements satisfy `p`, by position. */
  ghost function Count<T>(xs: seq<T>, p: T -> bool): nat {
    |set i: nat | i < |xs| && p(xs[i])|
  }

  lemma CountNext<T>(xs: seq<T>, p: T -> bool)
    requires xs != []
    ensures var n := |xs| - 1; Count(xs, p) == Count(xs[..n], p) + if p(xs[n]) then 1 else 0
  {
    var n: nat := |xs| - 1;
    var front := set i: nat | i < |xs[..n]| && p(xs[..n][i]);
    var all := set i: nat | i < |xs| && p(xs[i]);
    assert all == if p(xs[n]) then front + {n} else front;
  }

  ghost function StatusIn(names: set<Status>): Assignment -> bool {
    (a: Assignment) => TrimStatus(a.status) in names
  }

  ghost function StatusBeyond(names: set<Status>): Assignment -> bool {
    (a: Assignment) => TrimStatus(a.status) !in names
  }

  ghost function LeftOpen(): Handoff -> bool {
    (h: Handoff) => TrimHandoffStatus(h.status) == Open
  }

  /** Completed, with no evidence of its own and none for the work item as a whole. */
  ghost function Bare(evidence: seq<Evidence>): Assignment -> bool {
    (a: Assignment) => TrimStatus(a.status) == Completed
      && forall x :: x in evidence ==> Trim(x.assignmentId) != Blank && Trim(x.assignmentId) != a.id
  }

  lemma {:induction false} CountIfMeans(assignments: seq<Assignment>, p: Status -> bool, q: Assignment -> bool)
    requires forall a :: q(a) == p(TrimStatus(a.status))
    ensures CountIf(assignments, p) == Count(assignments, q)
  {
    if assignments != [] {
      CountIfMeans(assignments[..|assignments| - 1], p, q);
      CountNext(assignments, q);
    }
  }

  lemma {:induction false} OpenIdsCount(handoffs: seq<Handoff>)
    ensures |OpenIds(handoffs)| == Count(handoffs, LeftOpen())
  {
    if handoffs != [] {
      OpenIdsCount(handoffs[..|handoffs| - 1]);
      CountNext(handoffs, LeftOpen());
    }
  }

  lemma {:induction false} UnsupportedCount(assignments: seq<Assignment>, evidence: seq<Evidence>)
    ensures |Unsupported(assignments, evidence)| == Count(assignments, Bare(evidence))
  {
    if assignments != [] {
      var n := |assignments| - 1;
      UnsupportedCount(assignments[..n], evidence);
      CountNext(assignments, Bare(evidence));
      BareMeans(assignments[n], evidence);
    }
  }

  /** The reported ids are those of the completed assignments without evidence, and of the
      open handoffs. */
  lemma {:induction false} UnsupportedMeans(assignments: seq<Assignment>, evidence: seq<Evidence>, id: Id)
    ensures id in Unsupported(assignments, evidence) <==>
      exists a :: a in assignments && a.id == id && Bare(evidence)(a)
  {
    if assignments != [] {
      var n := |assignments| - 1;
      assert assignments == assignments[..n] + [assignments[n]];
      UnsupportedMeans(assignments[..n], evidence, id);
      BareMeans(assignments[n], evidence);
      hide Bare, HasEvidence, IsCompleted;
    }
  }

  lemma {:induction false} OpenIdsMean(handoffs: seq<Handoff>, id: Id)
    ensures id in OpenIds(handoffs) <==>
      exists h :: h in handoffs && h.id == id && TrimHandoffStatus(h.status) == Open
  {
    if handoffs != [] {
      var n := |handoffs| - 1;
      assert handoffs == handoffs[..n] + [handoffs[n]];
      OpenIdsMean(handoffs[..n], id);
    }
  }

  lemma BareMeans(a: Assignment, evidence: seq<Evidence>)
    ensures Bare(evidence)(a) <==> IsCompleted(a) && !HasEvidence(a, evidence)
  {
    if !HasEvidence(a, evidence) {
      forall x | x in evidence
        ensures !Supports(x, a)
      {
        var i :| 0 <= i < |evidence| && evidence[i] == x;
      }
    }
  }

  /** The six counted messages: each with exactly its count, and only if that is positive. */
  ghost predicate Counts(b: Blocker, assignments: seq<Assignment>, open: nat, missing: nat) {
    match b
    case StillActive(n) =>
      n > 0 && n == Count(assignments, StatusIn({Queued, Claimed, Running, AwaitingApproval, AwaitingReview}))
    case HaveFailed(n) => n > 0 && n == Count(assignments, StatusIn({Failed}))
    case WereCancelled(n) => n > 0 && n == Count(assignments, StatusIn({Cancelled}))
    case NotComplete(n) =>
      n > 0 && n == Count(assignments, StatusBeyond({Queued, Claimed, Running, AwaitingApproval, AwaitingReview,
                                                     Completed, Failed, Cancelled}))
    case HandoffsOpen(n) => n > 0 && n == open
    case MissingEvidence(n) => n > 0 && n == missing
    case _ => false
  }

  lemma NothingCountedMeans(assignments: seq<Assignment>, open: seq<Id>, missing: seq<Id>)
    ensures NothingCounted(assignments, open, missing) <==>
      && CountIf(assignments, IsActive) == 0 && CountIf(assignments, s => s == Failed) == 0
      && CountIf(assignments, s => s == Cancelled) == 0
      && CountIf(assignments, s => !IsActive(s) && s != Completed && s != Failed && s != Cancelled) == 0
      && open == [] && missing == []
  {
    CountsVanish(assignments);
  }

  method CountedBlockers(assignments: seq<Assignment>, open: seq<Id>, missing: seq<Id>) returns (blockers: seq<Blocker>)
    ensures blockers == [] <==> NothingCounted(assignments, open, missing)
    ensures forall b :: b in blockers <==> Counts(b, assignments, |open|, |missing|)
  {
    var active := CountAssignments(assignments, IsActive);
    var failed := CountAssignments(assignments, s => s == Failed);
    var cancelled := CountAssignments(assignments, s => s == Cancelled);
    var unresolved := CountAssignments(assignments, s => !IsActive(s) && s != Completed && s != Failed
      && s != Cancelled);
    NothingCountedMeans(assignments, open, missing);
    CountedByStatus(assignments, active, failed, cancelled, unresolved);
    blockers := WhenPositive(active, StillActive(active));
    blockers := blockers + WhenPositive(failed, HaveFailed(failed));
    blockers := blockers + WhenPositive(cancelled, WereCancelled(cancelled));
    blockers := blockers + WhenPositive(unresolved, NotComplete(unresolved));
    blockers := blockers + WhenPositive(|open|, HandoffsOpen(|open|));
    blockers := blockers + WhenPositive(|missing|, MissingEvidence(|missing|));
    hide CountIf, Count, StatusIn, StatusBeyond, NothingCounted, IsActive, TrimStatus;
  }

  function WhenPositive(count: nat, b: Blocker): (r: seq<Blocker>)
    ensures forall x :: x in r <==> count > 0 && x == b
  {
    if count > 0 then [b] else []
  }

  lemma CountedByStatus(assignments: seq<Assignment>, active: nat, failed: nat, cancelled: nat, unresolved: nat)
    requires active == CountIf(assignments, IsActive)
    requires failed == CountIf(assignments, s => s == Failed) && cancelled == CountIf(assignments, s => s == Cancelled)
    requires unresolved == CountIf(assignments, s => !IsActive(s) && s != Completed && s != Failed && s != Cancelled)
    ensures active ==
      Count(assignments, StatusIn({Queued, Claimed, Running, AwaitingApproval, AwaitingReview}))
    ensures failed == Count(assignments, StatusIn({Failed})) && cancelled == Count(assignments, StatusIn({Cancelled}))
    ensures unresolved ==
      Count(assignments, StatusBeyond({Queued, Claimed, Running, AwaitingApproval, AwaitingReview,
                                       Completed, Failed, Cancelled}))
  {
    forall s: Status
      ensures TrimStatus(TrimStatus(s)) == TrimStatus(s)
    {
      TrimTwice(s);
    }
    CountIfMeans(assignments, IsActive, StatusIn({Queued, Claimed, Running, AwaitingApproval, AwaitingReview}));
    CountIfMeans(assignments, s => s == Failed, StatusIn({Failed}));
    CountIfMeans(assignments, s => s == Cancelled, StatusIn({Cancelled}));
    CountIfMeans(assignments, s => !IsActive(s) && s != Completed && s != Failed && s != Cancelled,
                 StatusBeyond({Queued, Claimed, Running, AwaitingApproval, AwaitingReview,
                               Completed, Failed, Cancelled}));
  }

  /** The message of a review, said of the handoffs alone: not triaged without a linked
      handoff, or with linked ones that are neither open nor aimed nor dropped; an open one
      if any linked handoff is open; otherwise an unfinished target if some linked handoff is
      aimed and none at a completed assignment. */
  lemma FollowUpBlockerMeans(v: Review, handoffs: seq<Handoff>, byId: map<Id, Assignment>)
    ensures var b := FollowUpBlocker(v, handoffs, byId);
      var asks := Trim(v.verdict) in {CHANGES_REQUESTED, BLOCKED_VERDICT};
      var title := if v.title != Blank then v.title else v.id;
      var open := exists h :: h in handoffs && Links(h, v) && TrimHandoffStatus(h.status) == Open;
      var aimed := exists h :: h in handoffs && Links(h, v) && Trim(h.targetAssignmentId) != Blank;
      var hit := exists h :: h in handoffs && Links(h, v) && Trim(h.targetAssignmentId) != Blank
                             && Trim(h.targetAssignmentId) in byId
                             && TrimStatus(byId[Trim(h.targetAssignmentId)].status) == Completed;
      var dropped := exists h :: h in handoffs && Links(h, v)
                                 && TrimHandoffStatus(h.status) in {Dismissed, Superseded};
      && (b == Some(HasOpenHandoff(title)) <==> asks && open)
      && (b == Some(TargetNotCompleted(title)) <==> asks && !open && aimed && !hit)
      && (b == Some(NotTriaged(title)) <==> asks && !open && !aimed && !dropped)
      && (b == None || b in {Some(HasOpenHandoff(title)), Some(TargetNotCompleted(title)), Some(NotTriaged(title))})
  {
    forall h: Handoff
      ensures Links(h, v) <==> Linked(v, h)
    {
      if Linked(v, h) {
        var i :| 0 <= i < |h.linkedArtifactIds| && Trim(h.linkedArtifactIds[i]) == v.id;
        assert h.linkedArtifactIds[i] in h.linkedArtifactIds;
      }
    }
    hide Links, Linked;
  }

  /** Some linked artifact id is that of the review. */
  predicate Links(h: Handoff, v: Review) {
    exists id :: id in h.linkedArtifactIds && Trim(id) == v.id
  }

  /** What an open work item still needs: the counted messages, and those of its reviews. */
  ghost predicate Needed(b: Blocker, assignments: seq<Assignment>, evidence: seq<Evidence>, reviews: seq<Review>,
                         handoffs: seq<Handoff>) {
    || Counts(b, assignments, Count(handoffs, LeftOpen()), Count(assignments, Bare(evidence)))
    || exists v :: v in reviews && FollowUpBlocker(v, handoffs, ById(assignments)) == Some(b)
  }

  /** `EvaluateWorkItemCloseoutReadiness`. The verdict is exactly `MayClose`; a closed item
      is reported as such with nothing to do; and the reported lists are what they say. */
  method Evaluate(w: WorkItem, assignments: seq<Assignment>, evidence: seq<Evidence>, reviews: seq<Review>,
                  handoffs: seq<Handoff>)
    returns (r: Readiness)
    ensures r.ready <==> MayClose(w, assignments, evidence, reviews, handoffs)
    ensures r.closed <==> Trim(w.status) in {WORK_DONE, WORK_CANCELLED}
    ensures !r.closed ==> (r.ready <==> r.blockers == [])
    ensures r.completedAssignments == CountIf(assignments, s => s == Completed)
    ensures !r.closed ==> forall b :: b in r.blockers <==> Needed(b, assignments, evidence, reviews, handoffs)
    ensures forall i, j :: 0 <= i < j < |r.blockers| ==> r.blockers[i] != r.blockers[j]
    ensures !r.closed ==> r.missingEvidence == Unsupported(assignments, evidence) && r.openHandoffs == OpenIds(handoffs)
    ensures r.closed ==> r.blockers == [] && r.missingEvidence == [] && r.openHandoffs == [] && r.followUps == []
    ensures !r.closed ==> r.followUps == FollowUpIds(reviews, handoffs, ById(assignments))
  {
    var byId := AssignmentsById(assignments);
    var closed := Closed(w.status);
    var completed, missing := ScanEvidence(assignments, evidence, closed);
    if closed {
      return Readiness(false, true, [], completed, missing, [], []);
    }
    var open := ScanHandoffs(handoffs);
    var blockers := CountedBlockers(assignments, open, missing);
    var followUps, needed := ScanReviews(reviews, handoffs, byId);
    var all := blockers + needed;
    var unique := UniqueBlockers(all);
    assert unique == [] <==> all == [] by {
      if all != [] { assert all[0] in unique; }
      if unique != [] { assert unique[0] in all; }
    }
    VerdictIsMayClose(w, assignments, evidence, reviews, handoffs, needed);
    OpenIdsCount(handoffs);
    UnsupportedCount(assignments, evidence);
    hide Counts, FollowUpBlocker, MayClose, NothingCounted;
    return Readiness(unique == [], false, unique, completed, missing, open, followUps);
  }

  /** The pieces of the verdict add up to the declarative decision. */
  lemma VerdictIsMayClose(w: WorkItem, assignments: seq<Assignment>, evidence: seq<Evidence>, reviews: seq<Review>,
                          handoffs: seq<Handoff>,
                          needed: seq<Blocker>)
    requires !Closed(w.status)
    requires forall b :: b in needed <==> exists v :: v in reviews
                                            && FollowUpBlocker(v, handoffs, ById(assignments)) == Some(b)
    ensures MayClose(w, assignments, evidence, reviews, handoffs) <==>
      NothingCounted(assignments, OpenIds(handoffs), Unsupported(assignments, evidence)) && needed == []
  {
    OpenIdsEmpty(handoffs);
    UnsupportedEmpty(assignments, evidence);
    if forall a :: a in assignments ==> IsCompleted(a) {
      NeededEmpty(assignments, reviews, handoffs, needed);
    }
  }

  lemma NeededEmpty(assignments: seq<Assignment>, reviews: seq<Review>, handoffs: seq<Handoff>, needed: seq<Blocker>)
    requires forall a :: a in assignments ==> IsCompleted(a)
    requires forall b :: b in needed <==> exists v :: v in reviews
                                            && FollowUpBlocker(v, handoffs, ById(assignments)) == Some(b)
    ensures needed == [] <==> forall v :: v in reviews && NeedsFollowUp(v) ==> Settled(v, assignments, handoffs)
  {
    forall v | v in reviews && NeedsFollowUp(v)
      ensures FollowUpBlocker(v, handoffs, ById(assignments)).None? <==> Settled(v, assignments, handoffs)
    {
      UnblockedIsSettled(v, assignments, handoffs);
    }
    if needed != [] {
      assert needed[0] in needed;
      var v :| v in reviews && FollowUpBlocker(v, handoffs, ById(assignments)) == Some(needed[0]);
      assert !Settled(v, assignments, handoffs);
    }
    forall v | v in reviews && FollowUpBlocker(v, handoffs, ById(assignments)).Some?
      ensures |needed| > 0
    {
      var b := FollowUpBlocker(v, handoffs, ById(assignments)).value;
      assert Some(b) == FollowUpBlocker(v, handoffs, ById(assignments));
      assert b in needed;
    }
  }
}
