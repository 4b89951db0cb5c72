/** How one event moves one assignment; every claim about whole runs rests on this. */
module Runs {
  import opened Domain
  import opened AssignmentRules
  import opened AssignmentProofs
  import opened StoreModel
  import Integrity

  /** `e` is a transition that takes the assignment at `k` from `a` to `b`. */
  predicate Moves(e: Event, k: Key, a: Assignment, b: Assignment) {
    && e.op.OpTransit? && k == Key(e.op.projectId, e.op.id)
    && ArgumentsOk(e.op.transition)
    && Next(Memory, e.op.transition, a, e.now) == Ok(b)
  }

  /** `e` creates the assignment `a` at `k`: queued and unclaimed. */
  predicate Creates(e: Event, k: Key, a: Assignment) {
    && a.status == Queued && a.claim.None? && a.claimedBy == Blank && a.roleId != Blank
    && Key(a.projectId, a.id) == k
    && (|| (e.op.OpCreateAssignment? && a == FreshAssignment(e.op.assignment, e.now))
        || (e.op.OpAcceptHandoff? && a.id == e.op.newAssignmentId && a.startedAt == a.completedAt == ZERO_TIME
            && a.updatedAt == a.createdAt == e.op.created))
  }

  /** `e` removes the assignment at `k`, directly or by cascade. */
  predicate Removes(e: Event, k: Key) {
    || (e.op.OpDeleteAssignment? && k == Key(e.op.projectId, e.op.id))
    || (e.op.OpDeleteWorkItem? && k.project == e.op.projectId)
    || (e.op.OpDeleteProject? && k.project == e.op.projectId)
  }

  /** What an event may do to the assignment at `k`. */
  predicate Evolves(s: State, e: Event, s': State, k: Key) {
    && (k in s'.assignments.rows ==>
          || (k in s.assignments.rows && s'.assignments.rows[k] == s.assignments.rows[k])
          || (k !in s.assignments.rows && Creates(e, k, s'.assignments.rows[k]))
          || (k in s.assignments.rows && Moves(e, k, s.assignments.rows[k], s'.assignments.rows[k])))
    && (k in s.assignments.rows && k !in s'.assignments.rows ==> Removes(e, k))
  }

  /** Whatever the event, an assignment is left alone, created, moved by one transition,
      or removed. */
  lemma AssignmentEvolves(s: State, e: Event, k: Key)
    ensures Evolves(s, e, Apply(s, e).state, k)
  {
    hide StoreModel.Transit, StoreModel.AcceptHandoff, StoreModel.PatchHandoff, StoreModel.ApplyPlain;
    match e.op
    case OpTransit(p, id, t) => TransitEvolves(s, p, id, t, e.now, k);
    case OpAcceptHandoff(c, newId, created) => AcceptEvolves(s, c, newId, created, e.now, k);
    case OpPatchHandoff(_, _, _, _) => HandoffsApart(s, e);
    case OpPlain(_) => HandoffsApart(s, e);
    case _ =>
  }

  lemma HandoffsApart(s: State, e: Event)
    requires e.op.OpPatchHandoff? || e.op.OpPlain?
    ensures Apply(s, e).state.assignments == s.assignments
  {
  }

  lemma TransitEvolves(s: State, projectId: Id, id: Id, t: Transition, now: Time, k: Key)
    ensures var o := Transit(Memory, s, projectId, id, t, now);
      && Evolves(s, Event(OpTransit(projectId, id, t), now), o.state, k)
      && (o.reply.Assigned? && k == Key(projectId, id) ==>
            && k in s.assignments.rows && k in o.state.assignments.rows
            && Moves(Event(OpTransit(projectId, id, t), now), k, s.assignments.rows[k], o.state.assignments.rows[k]))
  {
  }

  lemma AcceptEvolves(s: State, c: AcceptCommand, newId: Id, created: Time, now: Time, k: Key)
    ensures Evolves(s, Event(OpAcceptHandoff(c, newId, created), now), AcceptHandoff(s, c, newId, created, now).state,
                    k)
  {
  }

  lemma AtNext(run: seq<Event>, i: nat)
    requires i < |run|
    ensures At(run, i + 1) == Apply(At(run, i), run[i]).state
  {
  }

  /** The assignment at `k` exists in every state from the i-th to the j-th. */
  predicate Present(run: seq<Event>, k: Key, i: nat, j: nat)
    requires i <= j <= |run|
  {
    forall m: nat :: i <= m <= j ==> k in At(run, m).assignments.rows
  }

  function Item(run: seq<Event>, k: Key, i: nat): Assignment
    requires i <= |run| && k in At(run, i).assignments.rows
  {
    At(run, i).assignments.rows[k]
  }

  // ---------------------------------------------------------------- invariants of every run

  /** No renewal lands its new expiry exactly on the zero time. */
  predicate RenewalsClear(run: seq<Event>) {
    forall i :: 0 <= i < |run| && run[i].op.OpTransit? && run[i].op.transition.Renew? ==>
      run[i].now + run[i].op.transition.ttl != ZERO_TIME
  }

  /** Every stored assignment passes `ValidateAssignmentClaimState` in every state of every
      run whose renewals clear the zero time. */
  lemma {:induction false} ClaimsValidInEveryRun(run: seq<Event>, i: nat, k: Key)
    requires i <= |run| && RenewalsClear(run) && k in At(run, i).assignments.rows
    ensures ClaimStateOk(Item(run, k, i))
  {
    if i > 0 {
      AssignmentEvolves(At(run, i - 1), run[i - 1], k);
      if k in At(run, i - 1).assignments.rows {
        ClaimsValidInEveryRun(run, i - 1, k);
        var a := Item(run, k, i - 1);
        if Moves(run[i - 1], k, a, Item(run, k, i)) {
          NextKeepsClaimState(Memory, run[i - 1].op.transition, a, run[i - 1].now);
        }
      }
    }
  }

  /** Whatever the clock, a queued assignment carries no claim, and a claim is storable. */
  lemma {:induction false} StorableInEveryRun(run: seq<Event>, i: nat, k: Key)
    requires i <= |run| && k in At(run, i).assignments.rows
    ensures Storable(Item(run, k, i))
    ensures Item(run, k, i).projectId == k.project && Item(run, k, i).id == k.id
  {
    if i > 0 {
      AssignmentEvolves(At(run, i - 1), run[i - 1], k);
      if k in At(run, i - 1).assignments.rows {
        StorableInEveryRun(run, i - 1, k);
        var a := Item(run, k, i - 1);
        if Moves(run[i - 1], k, a, Item(run, k, i)) {
          NextKeepsStorable(Memory, run[i - 1].op.transition, a, run[i - 1].now);
          NextKeepsIdentity(Memory, run[i - 1].op.transition, a, run[i - 1].now);
        }
      }
    }
  }

  /** A stored status is always one of the eight names, without padding. */
  lemma {:induction false} PlainStatusInEveryRun(run: seq<Event>, i: nat, k: Key)
    requires i <= |run| && k in At(run, i).assignments.rows
    ensures IsNamed(Item(run, k, i).status)
  {
    if i > 0 {
      AssignmentEvolves(At(run, i - 1), run[i - 1], k);
      if k in At(run, i - 1).assignments.rows {
        PlainStatusInEveryRun(run, i - 1, k);
        NextKeepsNamed(run[i - 1], k, Item(run, k, i - 1), Item(run, k, i));
      }
    }
  }

  predicate IsNamed(s: Status) {
    !s.Padded? && !s.Unlisted?
  }

  lemma NextKeepsNamed(e: Event, k: Key, a: Assignment, b: Assignment)
    requires IsNamed(a.status)
    ensures Moves(e, k, a, b) ==> IsNamed(b.status)
  {
  }

  // ---------------------------------------------------------------- no ABA

  /** While an assignment is not deleted its revision never falls, and two states with the
      same revision differ at most in the lease expiry. */
  lemma {:induction false} RevisionsRise(run: seq<Event>, k: Key, i: nat, j: nat)
    requires i <= j <= |run| && Present(run, k, i, j)
    ensures Item(run, k, i).updatedAt <= Item(run, k, j).updatedAt
    ensures Item(run, k, i).updatedAt == Item(run, k, j).updatedAt ==>
      SameButExpiry(Item(run, k, i), Item(run, k, j))
    decreases j
  {
    if i < j {
      RevisionsRise(run, k, i, j - 1);
      AssignmentEvolves(At(run, j - 1), run[j - 1], k);
      if Moves(run[j - 1], k, Item(run, k, j - 1), Item(run, k, j)) {
        NextRaisesRevision(Memory, run[j - 1].op.transition, Item(run, k, j - 1), run[j - 1].now);
      }
    }
  }

  /** The i-th event creates the assignment at `k`, for the first time or anew. */
  predicate Born(run: seq<Event>, i: nat, k: Key)
    requires i < |run|
  {
    k !in At(run, i).assignments.rows && k in At(run, i + 1).assignments.rows
  }

  /** No assignment id is used again after a deletion. */
  ghost predicate FreshAssignments(run: seq<Event>) {
    forall k: Key, i: nat, j: nat :: i < j < |run| && Born(run, i, k) ==> !Born(run, j, k)
  }

  /** An assignment that is there twice was there all along exactly when it was not created
      anew in between. */
  lemma {:induction false} PresentExactlyWhen(run: seq<Event>, k: Key, i: nat, j: nat)
    requires i <= j <= |run| && k in At(run, i).assignments.rows && k in At(run, j).assignments.rows
    ensures Present(run, k, i, j) <==> forall m: nat :: i <= m < j ==> !Born(run, m, k)
    decreases j
  {
    hide StoreModel.At, StoreModel.Apply;
    if i < j {
      if k in At(run, j - 1).assignments.rows {
        PresentExactlyWhen(run, k, i, j - 1);
      } else {
        assert Born(run, j - 1, k);
      }
    }
  }

  /** The last creation before a sighting. */
  lemma {:induction false} LastBirth(run: seq<Event>, k: Key, i: nat, j: nat) returns (m: nat)
    requires i <= j <= |run| && k in At(run, j).assignments.rows && !Present(run, k, i, j)
    ensures i <= m < j && Born(run, m, k) && Present(run, k, m + 1, j)
    decreases j
  {
    hide StoreModel.At, StoreModel.Apply;
    m := j - 1;
    if k in At(run, j - 1).assignments.rows {
      m := LastBirth(run, k, i, j - 1);
    }
  }

  lemma {:induction false} BirthOf(run: seq<Event>, i: nat, k: Key) returns (n: nat)
    requires i <= |run| && k in At(run, i).assignments.rows
    ensures n < i && Born(run, n, k)
  {
    n := i - 1;
    if k in At(run, n).assignments.rows {
      n := BirthOf(run, n, k);
    }
  }

  /** With assignment ids that never repeat, two sightings of one id are of one lifetime, so
      the revision never falls between them and an equal one means that nothing but the
      lease expiry can have changed. */
  lemma SightingsShareALifetime(run: seq<Event>, k: Key, i: nat, j: nat)
    requires FreshAssignments(run) && i <= j <= |run|
    requires k in At(run, i).assignments.rows && k in At(run, j).assignments.rows
    ensures Present(run, k, i, j)
    ensures Item(run, k, i).updatedAt <= Item(run, k, j).updatedAt
    ensures Item(run, k, i).updatedAt == Item(run, k, j).updatedAt ==>
      SameButExpiry(Item(run, k, i), Item(run, k, j))
  {
    hide StoreModel.At, StoreModel.Apply;
    var n := BirthOf(run, i, k);
    PresentExactlyWhen(run, k, i, j);
    RevisionsRise(run, k, i, j);
  }

  /** The j-th event is a queued update that succeeds under this revision. */
  predicate Reassigns(run: seq<Event>, j: nat, k: Key, token: Time)
    requires j < |run|
  {
    && run[j].op.OpTransit? && k == Key(run[j].op.projectId, run[j].op.id)
    && run[j].op.transition.UpdateQueued? && run[j].op.transition.update.expectedUpdatedAt == token
    && Apply(At(run, j), run[j]).reply.Assigned?
  }

  /** Nothing happened to the assignment from the i-th state to the j-th. */
  predicate Untouched(run: seq<Event>, k: Key, i: nat, j: nat)
    requires i <= j <= |run|
  {
    Present(run, k, i, j) && forall m: nat :: i <= m <= j ==> Item(run, k, m) == Item(run, k, i)
  }

  lemma ReassigningMatches(run: seq<Event>, j: nat, k: Key, token: Time)
    requires j < |run| && Reassigns(run, j, k, token)
    ensures k in At(run, j).assignments.rows && Item(run, k, j).updatedAt == token && Item(run, k, j).status == Queued
  {
    hide StoreModel.At;
    TransitEvolves(At(run, j), k.project, k.id, run[j].op.transition, run[j].now, k);
  }

  /** A queued update that succeeds with the revision the caller read proves that nothing
      happened to the assignment in between, if and only if the id was not created anew in
      between; and if it was, then with a revision not above the one that was read. */
  lemma QueuedUpdateMissesNothingExactlyWhen(run: seq<Event>, k: Key, i: nat, j: nat)
    requires i <= j < |run| && k in At(run, i).assignments.rows
    requires Reassigns(run, j, k, Item(run, k, i).updatedAt)
    ensures Untouched(run, k, i, j) <==> forall m: nat :: i <= m < j ==> !Born(run, m, k)
    ensures !Untouched(run, k, i, j) ==> exists m: nat ::
      && i <= m < j && Born(run, m, k) && Present(run, k, m + 1, j)
      && Item(run, k, m + 1).updatedAt <= Item(run, k, i).updatedAt
  {
    hide StoreModel.At, StoreModel.Apply, Reassigns;
    ReassigningMatches(run, j, k, Item(run, k, i).updatedAt);
    PresentExactlyWhen(run, k, i, j);
    if Present(run, k, i, j) {
      SameRevisionUntouched(run, k, i, j);
    } else {
      var m := LastBirth(run, k, i, j);
      RevisionsRise(run, k, m + 1, j);
    }
  }

  lemma SameRevisionUntouched(run: seq<Event>, k: Key, i: nat, j: nat)
    requires i <= j <= |run| && Present(run, k, i, j)
    requires Item(run, k, j).updatedAt == Item(run, k, i).updatedAt && Item(run, k, j).status == Queued
    ensures Untouched(run, k, i, j)
  {
    hide StoreModel.At, StoreModel.Apply;
    StorableInEveryRun(run, j, k);
    forall m: nat | i <= m <= j
      ensures Item(run, k, m) == Item(run, k, i)
    {
      RevisionsRise(run, k, i, m);
      RevisionsRise(run, k, m, j);
      RevisionsRise(run, k, i, j);
    }
  }

  /** So with ids that never repeat the success alone proves it. */
  lemma QueuedUpdateMissesNothing(run: seq<Event>, k: Key, i: nat, j: nat)
    requires FreshAssignments(run)
    requires i <= j < |run| && k in At(run, i).assignments.rows
    requires Reassigns(run, j, k, Item(run, k, i).updatedAt)
    ensures Untouched(run, k, i, j)
  {
    hide StoreModel.At, StoreModel.Apply, Reassigns;
    ReassigningMatches(run, j, k, Item(run, k, i).updatedAt);
    SightingsShareALifetime(run, k, i, j);
    SameRevisionUntouched(run, k, i, j);
  }

  /** Even across a re-creation, an update that also presents the content it read finds that
      content: what it can miss is the creation time. */
  lemma UpdateFindsWhatItRead(run: seq<Event>, k: Key, i: nat, j: nat)
    requires i <= j < |run| && k in At(run, i).assignments.rows
    requires Reassigns(run, j, k, Item(run, k, i).updatedAt)
    requires SnapshotMatches(Item(run, k, i), run[j].op.transition.update)
    ensures k in At(run, j).assignments.rows
    ensures Item(run, k, j) == Item(run, k, i).(createdAt := Item(run, k, j).createdAt)
  {
    hide StoreModel.At;
    TransitEvolves(At(run, j), k.project, k.id, run[j].op.transition, run[j].now, k);
    hide StoreModel.Apply;
    StorableInEveryRun(run, i, k);
    StorableInEveryRun(run, j, k);
  }

  // ---------------------------------------------------------------- lifecycle

  /** Terminal states absorb; started work is never queued or claimed again. */
  lemma {:induction false} PhasesRise(run: seq<Event>, k: Key, i: nat, j: nat)
    requires i <= j <= |run| && Present(run, k, i, j)
    ensures Phase(Item(run, k, i).status) <= Phase(Item(run, k, j).status)
    ensures IsTerminal(Item(run, k, i).status) ==> Item(run, k, j) == Item(run, k, i)
    decreases j
  {
    if i < j {
      PhasesRise(run, k, i, j - 1);
      AssignmentEvolves(At(run, j - 1), run[j - 1], k);
      if Moves(run[j - 1], k, Item(run, k, j - 1), Item(run, k, j)) {
        PhaseNeverFalls(Memory, run[j - 1].op.transition, Item(run, k, j - 1), run[j - 1].now);
      }
    }
  }

  /** The event at `m` completes the queued assignment with an unset stamp. */
  predicate HidesStart(run: seq<Event>, k: Key, m: nat)
    requires m < |run| && k in At(run, m).assignments.rows
  {
    && run[m].op.OpTransit? && k == Key(run[m].op.projectId, run[m].op.id) && ArgumentsOk(run[m].op.transition)
    && StampsUnset(run[m].op.transition, Item(run, k, m), run[m].now)
  }

  predicate NoneHides(run: seq<Event>, k: Key, i: nat, j: nat)
    requires i <= j <= |run| && Present(run, k, i, j)
  {
    forall m: nat :: i <= m < j ==> !HidesStart(run, k, m)
  }

  /** One event keeps the lifecycle shape exactly when it does not hide the start. */
  lemma LifecycleStep(run: seq<Event>, k: Key, m: nat)
    requires m < |run| && Present(run, k, m, m + 1) && LifecycleOk(Item(run, k, m))
    ensures var a, b := Item(run, k, m), Item(run, k, m + 1);
      && (LifecycleOk(b) <==> !HidesStart(run, k, m))
      && (Moves(run[m], k, a, b) && b.status == Cancelled ==> (b.startedAt == ZERO_TIME <==> a.status == Queued))
  {
    AtNext(run, m);
    hide StoreModel.At, AssignmentProofs.LifecycleOk;
    AssignmentEvolves(At(run, m), run[m], k);
    if HidesStart(run, k, m) {
      StorableInEveryRun(run, m, k);
      ProjectIsThere(run, m, k);
      HiddenMoves(At(run, m), run[m], k);
    }
    hide StoreModel.Apply;
    var a, b := Item(run, k, m), Item(run, k, m + 1);
    if Moves(run[m], k, a, b) {
      NextKeepsLifecycle(Memory, run[m].op.transition, a, run[m].now);
    }
  }

  lemma ProjectIsThere(run: seq<Event>, m: nat, k: Key)
    requires m <= |run| && k in At(run, m).assignments.rows
    ensures k.project in At(run, m).projects.rows
  {
    Integrity.RefsInEveryRun(run, m);
    hide StoreModel.At;
  }

  /** Such a completion is never refused. */
  lemma HiddenMoves(s: State, e: Event, k: Key)
    requires e.op.OpTransit? && k == Key(e.op.projectId, e.op.id) && ArgumentsOk(e.op.transition)
    requires k in s.assignments.rows && Storable(s.assignments.rows[k])
    requires StampsUnset(e.op.transition, s.assignments.rows[k], e.now) && e.op.projectId in s.projects.rows
    ensures var s' := Apply(s, e).state;
      k in s'.assignments.rows && Moves(e, k, s.assignments.rows[k], s'.assignments.rows[k])
  {
  }

  /** The assignment was cancelled by an event that found it queued. */
  predicate CancelledFromQueued(run: seq<Event>, k: Key, i: nat, j: nat)
    requires i <= j <= |run| && Present(run, k, i, j)
  {
    exists m: nat :: i <= m < j && Item(run, k, m).status == Queued && Item(run, k, m + 1).status == Cancelled
  }

  /** An assignment has the lifecycle shape in all its states if and only if it was created
      without start or completion time and no event hides its start; once cancelled it then
      lacks a start time exactly when it was cancelled straight from queued. */
  lemma {:induction false} LifecycleInEveryRun(run: seq<Event>, k: Key, i: nat, j: nat)
    requires i < j <= |run| && Present(run, k, i + 1, j)
    requires k !in At(run, i).assignments.rows
    ensures TimesUnset(Item(run, k, i + 1)) && NoneHides(run, k, i + 1, j) <==>
            forall m: nat :: i < m <= j ==> LifecycleOk(Item(run, k, m))
    ensures TimesUnset(Item(run, k, i + 1)) && NoneHides(run, k, i + 1, j) && Item(run, k, j).status == Cancelled ==>
      (Item(run, k, j).startedAt == ZERO_TIME <==> CancelledFromQueued(run, k, i + 1, j))
    decreases j
  {
    hide StoreModel.At, StoreModel.Apply, AssignmentProofs.LifecycleOk, CancelledFromQueued, HidesStart;
    if i + 1 < j {
      LifecycleInEveryRun(run, k, i, j - 1);
      if TimesUnset(Item(run, k, i + 1)) && NoneHides(run, k, i + 1, j - 1) {
        LifecycleStep(run, k, j - 1);
        if Item(run, k, j).status == Cancelled {
          LastCancellation(run, k, i + 1, j);
        }
      }
    } else {
      AtNext(run, i);
      AssignmentEvolves(At(run, i), run[i], k);
      CreatedLifecycle(Item(run, k, j));
    }
  }

  /** As an acceptance creates assignments, and a caller who gives no times. */
  predicate TimesUnset(a: Assignment) {
    a.startedAt == ZERO_TIME && a.completedAt == ZERO_TIME
  }

  lemma CreatedLifecycle(a: Assignment)
    requires a.status == Queued
    ensures LifecycleOk(a) <==> TimesUnset(a)
  {
  }

  /** Of a cancelled assignment, the last event either changed nothing or cancelled it. */
  lemma LastCancellation(run: seq<Event>, k: Key, i: nat, j: nat)
    requires i < j <= |run| && Present(run, k, i, j) && Item(run, k, j).status == Cancelled
    ensures var a := Item(run, k, j - 1);
      if a.status == Cancelled then
        && a == Item(run, k, j)
        && (CancelledFromQueued(run, k, i, j) <==> CancelledFromQueued(run, k, i, j - 1))
      else
        Moves(run[j - 1], k, a, Item(run, k, j)) && (CancelledFromQueued(run, k, i, j) <==> a.status == Queued)
  {
    hide CancelledFromQueued, StoreModel.At, StoreModel.Apply;
    AtNext(run, j - 1);
    AssignmentEvolves(At(run, j - 1), run[j - 1], k);
    CancelledNext(run, k, i, j);
    if Item(run, k, j - 1).status == Cancelled {
      PhasesRise(run, k, j - 1, j);
    } else if CancelledFromQueued(run, k, i, j - 1) {
      CancelledStays(run, k, i, j - 1);
    }
  }

  lemma CancelledNext(run: seq<Event>, k: Key, i: nat, j: nat)
    requires i < j <= |run| && Present(run, k, i, j)
    ensures CancelledFromQueued(run, k, i, j) <==>
      || CancelledFromQueued(run, k, i, j - 1)
      || (Item(run, k, j - 1).status == Queued && Item(run, k, j).status == Cancelled)
  {
    hide StoreModel.At, StoreModel.Apply;
    var n := j - 1;
    assert Item(run, k, n).status == Queued && Item(run, k, n + 1).status == Cancelled
      ==> CancelledFromQueued(run, k, i, j);
  }

  lemma CancelledStays(run: seq<Event>, k: Key, i: nat, j: nat)
    requires i <= j <= |run| && Present(run, k, i, j) && CancelledFromQueued(run, k, i, j)
    ensures Item(run, k, j).status == Cancelled
  {
    hide StoreModel.At, StoreModel.Apply;
    var m: nat :| i <= m < j && Item(run, k, m).status == Queued && Item(run, k, m + 1).status == Cancelled;
    PhasesRise(run, k, m + 1, j);
  }

  // ---------------------------------------------------------------- the dialects on runs

  /** On any store the two implementations of a transition agree exactly when, once the
      assignment is reached, SQLite did not wave through a blank role that the in-memory
      store insists on finding, and the stamps of a requeue agree. */
  lemma TransitsAgreeExactlyWhen(s: State, projectId: Id, id: Id, t: Transition, now: Time)
    ensures Transit(Sqlite, s, projectId, id, t, now) == Transit(Memory, s, projectId, id, t, now) <==>
      (ArgumentsOk(t) && projectId in s.projects.rows && ReferencesFound(Sqlite, s, projectId, t)
       && Key(projectId, id) in s.assignments.rows ==>
         && ReferencesFound(Memory, s, projectId, t)
         && var a := s.assignments.rows[Key(projectId, id)];
            (Next(Memory, t, a, now).Ok? ==> StampsAgree(t, a, now)))
  {
  }

  /** Every assignment was created with a start time not before the zero time. */
  predicate StartsClear(run: seq<Event>) {
    forall i :: 0 <= i < |run| && run[i].op.OpCreateAssignment? ==> ZERO_TIME <= run[i].op.assignment.startedAt
  }

  /** In every reachable state the in-memory and the SQLite transition agree, whatever the
      transition and the clock, once the two stores are asked for a named role. */
  lemma {:induction false} StartsCoveredInEveryRun(run: seq<Event>, i: nat, k: Key)
    requires i <= |run| && StartsClear(run) && k in At(run, i).assignments.rows
    ensures StartCovered(Item(run, k, i))
  {
    if i > 0 {
      AssignmentEvolves(At(run, i - 1), run[i - 1], k);
      if k in At(run, i - 1).assignments.rows {
        StartsCoveredInEveryRun(run, i - 1, k);
        var a := Item(run, k, i - 1);
        if Moves(run[i - 1], k, a, Item(run, k, i)) {
          StartCoveredKept(Memory, run[i - 1].op.transition, a, run[i - 1].now);
        }
      }
    }
  }

  lemma DialectsAgreeInEveryRun(run: seq<Event>, i: nat, projectId: Id, id: Id, t: Transition, now: Time)
    requires i <= |run| && StartsClear(run)
    requires t.UpdateQueued? ==> t.update.replacement.roleId != Blank
    ensures Transit(Sqlite, At(run, i), projectId, id, t, now) == Transit(Memory, At(run, i), projectId, id, t, now)
  {
    var k := Key(projectId, id);
    if k in At(run, i).assignments.rows {
      StartsCoveredInEveryRun(run, i, k);
      if ArgumentsOk(t) {
        StartCoveredKept(Memory, t, Item(run, k, i), now);
      }
    }
  }
}
