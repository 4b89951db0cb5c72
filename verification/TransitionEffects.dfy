/** What a transition writes, field by field: each part of an assignment changes only by the
    transitions that name it, and over a run it shows what was written last. */
module TransitionEffects {
  import opened Domain
  import opened AssignmentRules
  import opened AssignmentProofs
  import opened StoreModel
  import opened Runs

  // ---------------------------------------------------------------- the written parts

  /** The parts of an assignment that transitions set to a value of their own. */
  datatype Part = TheStatus | TheHolder | TheFence | TheReference | TheContext | TheWork

  datatype Shown =
    | ShownStatus(status: Status)
    | ShownName(name: Text)
    | ShownFence(fence: Option<(Id, Time)>)
    | ShownReference(ref: ExecutionRef)
    | ShownWork(work: Coordination)

  function Shows(a: Assignment, p: Part): Shown {
    match p
    case TheStatus => ShownStatus(a.status)
    case TheHolder => ShownName(a.claimedBy)
    case TheFence => ShownFence(if a.claim.None? then None else Some((a.claim.value.id, a.claim.value.acquiredAt)))
    case TheReference => ShownReference(a.executionRef)
    case TheContext => ShownName(a.contextSnapshotId)
    case TheWork => ShownWork(Coordination(a.workItemId, a.roleId, a.rootId, a.executionMode, a.desiredAgent))
  }

  /** The transition gives the assignment back to the queue. */
  predicate Requeues(t: Transition) {
    t.Recover? || t.ReleaseWithClaim? || t.HostRelease?
  }

  predicate Prepares(t: Transition) {
    t.PrepareWithClaim? || t.HostPrepare?
  }

  predicate Reports(t: Transition) {
    t.StatusWithClaim? || t.HostStatus? || t.CompleteWithClaim? || t.HostComplete?
  }

  predicate Completes(t: Transition) {
    t.CompleteWithClaim? || t.HostComplete?
  }

  /** What a successful transition writes to a part, if it writes it. A requeue empties
      everything but the work; an empty reference or context id is not written. */
  function Writes(t: Transition, now: Time, p: Part): Option<Shown> {
    match p
    case TheStatus =>
      if Requeues(t) then Some(ShownStatus(Queued))
      else if t.ClaimWithLease? || t.HostClaim? then Some(ShownStatus(Claimed))
      else if Reports(t) then Some(ShownStatus(t.status))
      else None
    case TheHolder =>
      if Requeues(t) then Some(ShownName(Blank))
      else if t.ClaimWithLease? || t.HostClaim? then Some(ShownName(t.claimedBy))
      else None
    case TheFence =>
      if Requeues(t) || t.HostClaim? then Some(ShownFence(None))
      else if t.ClaimWithLease? then Some(ShownFence(Some((t.claimId, now))))
      else None
    case TheReference =>
      if Requeues(t) then Some(ShownReference(EMPTY_REF))
      else if (Prepares(t) || Reports(t)) && t.ref != EMPTY_REF then Some(ShownReference(t.ref))
      else None
    case TheContext =>
      if Requeues(t) then Some(ShownName(Blank))
      else if Prepares(t) && t.contextSnapshotId != Blank then Some(ShownName(t.contextSnapshotId))
      else None
    case TheWork =>
      if t.UpdateQueued? then Some(ShownWork(t.update.replacement)) else None
  }

  /** After a successful transition each part shows what was written to it, or else what it
      showed before. */
  lemma PartsWritten(d: Dialect, t: Transition, a: Assignment, now: Time, p: Part)
    requires Next(d, t, a, now).Ok?
    ensures Shows(Next(d, t, a, now).value, p) ==
      if Writes(t, now, p).Some? then Writes(t, now, p).value else Shows(a, p)
  {
  }

  /** A prepare step, by the worker or by the host, records the reference and the context
      id that it presents, keeps those that it leaves empty, and changes nothing else but
      the revision. */
  lemma PrepareRecords(d: Dialect, t: Transition, a: Assignment, now: Time)
    requires Prepares(t) && Next(d, t, a, now).Ok?
    ensures var b := Next(d, t, a, now).value;
      && (t.ref != EMPTY_REF ==> b.executionRef == t.ref)
      && (t.ref == EMPTY_REF ==> b.executionRef == a.executionRef)
      && (t.contextSnapshotId != Blank ==> b.contextSnapshotId == t.contextSnapshotId)
      && (t.contextSnapshotId == Blank ==> b.contextSnapshotId == a.contextSnapshotId)
      && b == a.(executionRef := b.executionRef, contextSnapshotId := b.contextSnapshotId, updatedAt := b.updatedAt)
  {
  }

  // ---------------------------------------------------------------- the times

  /** The start time is set once, by the first report, and only a requeue clears it; a
      cancellation of queued work does not set it. */
  lemma StartMoves(d: Dialect, t: Transition, a: Assignment, now: Time)
    requires Next(d, t, a, now).Ok?
    ensures var b := Next(d, t, a, now).value;
      b.startedAt ==
        if Requeues(t) then ZERO_TIME
        else if a.startedAt != ZERO_TIME then a.startedAt
        else if Reports(t) && !(a.status == Queued && t.status == Cancelled) then b.updatedAt
        else ZERO_TIME
  {
  }

  /** The completion time is set once, by the report of a final status. */
  lemma CompletionMoves(d: Dialect, t: Transition, a: Assignment, now: Time)
    requires Next(d, t, a, now).Ok?
    ensures var b := Next(d, t, a, now).value;
      b.completedAt ==
        if Requeues(t) then ZERO_TIME
        else if a.completedAt != ZERO_TIME then a.completedAt
        else if Completes(t) && (t.status == Completed || t.status == Failed || t.status == Cancelled) then b.updatedAt
        else ZERO_TIME
  {
  }

  /** A claim sets the expiry, a renewal can only extend it, the first report retires it. */
  lemma ExpiryMoves(d: Dialect, t: Transition, a: Assignment, now: Time)
    requires Next(d, t, a, now).Ok? && Next(d, t, a, now).value.claim.Some?
    ensures var expiresAt := Next(d, t, a, now).value.claim.value.expiresAt;
      if t.ClaimWithLease? then expiresAt == now + t.ttl
      else
        && a.claim.Some?
        && var before := a.claim.value.expiresAt;
           if t.Renew? then expiresAt == (if before < now + t.ttl then now + t.ttl else before)
           else if Reports(t) && a.status == Claimed then expiresAt == ZERO_TIME
           else expiresAt == before
  {
  }

  /** The instants a new revision may have: after the old one and not before the reading or
      the start time, which a fenced requeue in memory has cleared by then. */
  predicate MayStamp(d: Dialect, t: Transition, a: Assignment, now: Time, x: Time) {
    && a.updatedAt < x && now <= x
    && (if d.Memory? && (t.Recover? || t.ReleaseWithClaim?) then ZERO_TIME else a.startedAt) <= x
  }

  /** The new revision is the least instant that it may be. */
  lemma RevisionIsLeast(d: Dialect, t: Transition, a: Assignment, now: Time)
    requires Next(d, t, a, now).Ok? && !t.Renew?
    ensures var b := Next(d, t, a, now).value;
      MayStamp(d, t, a, now, b.updatedAt) && forall x :: MayStamp(d, t, a, now, x) ==> b.updatedAt <= x
  {
  }

  /** The parts and the times, with identity and creation time, are the whole assignment. */
  lemma PartsAreTheAssignment(a: Assignment, b: Assignment)
    requires forall p :: Shows(a, p) == Shows(b, p)
    requires a.claim.Some? && b.claim.Some? ==> a.claim.value.expiresAt == b.claim.value.expiresAt
    requires a.id == b.id && a.projectId == b.projectId
    requires a.createdAt == b.createdAt && a.updatedAt == b.updatedAt
    requires a.startedAt == b.startedAt && a.completedAt == b.completedAt
    ensures a == b
  {
    assert Shows(a, TheStatus) == Shows(b, TheStatus) && Shows(a, TheHolder) == Shows(b, TheHolder);
    assert Shows(a, TheFence) == Shows(b, TheFence) && Shows(a, TheReference) == Shows(b, TheReference);
    assert Shows(a, TheContext) == Shows(b, TheContext) && Shows(a, TheWork) == Shows(b, TheWork);
  }

  // ---------------------------------------------------------------- when it succeeds

  /** The arguments that the service lets through. */
  lemma ArgumentsMean(t: Transition)
    ensures ArgumentsOk(t) <==>
      && (t.ClaimWithLease? ==> t.claimId != Blank && t.ttl > 0)
      && (t.Renew? ==> t.ttl > 0)
      && (t.StatusWithClaim? || t.HostStatus? ==> t.status in {Running, AwaitingApproval, AwaitingReview})
      && (Completes(t) ==> t.status in {Completed, Failed, Cancelled, AwaitingReview})
  {
  }

  /** The worker holds this fence, and while claimed its lease has not run out. */
  predicate WorkerMayAct(a: Assignment, claimId: Id, now: Time) {
    && claimId != Blank && Holds(a, claimId)
    && (a.status == Claimed ==> a.claim.value.expiresAt != ZERO_TIME && now < a.claim.value.expiresAt)
  }

  /** Who may do what, when: by the status, the holder, the fence and the lease. */
  predicate MayStep(t: Transition, a: Assignment, now: Time) {
    match t
    case UpdateQueued(u) =>
      && Shows(a, TheWork) == ShownWork(u.expected) && a.updatedAt == u.expectedUpdatedAt
      && a.status == Queued && a.claimedBy == Blank && a.executionRef == EMPTY_REF && a.contextSnapshotId == Blank
      && a.startedAt == ZERO_TIME && a.completedAt == ZERO_TIME
    case ClaimWithLease(claimedBy, claimId, ttl) =>
      a.status == Queued && claimedBy.Word? && claimId.Word? && now != ZERO_TIME && now + ttl != ZERO_TIME
    case Renew(claimId, _) => a.status == Claimed && WorkerMayAct(a, claimId, now)
    case PrepareWithClaim(claimId, _, _) => a.status == Claimed && WorkerMayAct(a, claimId, now)
    case ReleaseWithClaim(claimId) => a.status == Claimed && WorkerMayAct(a, claimId, now)
    case Recover(claimId) =>
      && a.status == Claimed && Holds(a, claimId)
      && a.claim.value.expiresAt != ZERO_TIME && a.claim.value.expiresAt <= now
    case StatusWithClaim(claimId, _, _) => UnderWay(a) && WorkerMayAct(a, claimId, now)
    case CompleteWithClaim(claimId, _, _) => UnderWay(a) && WorkerMayAct(a, claimId, now)
    case HostClaim(_) => a.status == Queued
    case HostPrepare(claimedBy, _, _) => a.status == Claimed && a.claimedBy == claimedBy
    case HostRelease(claimedBy) => a.status == Claimed && a.claimedBy == claimedBy
    case HostStatus(_, _) => UnderWay(a)
    case HostComplete(_, _) => a.status == Queued || UnderWay(a)
  }

  predicate UnderWay(a: Assignment) {
    a.status in {Claimed, Running, AwaitingApproval, AwaitingReview}
  }

  /** From a valid assignment with a plain status, a transition succeeds exactly when it may
      be taken, and otherwise fails with a conflict, or as invalid if it would make a claim
      that names nobody or has a zero time. */
  lemma StepsExactlyWhen(d: Dialect, t: Transition, a: Assignment, now: Time)
    requires ClaimStateOk(a) && ArgumentsOk(t) && IsNamed(a.status)
    ensures Next(d, t, a, now).Ok? <==> MayStep(t, a, now)
    ensures Next(d, t, a, now).Err? ==>
      Next(d, t, a, now).error == if t.ClaimWithLease? && a.status == Queued then Invalid else Conflict
  {
  }

  /** A queued update may move the work only to a stored work item and a stored role. */
  predicate WorkFound(s: State, projectId: Id, t: Transition) {
    t.UpdateQueued? ==>
      && Key(projectId, t.update.replacement.workItemId) in s.workItems.rows
      && Key(projectId, t.update.replacement.roleId) in s.roles.rows
  }

  /** On the store a transition with good arguments succeeds exactly when the assignment is
      there, what it is moved to is found, and the step may be taken; it writes that row
      alone, and otherwise nothing. */
  lemma TransitsExactlyWhen(s: State, p: Id, id: Id, t: Transition, now: Time)
    requires ArgumentsOk(t) && Key(p, id) in s.assignments.rows && p in s.projects.rows
    requires ClaimStateOk(s.assignments.rows[Key(p, id)]) && IsNamed(s.assignments.rows[Key(p, id)].status)
    ensures var o, a := Transit(Memory, s, p, id, t, now), s.assignments.rows[Key(p, id)];
      && (o.reply.Assigned? <==> WorkFound(s, p, t) && MayStep(t, a, now))
      && (o.reply.Assigned? ==>
            && Next(Memory, t, a, now) == Ok(o.reply.assignment)
            && o.state == s.(assignments := Table(s.assignments.rows[Key(p, id) := o.reply.assignment])))
      && (!o.reply.Assigned? ==> o.state == s)
      && (!WorkFound(s, p, t) ==> o.reply == Refused(NotFound))
  {
    StepsExactlyWhen(Memory, t, s.assignments.rows[Key(p, id)], now);
    hide AssignmentRules.Next, AssignmentRules.ArgumentsOk, MayStep;
  }

  lemma TransitsNeedTheAssignment(s: State, p: Id, id: Id, t: Transition, now: Time)
    requires p !in s.projects.rows || Key(p, id) !in s.assignments.rows || !ArgumentsOk(t)
    ensures Transit(Memory, s, p, id, t, now)
         == Outcome(s, Refused(if ArgumentsOk(t) then NotFound else Invalid))
  {
  }

  // ---------------------------------------------------------------- over runs

  /** The event is a transition of this assignment that succeeds. */
  predicate Steps(run: seq<Event>, m: nat, k: Key)
    requires m < |run|
  {
    && run[m].op.OpTransit? && k == Key(run[m].op.projectId, run[m].op.id)
    && Apply(At(run, m), run[m]).reply.Assigned?
  }

  /** The event writes the part. */
  predicate WritesAt(run: seq<Event>, m: nat, k: Key, p: Part)
    requires m < |run|
  {
    Steps(run, m, k) && Writes(run[m].op.transition, run[m].now, p).Some?
  }

  lemma StepsMean(run: seq<Event>, m: nat, k: Key)
    requires m < |run| && Present(run, k, m, m + 1)
    ensures if Steps(run, m, k) then
              && ArgumentsOk(run[m].op.transition)
              && Next(Memory, run[m].op.transition, Item(run, k, m), run[m].now) == Ok(Item(run, k, m + 1))
            else Item(run, k, m + 1) == Item(run, k, m)
  {
    AtNext(run, m);
    AssignmentEvolves(At(run, m), run[m], k);
    hide StoreModel.At, AssignmentRules.Next;
  }

  /** The part has not been written from the i-th to the j-th event. */
  predicate Unwritten(run: seq<Event>, i: nat, j: nat, k: Key, p: Part)
    requires i <= j <= |run|
  {
    forall m: nat :: i <= m < j ==> !WritesAt(run, m, k, p)
  }

  /** A part shows what it showed before until some event writes it. */
  lemma {:induction false} ShownUntilWritten(run: seq<Event>, k: Key, i: nat, j: nat, p: Part)
    requires i <= j <= |run| && Present(run, k, i, j) && Unwritten(run, i, j, k, p)
    ensures Shows(Item(run, k, j), p) == Shows(Item(run, k, i), p)
    decreases j
  {
    hide StoreModel.At, StoreModel.Apply, AssignmentRules.Next, Shows, Writes;
    if i < j {
      ShownUntilWritten(run, k, i, j - 1, p);
      StepsMean(run, j - 1, k);
      if Steps(run, j - 1, k) {
        assert !WritesAt(run, j - 1, k, p);
        PartsWritten(Memory, run[j - 1].op.transition, Item(run, k, j - 1), run[j - 1].now, p);
      }
    }
  }

  /** Over any run a part shows exactly what was last written to it: a recorded execution
      reference, say, stays until a step presents another or the assignment is requeued. */
  lemma ShownIsLastWritten(run: seq<Event>, k: Key, m: nat, j: nat, p: Part)
    requires m < j <= |run| && Present(run, k, m, j)
    requires WritesAt(run, m, k, p) && Unwritten(run, m + 1, j, k, p)
    ensures Some(Shows(Item(run, k, j), p)) == Writes(run[m].op.transition, run[m].now, p)
  {
    hide StoreModel.At, StoreModel.Apply, AssignmentRules.Next, Shows, Writes;
    StepsMean(run, m, k);
    PartsWritten(Memory, run[m].op.transition, Item(run, k, m), run[m].now, p);
    ShownUntilWritten(run, k, m + 1, j, p);
  }

  /** Whatever a part shows was written by some event since, or was there all along. */
  lemma {:induction false} ShownHasAWriter(run: seq<Event>, k: Key, i: nat, j: nat, p: Part)
    requires i <= j <= |run| && Present(run, k, i, j)
    requires Shows(Item(run, k, j), p) != Shows(Item(run, k, i), p)
    ensures exists m: nat ::
      && i <= m < j && WritesAt(run, m, k, p) && Unwritten(run, m + 1, j, k, p)
      && Writes(run[m].op.transition, run[m].now, p) == Some(Shows(Item(run, k, j), p))
    decreases j
  {
    hide StoreModel.At, StoreModel.Apply, AssignmentRules.Next, Shows, Writes, Steps;
    var m := j;
    while m > i && !WritesAt(run, m - 1, k, p)
      invariant i <= m <= j && Unwritten(run, m, j, k, p)
    {
      m := m - 1;
    }
    if m == i {
      ShownUntilWritten(run, k, i, j, p);
    } else {
      ShownIsLastWritten(run, k, m - 1, j, p);
    }
  }

  /** Once work was reported on, the start time stays for the rest of the lifetime. */
  lemma {:induction false} StartStays(run: seq<Event>, k: Key, i: nat, j: nat)
    requires i <= j <= |run| && Present(run, k, i, j)
    requires Item(run, k, i).startedAt != ZERO_TIME
    requires Item(run, k, i).status != Queued && Item(run, k, i).status != Claimed
    ensures Item(run, k, j).startedAt == Item(run, k, i).startedAt
    decreases j
  {
    hide StoreModel.At, StoreModel.Apply, AssignmentRules.Next;
    if i < j {
      StartStays(run, k, i, j - 1);
      StepsMean(run, j - 1, k);
      if Steps(run, j - 1, k) {
        var t, a := run[j - 1].op.transition, Item(run, k, j - 1);
        StartMoves(Memory, t, a, run[j - 1].now);
        PhasesRise(run, k, i, j);
        PartsWritten(Memory, t, a, run[j - 1].now, TheStatus);
      }
    }
  }
}
