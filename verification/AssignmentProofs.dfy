/** What one assignment transition keeps, whatever the clock reads. */
module AssignmentProofs {
  import opened Domain
  import opened AssignmentRules

  // ---------------------------------------------------------------- claim state

  /** The validator's branches, read as one condition on the fence. */
  lemma ClaimStateMeaning(a: Assignment)
    ensures ClaimStateOk(a) <==>
      (a.claim.Some? ==>
        var c := a.claim.value;
        && c.id.Word? && a.claimedBy.Word?
        && c.acquiredAt != ZERO_TIME
        && a.status != Queued && !a.status.Padded? && !a.status.Unlisted?
        && (a.status == Claimed <==> c.expiresAt != ZERO_TIME)
        && (a.status == Claimed ==> c.acquiredAt < c.expiresAt))
  {
  }

  /** A renewal moves the expiry onto the zero time. It needs a clock before year one. */
  predicate ErasesExpiry(t: Transition, a: Assignment, now: Time) {
    t.Renew? && a.claim.Some? && a.claim.value.expiresAt < ZERO_TIME && now + t.ttl == ZERO_TIME
  }

  /** Claim-state validity is kept by every successful transition except exactly that one,
      including Renew, Prepare and HostClaim, which never re-check it. */
  lemma NextKeepsClaimState(d: Dialect, t: Transition, a: Assignment, now: Time)
    requires ClaimStateOk(a) && ArgumentsOk(t) && Next(d, t, a, now).Ok?
    ensures ClaimStateOk(Next(d, t, a, now).value) <==> !ErasesExpiry(t, a, now)
  {
  }

  /** The exception is real: a worker that renews at -6 for 6 a lease acquired at -10. */
  lemma RenewCanEraseExpiry()
    ensures exists t: Transition, a: Assignment, now: Time ::
      && ClaimStateOk(a) && ArgumentsOk(t)
      && Next(Memory, t, a, now).Ok? && !ClaimStateOk(Next(Memory, t, a, now).value)
  {
    var a := Assignment(Word(10), Word(11), Word(12), Word(13), Blank, MANUAL, Claimed, DesiredAgent(HUMAN, []),
                        Word(14),
                        Some(ClaimLease(Word(15), -10, -5)), EMPTY_REF, Blank, 0, 0, 0, 0);
    ClaimStateMeaning(a);
    var t := Renew(Word(15), 6);
    assert Next(Memory, t, a, -6) == Ok(a.(claim := Some(ClaimLease(Word(15), -10, 0))));
    NextKeepsClaimState(Memory, t, a, -6);
  }

  /** Given a valid claim state, the re-check after a status or completion step never fails:
      the step fails only with a conflict. */
  lemma PostCheckNeverFires(d: Dialect, t: Transition, a: Assignment, now: Time)
    requires ClaimStateOk(a) && ArgumentsOk(t)
    requires !t.ClaimWithLease?
    ensures Next(d, t, a, now).Err? ==> Next(d, t, a, now).error == Conflict
  {
  }

  /** On a queued assignment a leased claim is refused exactly for untrimmed or blank names
      or for a clock that reads the zero time. */
  lemma LeaseRefusedExactlyWhen(d: Dialect, claimedBy: Text, claimId: Id, ttl: int, a: Assignment, now: Time)
    requires a.status == Queued && ttl > 0
    ensures Next(d, ClaimWithLease(claimedBy, claimId, ttl), a, now).Err? <==>
      || !claimId.Word? || !claimedBy.Word?
      || now == ZERO_TIME
      || now + ttl == ZERO_TIME
  {
  }

  /** What the columns of a stored row can represent; weaker than `ClaimStateOk`, and kept
      by every transition at every clock reading. */
  predicate Storable(a: Assignment) {
    a.claim.Some? ==> a.claim.value.id != Blank && a.claim.value.acquiredAt != ZERO_TIME && a.status != Queued
  }

  lemma NextKeepsStorable(d: Dialect, t: Transition, a: Assignment, now: Time)
    requires ArgumentsOk(t) && Next(d, t, a, now).Ok?
    ensures Storable(a) ==> Storable(Next(d, t, a, now).value)
    ensures ClaimStateOk(a) ==> Storable(a)
  {
  }

  // ---------------------------------------------------------------- the two dialects

  /** The SQLite and in-memory steps agree on every transition except that Recover and
      ReleaseWithClaim stamp differently when the stored start time is beyond both the
      clock and the next revision, or when everything lies before the zero time. */
  predicate StampsAgree(t: Transition, a: Assignment, now: Time) {
    (t.Recover? || t.ReleaseWithClaim?) ==>
      var m := Max(now, a.updatedAt + 1);
      a.startedAt == ZERO_TIME || (a.startedAt <= m && ZERO_TIME <= m)
  }

  lemma DialectsAgreeExactlyWhen(t: Transition, a: Assignment, now: Time)
    ensures Next(Memory, t, a, now) == Next(Sqlite, t, a, now) <==>
      (Next(Memory, t, a, now).Ok? ==> StampsAgree(t, a, now))
  {
  }

  /** Both dialects succeed and fail together, and differ at most in the new revision. */
  lemma DialectsDifferOnlyInRevision(t: Transition, a: Assignment, now: Time)
    ensures Next(Memory, t, a, now).Ok? <==> Next(Sqlite, t, a, now).Ok?
    ensures Next(Memory, t, a, now).Err? ==> Next(Memory, t, a, now) == Next(Sqlite, t, a, now)
    ensures Next(Memory, t, a, now).Ok? ==>
      Next(Memory, t, a, now).value
        == Next(Sqlite, t, a, now).value.(updatedAt := Next(Memory, t, a, now).value.updatedAt)
  {
  }

  /** While claimed, the start time is unset or not after the revision. */
  predicate StartCovered(a: Assignment) {
    && ZERO_TIME <= a.startedAt
    && (a.status == Claimed ==> a.startedAt <= a.updatedAt || a.startedAt == ZERO_TIME)
  }

  /** Every transition keeps `StartCovered`, and under it the dialects agree. */
  lemma StartCoveredKept(d: Dialect, t: Transition, a: Assignment, now: Time)
    requires StartCovered(a) && ArgumentsOk(t)
    ensures Next(Memory, t, a, now) == Next(Sqlite, t, a, now)
    ensures Next(d, t, a, now).Ok? ==> StartCovered(Next(d, t, a, now).value)
  {
  }

  // ---------------------------------------------------------------- revisions

  /** Equal up to the lease expiry. */
  predicate SameButExpiry(a: Assignment, b: Assignment) {
    || a == b
    || (a.claim.Some? && b.claim.Some?
        && a.(claim := Some(a.claim.value.(expiresAt := b.claim.value.expiresAt))) == b)
  }

  /** Every successful transition strictly raises the revision, whatever the clock says;
      Renew alone keeps it, and changes nothing but the expiry, which it never lowers. */
  lemma NextRaisesRevision(d: Dialect, t: Transition, a: Assignment, now: Time)
    requires Next(d, t, a, now).Ok?
    ensures var b := Next(d, t, a, now).value;
      && (!t.Renew? ==> b.updatedAt > a.updatedAt && b.updatedAt >= now)
      && (t.Renew? ==> b.updatedAt == a.updatedAt && SameButExpiry(a, b)
                       && b.claim.value.expiresAt >= a.claim.value.expiresAt
                       && b.claim.value.expiresAt >= now + t.ttl)
  {
  }

  /** A transition never touches the identity of the assignment. */
  lemma NextKeepsIdentity(d: Dialect, t: Transition, a: Assignment, now: Time)
    requires Next(d, t, a, now).Ok?
    ensures var b := Next(d, t, a, now).value;
      && b.id == a.id && b.projectId == a.projectId && b.createdAt == a.createdAt
      && (!t.UpdateQueued? ==> b.workItemId == a.workItemId && b.roleId == a.roleId && b.rootId == a.rootId)
  {
  }

  // ---------------------------------------------------------------- fences

  predicate Holds(a: Assignment, claimId: Id) {
    a.claim.Some? && a.claim.value.id == claimId
  }

  /** A fenced transition succeeds only while its fence is current; and a fence becomes
      current only through the leased claim that carries it. */
  lemma FenceStep(d: Dialect, t: Transition, a: Assignment, now: Time, claimId: Id)
    requires Next(d, t, a, now).Ok?
    ensures IsFenced(t) ==> Holds(a, t.claimId)
    ensures var b := Next(d, t, a, now).value;
      Holds(b, claimId) ==> Holds(a, claimId) || (t.ClaimWithLease? && t.claimId == claimId)
  {
  }

  // ---------------------------------------------------------------- leases

  /** At any clock reading exactly one of "the fence may act" and "recovery is allowed"
      holds for a validly claimed, leased assignment. */
  lemma ActOrRecover(a: Assignment, now: Time)
    requires ClaimStateOk(a) && a.status == Claimed && a.claim.Some?
    ensures AllowsMutation(a, a.claim.value.id, now) <==> !AllowsRecovery(a, a.claim.value.id, now)
  {
  }

  /** Past the expiry, only recovery, a host transition, or nothing succeeds. */
  lemma ExpiredBlocksWorkers(d: Dialect, t: Transition, a: Assignment, now: Time)
    requires a.claim.Some? && AllowsRecovery(a, a.claim.value.id, now)
    requires Next(d, t, a, now).Ok?
    ensures t.Recover? || IsHost(t)
    ensures Next(d, t, a, now).value.claim == a.claim && Next(d, t, a, now).value.status == Claimed
            ==> t.HostPrepare?
    ensures t.HostPrepare? ==> Next(d, t, a, now).value.claim == a.claim && Next(d, t, a, now).value.status == Claimed
  {
  }

  // ---------------------------------------------------------------- lifecycle

  /** The shape of every assignment created without start or completion time. */
  predicate LifecycleOk(a: Assignment) {
    && !a.status.Padded? && !a.status.Unlisted?
    && (a.status == Queued || a.status == Claimed ==> a.startedAt == ZERO_TIME)
    && (a.startedAt == ZERO_TIME ==> a.status == Queued || a.status == Claimed || a.status == Cancelled)
    && (a.status != Queued ==> ZERO_TIME <= a.startedAt <= a.updatedAt)
    && (a.completedAt != ZERO_TIME <==> IsTerminal(a.status))
    && (IsTerminal(a.status) ==> a.startedAt <= a.completedAt == a.updatedAt)
  }

  /** A host completes queued work at a reading not after the zero time, while its revision
      lies before it: the new stamp is the zero time, which reads as unset. */
  predicate StampsUnset(t: Transition, a: Assignment, now: Time) {
    t.HostComplete? && a.status == Queued && a.updatedAt < ZERO_TIME && now <= ZERO_TIME
  }

  /** How far an assignment has come: waiting, started, finished. */
  function Phase(s: Status): nat {
    if s == Queued || s == Claimed then 0 else if IsTerminal(s) then 2 else 1
  }

  /** The lifecycle shape is kept by every transition except exactly that one, and a
      cancellation leaves the start time unset exactly when it came straight from queued. */
  lemma NextKeepsLifecycle(d: Dialect, t: Transition, a: Assignment, now: Time)
    requires LifecycleOk(a) && ArgumentsOk(t) && Next(d, t, a, now).Ok?
    ensures var b := Next(d, t, a, now).value;
      && (LifecycleOk(b) <==> !StampsUnset(t, a, now))
      && (b.status == Cancelled ==> (b.startedAt == ZERO_TIME <==> a.status == Queued))
  {
  }

  lemma PhaseNeverFalls(d: Dialect, t: Transition, a: Assignment, now: Time)
    requires ArgumentsOk(t) && Next(d, t, a, now).Ok?
    ensures !IsTerminal(a.status)
    ensures Phase(a.status) <= Phase(Next(d, t, a, now).value.status)
  {
  }
}
