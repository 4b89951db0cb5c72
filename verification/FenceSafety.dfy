/** Claim fences and leases over whole runs. */
module FenceSafety {
  import opened Domain
  import opened AssignmentRules
  import opened AssignmentProofs
  import opened StoreModel
  import opened Runs

  /** The claim id is the current fence of the assignment at `k` in the i-th state. */
  predicate Current(run: seq<Event>, i: nat, k: Key, claimId: Id)
    requires i <= |run|
  {
    k in At(run, i).assignments.rows && Holds(Item(run, k, i), claimId)
  }

  predicate IssuesClaim(e: Event, claimId: Id) {
    e.op.OpTransit? && e.op.transition.ClaimWithLease? && e.op.transition.claimId == claimId
  }

  /** The generator never repeats a claim id, not even one whose claim was refused. */
  predicate FreshClaimIds(run: seq<Event>) {
    forall i, j :: 0 <= i < j < |run|
      && run[i].op.OpTransit? && run[i].op.transition.ClaimWithLease?
      && run[j].op.OpTransit? && run[j].op.transition.ClaimWithLease?
      ==> run[i].op.transition.claimId != run[j].op.transition.claimId
  }

  /** A fence that was not current becomes current only through the claim that issues it,
      on the assignment that claim names. */
  lemma FenceBegins(run: seq<Event>, i: nat, k: Key, claimId: Id)
    requires i < |run| && Current(run, i + 1, k, claimId)
    ensures Current(run, i, k, claimId)
            || (IssuesClaim(run[i], claimId) && k == Key(run[i].op.projectId, run[i].op.id))
  {
    AssignmentEvolves(At(run, i), run[i], k);
    if k in At(run, i).assignments.rows && Moves(run[i], k, Item(run, k, i), Item(run, k, i + 1)) {
      FenceStep(Memory, run[i].op.transition, Item(run, k, i), run[i].now, claimId);
    }
  }

  /** A current fence was issued earlier, for this assignment. */
  lemma {:induction false} FenceWasIssued(run: seq<Event>, i: nat, k: Key, claimId: Id) returns (n: nat)
    requires i <= |run| && Current(run, i, k, claimId)
    ensures n < i && IssuesClaim(run[n], claimId) && k == Key(run[n].op.projectId, run[n].op.id)
  {
    FenceBegins(run, i - 1, k, claimId);
    if Current(run, i - 1, k, claimId) {
      n := FenceWasIssued(run, i - 1, k, claimId);
    } else {
      n := i - 1;
    }
  }

  /** After its issue, a current fence has been current all along. */
  lemma {:induction false} FenceTracesBack(run: seq<Event>, n: nat, i: nat, j: nat, k: Key, claimId: Id)
    requires FreshClaimIds(run) && n < i <= j <= |run|
    requires IssuesClaim(run[n], claimId) && Current(run, j, k, claimId)
    ensures Current(run, i, k, claimId)
    decreases j
  {
    if i < j {
      FenceBegins(run, j - 1, k, claimId);
      FenceTracesBack(run, n, i, j - 1, k, claimId);
    }
  }

  /** With never-repeating claim ids, any clock, and any mix of fenced and host operations,
      the states in which a claim id is current form one contiguous stretch on one
      assignment. */
  lemma FenceIsOneStretch(run: seq<Event>, i: nat, j: nat, m: nat, k: Key, k': Key, claimId: Id)
    requires FreshClaimIds(run) && i <= j <= m <= |run|
    requires Current(run, i, k, claimId) && Current(run, m, k', claimId)
    ensures k == k' && Current(run, j, k, claimId)
  {
    var n := FenceWasIssued(run, i, k, claimId);
    var n' := FenceWasIssued(run, m, k', claimId);
    assert n == n';
    FenceTracesBack(run, n, j, m, k, claimId);
  }

  /** The event presents the claim id on some assignment. */
  predicate Presents(e: Event, claimId: Id) {
    e.op.OpTransit? && IsFenced(e.op.transition) && e.op.transition.claimId == claimId
  }

  /** Once a fence has been current and is no longer (released, recovered, replaced by a
      host claim, deleted), no renew, recover, prepare, release, status or completion call
      that presents it succeeds ever again, on any assignment. */
  lemma RetiredFenceIsDead(run: seq<Event>, i: nat, j: nat, m: nat, k: Key, claimId: Id)
    requires FreshClaimIds(run) && i <= j <= m < |run|
    requires Current(run, i, k, claimId) && !Current(run, j, k, claimId)
    requires Presents(run[m], claimId)
    ensures Apply(At(run, m), run[m]).reply.Refused?
    ensures Apply(At(run, m), run[m]).state == At(run, m)
  {
    var k' := Key(run[m].op.projectId, run[m].op.id);
    if Current(run, m, k', claimId) {
      FenceIsOneStretch(run, i, j, m, k, k', claimId);
    }
    if k' in At(run, m).assignments.rows {
      FenceRefused(run[m].op.transition, Item(run, k', m), run[m].now);
    }
  }

  lemma FenceRefused(t: Transition, a: Assignment, now: Time)
    requires IsFenced(t) && !Holds(a, t.claimId)
    ensures Next(Memory, t, a, now).Err?
  {
  }

  // ---------------------------------------------------------------- leases

  /** The event grants or extends a lease on the assignment at `k`. */
  predicate Grants(run: seq<Event>, i: nat, k: Key)
    requires i < |run|
  {
    && run[i].op.OpTransit? && k == Key(run[i].op.projectId, run[i].op.id)
    && (run[i].op.transition.ClaimWithLease? || run[i].op.transition.Renew?)
    && Apply(At(run, i), run[i]).reply.Assigned?
  }

  predicate Leased(run: seq<Event>, i: nat, k: Key)
    requires i <= |run|
  {
    && k in At(run, i).assignments.rows
    && Item(run, k, i).status == Claimed && Item(run, k, i).claim.Some?
  }

  function Expiry(run: seq<Event>, i: nat, k: Key): Time
    requires i <= |run| && Leased(run, i, k)
  {
    Item(run, k, i).claim.value.expiresAt
  }

  /** One server: a fixed lease lifetime and a clock that does not go back. */
  predicate OneServer(run: seq<Event>, ttl: int) {
    && (forall i :: 0 <= i < |run| && run[i].op.OpTransit? && run[i].op.transition.ClaimWithLease?
          ==> run[i].op.transition.ttl == ttl)
    && (forall i :: 0 <= i < |run| && run[i].op.OpTransit? && run[i].op.transition.Renew?
          ==> run[i].op.transition.ttl == ttl)
    && (forall i, j :: 0 <= i < j < |run| ==> run[i].now <= run[j].now)
  }

  /** How one event moves a lease: a grant sets the expiry to at most the larger of the old
      expiry and the reading plus the lifetime; anything else leaves it alone. */
  lemma LeaseStep(run: seq<Event>, i: nat, k: Key, ttl: int)
    requires i < |run| && OneServer(run, ttl) && Leased(run, i + 1, k)
    ensures Grants(run, i, k) ==>
      (Expiry(run, i + 1, k) == run[i].now + ttl
       || (Leased(run, i, k) && Expiry(run, i + 1, k) == Expiry(run, i, k)))
    ensures !Grants(run, i, k) ==> Leased(run, i, k) && Expiry(run, i + 1, k) == Expiry(run, i, k)
  {
    AssignmentEvolves(At(run, i), run[i], k);
    if k in At(run, i).assignments.rows {
      var a, b := Item(run, k, i), Item(run, k, i + 1);
      if Moves(run[i], k, a, b) {
        LeaseMoves(run[i].op.transition, a, run[i].now);
        if !Grants(run, i, k) {
          TransitReplies(At(run, i), run[i], k);
        }
      }
    }
  }

  lemma LeaseMoves(t: Transition, a: Assignment, now: Time)
    requires Next(Memory, t, a, now).Ok? && ArgumentsOk(t)
    requires var b := Next(Memory, t, a, now).value; b.status == Claimed && b.claim.Some?
    ensures var b := Next(Memory, t, a, now).value;
      && (t.ClaimWithLease? ==> b.claim.value.expiresAt == now + t.ttl)
      && (!t.ClaimWithLease? ==> a.status == Claimed && a.claim.Some?)
      && (t.Renew? ==> b.claim.value.expiresAt == Max(a.claim.value.expiresAt, now + t.ttl))
      && (!t.ClaimWithLease? && !t.Renew? ==> b.claim == a.claim)
  {
  }

  lemma TransitReplies(s: State, e: Event, k: Key)
    requires k in s.assignments.rows && k in Apply(s, e).state.assignments.rows
    requires Moves(e, k, s.assignments.rows[k], Apply(s, e).state.assignments.rows[k])
    ensures Apply(s, e).reply.Assigned? || Apply(s, e).state.assignments.rows[k] == s.assignments.rows[k]
  {
  }

  /** No lease outlives the latest clock reading by more than the lifetime. */
  lemma {:induction false} ExpiryBounded(run: seq<Event>, i: nat, k: Key, ttl: int)
    requires 0 < i <= |run| && OneServer(run, ttl) && Leased(run, i, k)
    ensures Expiry(run, i, k) <= run[i - 1].now + ttl
  {
    hide StoreModel.At, StoreModel.Apply, Grants;
    LeaseStep(run, i - 1, k, ttl);
    NotLeasedAtFirst(run, k);
    if i > 1 && Leased(run, i - 1, k) {
      ExpiryBounded(run, i - 1, k, ttl);
    }
  }

  lemma NotLeasedAtFirst(run: seq<Event>, k: Key)
    ensures !Leased(run, 0, k)
  {
  }

  /** Bounded recovery: from the last successful claim or renewal on, recovery is enabled
      no later than that reading plus the lifetime. */
  lemma {:induction false} RecoveryBounded(run: seq<Event>, i: nat, j: nat, k: Key, ttl: int, now: Time)
    requires i < j <= |run| && OneServer(run, ttl) && RenewalsClear(run)
    requires Grants(run, i, k)
    requires forall m :: i < m < j ==> !Grants(run, m, k)
    requires Leased(run, j, k) && run[i].now + ttl <= now
    ensures Expiry(run, j, k) <= run[i].now + ttl
    ensures AllowsRecovery(Item(run, k, j), Item(run, k, j).claim.value.id, now)
    decreases j
  {
    hide StoreModel.At, StoreModel.Apply, Grants;
    if i + 1 == j {
      ExpiryBounded(run, j, k, ttl);
    } else {
      LeaseStep(run, j - 1, k, ttl);
      RecoveryBounded(run, i, j - 1, k, ttl, now);
    }
    ClaimsValidInEveryRun(run, j, k);
    ClaimStateMeaning(Item(run, k, j));
  }

  /** The event ends the claim at `k`: a recovery or a host operation on it that succeeds. */
  predicate Ends(run: seq<Event>, m: nat, k: Key)
    requires m < |run|
  {
    && run[m].op.OpTransit? && k == Key(run[m].op.projectId, run[m].op.id)
    && (run[m].op.transition.Recover? || run[m].op.transition.HostRelease?
        || run[m].op.transition.HostStatus? || run[m].op.transition.HostComplete?)
    && Apply(At(run, m), run[m]).reply.Assigned?
  }

  /** Once recovery is enabled it stays enabled, on a clock that does not go back, for as
      long as the assignment is there and nothing ends the claim. */
  lemma {:induction false} RecoveryStaysEnabled(run: seq<Event>, i: nat, j: nat, k: Key, claimId: Id, start: Time)
    requires i <= j <= |run| && Present(run, k, i, j)
    requires AllowsRecovery(Item(run, k, i), claimId, start)
    requires forall m: nat :: i <= m < j ==> start <= run[m].now && !Ends(run, m, k)
    ensures AllowsRecovery(Item(run, k, j), claimId, start)
    decreases j
  {
    hide StoreModel.At, Ends;
    if i < j {
      RecoveryStaysEnabled(run, i, j - 1, k, claimId, start);
      AtNext(run, j - 1);
      AssignmentEvolves(At(run, j - 1), run[j - 1], k);
      if Moves(run[j - 1], k, Item(run, k, j - 1), Item(run, k, j)) {
        TransitReplies(At(run, j - 1), run[j - 1], k);
        NotEnded(run, j - 1, k);
        ExpiredBlocksWorkers(Memory, run[j - 1].op.transition, Item(run, k, j - 1), run[j - 1].now);
      }
    }
  }

  lemma NotEnded(run: seq<Event>, m: nat, k: Key)
    requires m < |run| && !Ends(run, m, k) && run[m].op.OpTransit? && k == Key(run[m].op.projectId, run[m].op.id)
    requires Apply(At(run, m), run[m]).reply.Assigned?
    ensures var t := run[m].op.transition; !t.Recover? && !t.HostRelease? && !t.HostStatus? && !t.HostComplete?
  {
    hide StoreModel.Apply, StoreModel.At;
  }

  /** An ended claim is never claimed again under its id. */
  lemma EndedIsOver(run: seq<Event>, m: nat, j: nat, k: Key, claimId: Id, start: Time)
    requires FreshClaimIds(run) && m < j <= |run| && Present(run, k, m, j)
    requires Current(run, m, k, claimId) && Ends(run, m, k)
    ensures !AllowsRecovery(Item(run, k, j), claimId, start)
  {
    hide StoreModel.At, StoreModel.Apply, Ends;
    EndStep(run, m, k);
    if !Current(run, m + 1, k, claimId) {
      if Current(run, j, k, claimId) {
        FenceIsOneStretch(run, m, m + 1, j, k, k, claimId);
      }
    } else {
      PhasesRise(run, k, m + 1, j);
    }
  }

  lemma EndStep(run: seq<Event>, m: nat, k: Key)
    requires m < |run| && Present(run, k, m, m + 1) && Ends(run, m, k)
    ensures Item(run, k, m + 1).claim.None? || Phase(Item(run, k, m + 1).status) > 0
  {
    AtNext(run, m);
    hide StoreModel.At;
    TransitEvolves(At(run, m), k.project, k.id, run[m].op.transition, run[m].now, k);
    EndedAtOnce(run[m].op.transition, Item(run, k, m), run[m].now);
  }

  lemma EndedAtOnce(t: Transition, a: Assignment, now: Time)
    requires t.Recover? || t.HostRelease? || t.HostStatus? || t.HostComplete?
    requires Next(Memory, t, a, now).Ok? && ArgumentsOk(t)
    ensures var b := Next(Memory, t, a, now).value; b.claim.None? || Phase(b.status) > 0
  {
  }

  /** With never-repeating claim ids, recovery that was enabled is still enabled exactly
      when nothing ended the claim in between. */
  lemma RecoveryEnabledExactlyWhen(run: seq<Event>, i: nat, j: nat, k: Key, claimId: Id, start: Time)
    requires FreshClaimIds(run) && i <= j <= |run| && Present(run, k, i, j)
    requires AllowsRecovery(Item(run, k, i), claimId, start)
    requires forall m: nat :: i <= m < j ==> start <= run[m].now
    ensures AllowsRecovery(Item(run, k, j), claimId, start) <==> forall m: nat :: i <= m < j ==> !Ends(run, m, k)
  {
    if forall m: nat :: i <= m < j ==> !Ends(run, m, k) {
      RecoveryStaysEnabled(run, i, j, k, claimId, start);
    } else if AllowsRecovery(Item(run, k, j), claimId, start) {
      var m: nat :| i <= m < j && Ends(run, m, k);
      FenceIsOneStretch(run, i, m, j, k, k, claimId);
      EndedIsOver(run, m, j, k, claimId, start);
    }
  }

  // ---------------------------------------------------------------- what a fence carries

  lemma FenceStepKeeps(t: Transition, a: Assignment, now: Time, claimId: Id)
    requires Next(Memory, t, a, now).Ok? && ArgumentsOk(t) && Storable(a)
    requires Holds(a, claimId) && Holds(Next(Memory, t, a, now).value, claimId)
    ensures KeepsLease(a, Next(Memory, t, a, now).value)
  {
  }

  /** The later state has the same holder and acquisition time, and is claimed only if the
      earlier one is, with an expiry no earlier. */
  predicate KeepsLease(a: Assignment, b: Assignment)
    requires a.claim.Some? && b.claim.Some?
  {
    && b.claim.value.acquiredAt == a.claim.value.acquiredAt
    && b.claimedBy == a.claimedBy
    && (b.status == Claimed ==> a.status == Claimed && a.claim.value.expiresAt <= b.claim.value.expiresAt)
  }

  /** While a fence is current its holder and acquisition time never change, and no renewal
      shortens its lease. */
  lemma {:induction false} FenceKeepsLease(run: seq<Event>, i: nat, j: nat, k: Key, claimId: Id)
    requires FreshClaimIds(run) && i <= j <= |run|
    requires Current(run, i, k, claimId) && Current(run, j, k, claimId)
    ensures KeepsLease(Item(run, k, i), Item(run, k, j))
    decreases j
  {
    if i < j {
      FenceIsOneStretch(run, i, j - 1, j, k, k, claimId);
      FenceKeepsLease(run, i, j - 1, k, claimId);
      AssignmentEvolves(At(run, j - 1), run[j - 1], k);
      if Moves(run[j - 1], k, Item(run, k, j - 1), Item(run, k, j)) {
        StorableInEveryRun(run, j - 1, k);
        FenceStepKeeps(run[j - 1].op.transition, Item(run, k, j - 1), run[j - 1].now, claimId);
      }
    }
  }
}
