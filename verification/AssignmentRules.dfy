/** The per-assignment rules: claim-state validation, revision stamps, and what each
    assignment transition does to one assignment at one clock reading. */
module AssignmentRules {
  import opened Domain

  // ---------------------------------------------------------------- claim state

  /** `ValidateAssignmentClaimState`, branch by branch; true where it returns nil. Its paired
      tests on a name are one `Word?` here (`WordMeaning`). */
  predicate ClaimStateOk(a: Assignment) {
    if a.claim.None? then true
    else
      var c := a.claim.value;
      if !c.id.Word? then false
      else if !a.claimedBy.Word? then false
      else if c.acquiredAt == ZERO_TIME then false
      else if a.status == Claimed then
        if c.expiresAt == ZERO_TIME then false
        else c.acquiredAt < c.expiresAt
      else
        match a.status
        case Queued => false
        case Running | AwaitingApproval | AwaitingReview | Completed | Failed | Cancelled =>
          c.expiresAt == ZERO_TIME
        case _ => false
  }

  // ---------------------------------------------------------------- revision stamps

  /** `assignmentTransitionTimeAt` of the in-memory store. */
  function MemoryStamp(updatedAt: Time, startedAt: Time, clock: Time): Time {
    var stamp := if clock < updatedAt then updatedAt else clock;
    var stamp := if stamp < startedAt then startedAt else stamp;
    if !(updatedAt < stamp) then updatedAt + 1 else stamp
  }

  /** `assignmentTransitionTimeAt` of the SQLite store, which has no first floor. */
  function SqliteStamp(updatedAt: Time, startedAt: Time, clock: Time): Time {
    var stamp := if clock < startedAt then startedAt else clock;
    if !(updatedAt < stamp) then updatedAt + 1 else stamp
  }

  /** Both stamp functions compute the least instant that is not before the clock reading
      or the start time and is strictly after the current revision. */
  lemma StampIsLeast(updatedAt: Time, startedAt: Time, clock: Time)
    ensures MemoryStamp(updatedAt, startedAt, clock) == SqliteStamp(updatedAt, startedAt, clock)
    ensures MemoryStamp(updatedAt, startedAt, clock) == Max(clock, Max(startedAt, updatedAt + 1))
  {
  }

  // ---------------------------------------------------------------- transitions

  datatype Transition =
    | UpdateQueued(update: QueuedUpdate)
    | ClaimWithLease(claimedBy: Text, claimId: Id, ttl: int)
    | Renew(claimId: Id, ttl: int)
    | Recover(claimId: Id)
    | PrepareWithClaim(claimId: Id, ref: ExecutionRef, contextSnapshotId: Id)
    | ReleaseWithClaim(claimId: Id)
    | StatusWithClaim(claimId: Id, status: Status, ref: ExecutionRef)
    | CompleteWithClaim(claimId: Id, status: Status, ref: ExecutionRef)
    | HostClaim(claimedBy: Text)
    | HostPrepare(claimedBy: Text, ref: ExecutionRef, contextSnapshotId: Id)
    | HostRelease(claimedBy: Text)
    | HostStatus(status: Status, ref: ExecutionRef)
    | HostComplete(status: Status, ref: ExecutionRef)

  /** A transition that presents a claim fence. */
  predicate IsFenced(t: Transition) {
    || t.Renew? || t.Recover? || t.PrepareWithClaim? || t.ReleaseWithClaim?
    || t.StatusWithClaim? || t.CompleteWithClaim?
  }

  predicate IsHost(t: Transition) {
    t.HostClaim? || t.HostPrepare? || t.HostRelease? || t.HostStatus? || t.HostComplete?
  }

  /** The two implementations order two steps of Recover and ReleaseWithClaim differently. */
  datatype Dialect = Memory | Sqlite

  /** Argument checks made before the store is consulted. */
  predicate ArgumentsOk(t: Transition) {
    match t
    case ClaimWithLease(_, claimId, ttl) => claimId != Blank && ttl > 0
    case Renew(_, ttl) => ttl > 0
    case StatusWithClaim(_, status, _) => IsProgress(status)
    case HostStatus(status, _) => IsProgress(status)
    case CompleteWithClaim(_, status, _) => IsCompletion(status)
    case HostComplete(status, _) => IsCompletion(status)
    case _ => true
  }

  predicate SnapshotMatches(a: Assignment, u: QueuedUpdate) {
    && a.workItemId == u.expected.workItemId
    && a.roleId == u.expected.roleId
    && a.rootId == u.expected.rootId
    && a.executionMode == u.expected.executionMode
    && a.status == Queued
    && a.claimedBy == Blank
    && a.desiredAgent == u.expected.desiredAgent
    && a.executionRef == EMPTY_REF
    && a.contextSnapshotId == Blank
    && a.updatedAt == u.expectedUpdatedAt
    && a.startedAt == ZERO_TIME
    && a.completedAt == ZERO_TIME
  }

  /** `assignmentClaimAllowsMutation`. */
  predicate AllowsMutation(a: Assignment, claimId: Id, now: Time) {
    if a.claim.None? || claimId == Blank || a.claim.value.id != claimId then false
    else if a.status != Claimed then true
    else a.claim.value.expiresAt != ZERO_TIME && a.claim.value.expiresAt > now
  }

  predicate AllowsRecovery(a: Assignment, claimId: Id, now: Time) {
    && a.status == Claimed
    && a.claim.Some?
    && a.claim.value.id == claimId
    && a.claim.value.expiresAt != ZERO_TIME
    && a.claim.value.expiresAt <= now
  }

  function Stamp(a: Assignment, now: Time): Time {
    MemoryStamp(a.updatedAt, a.startedAt, now)
  }

  /** Recover and ReleaseWithClaim: the in-memory store stamps after it has cleared the
      start time, the SQLite store before. */
  function RequeueStamp(d: Dialect, a: Assignment, now: Time): Time {
    MemoryStamp(a.updatedAt, if d.Memory? then ZERO_TIME else a.startedAt, now)
  }

  function Requeued(a: Assignment, stamp: Time): Assignment {
    a.(status := Queued, claimedBy := Blank, claim := None, executionRef := EMPTY_REF,
       contextSnapshotId := Blank, startedAt := ZERO_TIME, completedAt := ZERO_TIME,
       updatedAt := stamp)
  }

  function Prepared(a: Assignment, ref: ExecutionRef, contextSnapshotId: Id, stamp: Time): Assignment {
    a.(executionRef := if ref == EMPTY_REF then a.executionRef else ref,
       contextSnapshotId := if contextSnapshotId == Blank then a.contextSnapshotId else contextSnapshotId,
       updatedAt := stamp)
  }

  /** Leaving `claimed` retires the lease expiry and keeps the fence. */
  function RetiredClaim(a: Assignment): Option<ClaimLease> {
    if a.status == Claimed && a.claim.Some? then Some(a.claim.value.(expiresAt := ZERO_TIME))
    else a.claim
  }

  function Progressed(a: Assignment, status: Status, ref: ExecutionRef, stamp: Time): Assignment {
    a.(status := status,
       startedAt := if a.startedAt == ZERO_TIME then stamp else a.startedAt,
       executionRef := if ref == EMPTY_REF then a.executionRef else ref,
       claim := RetiredClaim(a),
       updatedAt := stamp)
  }

  function Finished(a: Assignment, status: Status, ref: ExecutionRef, stamp: Time): Assignment {
    a.(status := status,
       startedAt := if a.startedAt == ZERO_TIME && !(a.status == Queued && status == Cancelled)
                    then stamp else a.startedAt,
       completedAt := if IsTerminal(status) && a.completedAt == ZERO_TIME then stamp else a.completedAt,
       executionRef := if ref == EMPTY_REF then a.executionRef else ref,
       claim := RetiredClaim(a),
       updatedAt := stamp)
  }

  function Checked(a: Assignment): Result<Assignment> {
    if ClaimStateOk(a) then Ok(a) else Err(Invalid)
  }

  function FencedStatus(claimId: Id, status: Status, ref: ExecutionRef, a: Assignment, now: Time): Result<Assignment> {
    if a.status == Queued || IsTerminal(a.status) || !AllowsMutation(a, claimId, now) then Err(Conflict)
    else Checked(Progressed(a, status, ref, Stamp(a, now)))
  }

  function FencedCompletion(claimId: Id, status: Status, ref: ExecutionRef, a: Assignment,
                            now: Time): Result<Assignment> {
    if a.status == Queued || IsTerminal(a.status) || !AllowsMutation(a, claimId, now) then Err(Conflict)
    else Checked(Finished(a, status, ref, Stamp(a, now)))
  }

  function PlainStatus(status: Status, ref: ExecutionRef, a: Assignment, now: Time): Result<Assignment> {
    if a.status == Queued || IsTerminal(a.status) then Err(Conflict)
    else Checked(Progressed(a, status, ref, Stamp(a, now)))
  }

  function PlainCompletion(status: Status, ref: ExecutionRef, a: Assignment, now: Time): Result<Assignment> {
    if IsTerminal(a.status) then Err(Conflict) else Checked(Finished(a, status, ref, Stamp(a, now)))
  }

  /** What a transition makes of the stored assignment `a` at clock reading `now`. */
  function Next(d: Dialect, t: Transition, a: Assignment, now: Time): Result<Assignment> {
    match t
    case UpdateQueued(u) =>
      if !SnapshotMatches(a, u) then Err(Conflict)
      else
        var r := u.replacement;
        Ok(a.(workItemId := r.workItemId, roleId := r.roleId, rootId := r.rootId,
              executionMode := r.executionMode, desiredAgent := r.desiredAgent,
              updatedAt := Stamp(a, now)))
    case ClaimWithLease(claimedBy, claimId, ttl) =>
      if a.status != Queued then Err(Conflict)
      else Checked(a.(status := Claimed, claimedBy := claimedBy,
                      claim := Some(ClaimLease(claimId, now, now + ttl)),
                      updatedAt := Stamp(a, now)))
    case Renew(claimId, ttl) =>
      if a.status != Claimed || !AllowsMutation(a, claimId, now) then Err(Conflict)
      else Ok(a.(claim := Some(a.claim.value.(expiresAt := Max(a.claim.value.expiresAt, now + ttl)))))
    case Recover(claimId) =>
      if !AllowsRecovery(a, claimId, now) then Err(Conflict)
      else Ok(Requeued(a, RequeueStamp(d, a, now)))
    case PrepareWithClaim(claimId, ref, ctx) =>
      if a.status != Claimed || !AllowsMutation(a, claimId, now) then Err(Conflict)
      else Ok(Prepared(a, ref, ctx, Stamp(a, now)))
    case ReleaseWithClaim(claimId) =>
      if a.status != Claimed || !AllowsMutation(a, claimId, now) then Err(Conflict)
      else Ok(Requeued(a, RequeueStamp(d, a, now)))
    case StatusWithClaim(claimId, status, ref) => FencedStatus(claimId, status, ref, a, now)
    case CompleteWithClaim(claimId, status, ref) => FencedCompletion(claimId, status, ref, a, now)
    case HostClaim(claimedBy) =>
      if a.status != Queued then Err(Conflict)
      else Ok(a.(status := Claimed, claimedBy := claimedBy, claim := None, updatedAt := Stamp(a, now)))
    case HostPrepare(claimedBy, ref, ctx) =>
      if a.status != Claimed || a.claimedBy != claimedBy then Err(Conflict)
      else Ok(Prepared(a, ref, ctx, Stamp(a, now)))
    case HostRelease(claimedBy) =>
      if a.status != Claimed || a.claimedBy != claimedBy then Err(Conflict)
      else Ok(Requeued(a, Stamp(a, now)))
    case HostStatus(status, ref) => PlainStatus(status, ref, a, now)
    case HostComplete(status, ref) => PlainCompletion(status, ref, a, now)
  }

  /** The four longest branches, by name: a method that takes one need not look at the
      other nine. */
  lemma NextByName(d: Dialect, claimId: Id, status: Status, ref: ExecutionRef, a: Assignment, now: Time)
    ensures Next(d, StatusWithClaim(claimId, status, ref), a, now) == FencedStatus(claimId, status, ref, a, now)
    ensures Next(d, CompleteWithClaim(claimId, status, ref), a, now) == FencedCompletion(claimId, status, ref, a, now)
    ensures Next(d, HostStatus(status, ref), a, now) == PlainStatus(status, ref, a, now)
    ensures Next(d, HostComplete(status, ref), a, now) == PlainCompletion(status, ref, a, now)
  {
  }
}
