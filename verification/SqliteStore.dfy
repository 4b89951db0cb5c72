/** The SQLite store's assignment transitions: begin, read, check, guarded update, commit or
    roll back. Each is proved to take the step `Transit(Sqlite, …)` on the decoded table. */
module SqliteStore {
  import opened Domain
  import opened AssignmentRules
  import opened StoreModel
  import opened RowCodec
  import opened MemoryStore

  /** Rows filed under their primary key, each well formed, with their foreign keys. */
  predicate RowsOk(tables: State, rows: map<Key, Row>) {
    forall k :: k in rows ==>
      && RowOk(rows[k]) && Scan(rows[k]).Ok?
      && k == Key(rows[k].projectId, rows[k].id)
      && k.project in tables.projects.rows
  }

  function Decoded(rows: map<Key, Row>): map<Key, Assignment>
    requires forall k :: k in rows ==> Scan(rows[k]).Ok?
  {
    map k | k in rows :: Scan(rows[k]).value
  }

  /** Tables and rows with their foreign keys. */
  predicate ViewOk(tables: State, rows: map<Key, Row>) {
    RowsOk(tables, rows) && forall k :: k in tables.workItems.rows ==> k.project in tables.projects.rows
  }

  /** The store as the in-memory model sees it. */
  function Viewed(tables: State, rows: map<Key, Row>): State
    requires ViewOk(tables, rows)
  {
    tables.(assignments := Table(Decoded(rows)))
  }

  // ---------------------------------------------------------------- a queued update amid other callers

  /** `UpdateQueuedAssignment` when the references are looked up in `early` and the
      transaction runs on `late`; a work item gone by then violates its foreign key, a role
      gone by then goes unnoticed. */
  function QueuedOnRows(early: State, late: State, projectId: Id, id: Id, u: QueuedUpdate, now: Time): Outcome {
    if projectId !in early.projects.rows
      || !ReferencesFound(Sqlite, early, projectId, UpdateQueued(u)) then Fail(early, NotFound)
    else
      var k := Key(projectId, id);
      if k !in late.assignments.rows then Fail(late, NotFound)
      else
        var r := Next(Sqlite, UpdateQueued(u), late.assignments.rows[k], now);
        if r.Ok? && Key(projectId, u.replacement.workItemId) !in late.workItems.rows then Fail(late, NotFound)
        else Stored(late, k, r)
  }

  /** With nobody in between it is the plain step. */
  lemma QueuedAlone(s: State, projectId: Id, id: Id, u: QueuedUpdate, now: Time)
    ensures QueuedOnRows(s, s, projectId, id, u, now) == Transit(Sqlite, s, projectId, id, UpdateQueued(u), now)
  {
  }

  /** After the early reads succeeded, the update differs from the step on the later store
      exactly when a reference vanished and the assignment is there: stale, which is then a
      conflict instead, or to be moved to a role that vanished, which is then done. */
  lemma QueuedDiffersExactlyWhen(early: State, late: State, projectId: Id, id: Id, u: QueuedUpdate, now: Time)
    requires projectId in early.projects.rows && ReferencesFound(Sqlite, early, projectId, UpdateQueued(u))
    requires projectId in late.projects.rows
    ensures var k := Key(projectId, id);
      QueuedOnRows(early, late, projectId, id, u, now)
        != Transit(Sqlite, late, projectId, id, UpdateQueued(u), now) <==>
        && k in late.assignments.rows && !ReferencesFound(Sqlite, late, projectId, UpdateQueued(u))
        && (!SnapshotMatches(late.assignments.rows[k], u)
           || Key(projectId, u.replacement.workItemId) in late.workItems.rows)
  {
  }

  /** The candidate a progress step validates and writes. */
  method ProgressCandidate(current: Assignment, status: Status, ref: ExecutionRef, now: Time)
    returns (candidate: Assignment)
    ensures candidate == Progressed(current, status, ref, Stamp(current, now))
  {
    var stamp := SqliteStamp(current.updatedAt, current.startedAt, now);
    var startedAt := current.startedAt;
    if startedAt == ZERO_TIME {
      startedAt := stamp;
    }
    var executionRef := current.executionRef;
    if ref != EMPTY_REF {
      executionRef := ref;
    }
    candidate := current.(status := status, startedAt := startedAt, executionRef := executionRef, updatedAt := stamp);
    if candidate.claim.Some? && current.status == Claimed {
      candidate := candidate.(claim := Some(candidate.claim.value.(expiresAt := ZERO_TIME)));
    }
  }

  /** The candidate a completion step validates and writes. */
  method FinishCandidate(current: Assignment, status: Status, ref: ExecutionRef, now: Time)
    returns (candidate: Assignment)
    ensures candidate == Finished(current, status, ref, Stamp(current, now))
  {
    var stamp := SqliteStamp(current.updatedAt, current.startedAt, now);
    var startedAt := current.startedAt;
    if startedAt == ZERO_TIME && !(current.status == Queued && status == Cancelled) {
      startedAt := stamp;
    }
    var completedAt := current.completedAt;
    if IsTerminal(status) && completedAt == ZERO_TIME {
      completedAt := stamp;
    }
    var executionRef := current.executionRef;
    if ref != EMPTY_REF {
      executionRef := ref;
    }
    candidate := current.(status := status, startedAt := startedAt, completedAt := completedAt,
                          executionRef := executionRef, updatedAt := stamp);
    if candidate.claim.Some? && current.status == Claimed {
      candidate := candidate.(claim := Some(candidate.claim.value.(expiresAt := ZERO_TIME)));
    }
  }

  /** The prepared row's assignment. */
  method PrepareCandidate(current: Assignment, ref: ExecutionRef, contextSnapshotId: Id, now: Time)
    returns (candidate: Assignment)
    ensures candidate == Prepared(current, ref, contextSnapshotId, Stamp(current, now))
  {
    var executionRef := current.executionRef;
    if ref != EMPTY_REF {
      executionRef := ref;
    }
    var contextId := current.contextSnapshotId;
    if contextSnapshotId != Blank {
      contextId := contextSnapshotId;
    }
    var stamp := SqliteStamp(current.updatedAt, current.startedAt, now);
    candidate := current.(executionRef := executionRef, contextSnapshotId := contextId, updatedAt := stamp);
  }

  /** The expiry column that both kinds of step write when the status leaves `claimed`. */
  function ExpiryColumn(a: Assignment): TimeText {
    if a.claim.Some? && a.status != Claimed then EncodeOptionalTime(a.claim.value.expiresAt) else NoTime
  }

  /** The WHERE clause of the queued update, on the columns. */
  predicate QueuedGuard(row: Row, update: QueuedUpdate) {
    && row.workItemId == update.expected.workItemId && row.roleId == update.expected.roleId
    && row.rootId == update.expected.rootId && row.executionMode == update.expected.executionMode
    && row.status == Queued && row.claimedBy == Blank
    && row.desiredAgent == AgentJson(update.expected.desiredAgent)
    && row.executionRef == NoRef && row.contextSnapshotId == Blank
    && row.updatedAt == EncodeTime(update.expectedUpdatedAt)
    && row.startedAt == NoTime && row.completedAt == NoTime
  }

  /** On well-formed rows the column guard is the in-memory snapshot comparison. */
  lemma GuardIsSnapshotMatch(row: Row, a: Assignment, update: QueuedUpdate)
    requires RowOk(row) && Scan(row) == Ok(a)
    ensures QueuedGuard(row, update) <==> SnapshotMatches(a, update)
  {
  }

  /** The columns that the other guards compare hold what was read. */
  lemma GuardedColumns(row: Row, a: Assignment)
    requires RowOk(row) && Scan(row) == Ok(a)
    ensures row.status == a.status && row.claimedBy == a.claimedBy && row.updatedAt == EncodeTime(a.updatedAt)
    ensures row.claimId == ClaimId(a.claim)
    ensures row.status == Queued ==> row.claimId == Blank
    ensures a.claim.Some? && a.claim.value.expiresAt != ZERO_TIME
      ==> row.claimExpiresAt == EncodeTime(a.claim.value.expiresAt)
    ensures Key(row.projectId, row.id) == Key(a.projectId, a.id)
  {
  }

  // What each SET list makes of a row, read back.

  lemma ReassignStored(row: Row, a: Assignment, c: Coordination, stamp: Time)
    requires RowOk(row) && Scan(row) == Ok(a)
    ensures var row' := row.(workItemId := c.workItemId, roleId := c.roleId, rootId := c.rootId,
                             executionMode := c.executionMode,
                             desiredAgent := AgentJson(c.desiredAgent), updatedAt := EncodeTime(stamp));
      && Scan(row') == Ok(a.(workItemId := c.workItemId, roleId := c.roleId, rootId := c.rootId,
                             executionMode := c.executionMode, desiredAgent := c.desiredAgent, updatedAt := stamp))
      && RowOk(row')
  {
  }

  lemma ProgressStored(row: Row, a: Assignment, status: Status, ref: ExecutionRef, stamp: Time)
    requires RowOk(row) && Scan(row) == Ok(a) && IsProgress(status)
    ensures var c := Progressed(a, status, ref, stamp);
      var row' := row.(status := status, startedAt := EncodeTime(c.startedAt),
                       executionRef := EncodeRef(c.executionRef),
                       claimExpiresAt := ExpiryColumn(a), updatedAt := EncodeTime(c.updatedAt));
      Scan(row') == Ok(c) && RowOk(row')
  {
  }

  lemma FinishStored(row: Row, a: Assignment, status: Status, ref: ExecutionRef, stamp: Time)
    requires RowOk(row) && Scan(row) == Ok(a) && IsCompletion(status)
    ensures var c := Finished(a, status, ref, stamp);
      var row' := row.(status := status, startedAt := EncodeOptionalTime(c.startedAt),
                       completedAt := EncodeOptionalTime(c.completedAt),
                       executionRef := EncodeRef(c.executionRef), claimExpiresAt := ExpiryColumn(a),
                         updatedAt := EncodeTime(c.updatedAt));
      Scan(row') == Ok(c) && RowOk(row')
  {
  }

  lemma PrepareStored(row: Row, a: Assignment, ref: ExecutionRef, contextSnapshotId: Id, stamp: Time)
    requires RowOk(row) && Scan(row) == Ok(a) && a.status == Claimed
    ensures var c := Prepared(a, ref, contextSnapshotId, stamp);
      var row' := row.(executionRef := EncodeRef(c.executionRef), contextSnapshotId := c.contextSnapshotId,
                       updatedAt := EncodeTime(c.updatedAt));
      Scan(row') == Ok(c) && RowOk(row')
  {
  }

  lemma ClaimStored(row: Row, a: Assignment, claimedBy: Text, lease: ClaimLease, stamp: Time)
    requires RowOk(row) && Scan(row) == Ok(a) && lease.id != Blank && lease.acquiredAt != ZERO_TIME
    ensures var row' := row.(status := Claimed, claimedBy := claimedBy, claimId := lease.id,
                             claimedAt := EncodeTime(lease.acquiredAt), claimExpiresAt := EncodeTime(lease.expiresAt),
                             updatedAt := EncodeTime(stamp));
      && Scan(row') == Ok(a.(status := Claimed, claimedBy := claimedBy, claim := Some(lease), updatedAt := stamp))
      && RowOk(row')
  {
  }

  lemma HostClaimStored(row: Row, a: Assignment, claimedBy: Text, stamp: Time)
    requires RowOk(row) && Scan(row) == Ok(a)
    ensures var row' := row.(status := Claimed, claimedBy := claimedBy, claimId := Blank, claimedAt := NoTime,
                             claimExpiresAt := NoTime, updatedAt := EncodeTime(stamp));
      && Scan(row') == Ok(a.(status := Claimed, claimedBy := claimedBy, claim := None, updatedAt := stamp))
      && RowOk(row')
  {
  }

  lemma RenewStored(row: Row, a: Assignment, expiresAt: Time)
    requires RowOk(row) && Scan(row) == Ok(a) && a.claim.Some?
    ensures var row' := row.(claimExpiresAt := EncodeTime(expiresAt));
      && Scan(row') == Ok(a.(claim := Some(a.claim.value.(expiresAt := expiresAt))))
      && RowOk(row')
  {
  }

  lemma RequeueStored(row: Row, a: Assignment, stamp: Time)
    requires RowOk(row) && Scan(row) == Ok(a)
    ensures var row' := row.(status := Queued, claimedBy := Blank, claimId := Blank, claimedAt := NoTime,
                             claimExpiresAt := NoTime,
                             executionRef := NoRef, contextSnapshotId := Blank, startedAt := NoTime,
                               completedAt := NoTime,
                             updatedAt := EncodeTime(stamp));
      Scan(row') == Ok(Requeued(a, stamp)) && RowOk(row')
  {
  }

  class SqliteStore {
    /** Every table but assignments, as decoded values; its assignments are not used. */
    var tables: State
    var rows: map<Key, Row>

    /** The open transaction, if any, and what a rollback restores. */
    var active: bool
    var saved: map<Key, Row>

    ghost predicate Valid()
      reads this
    {
      !active && ViewOk(tables, rows)
    }

    /** The store as the in-memory model sees it. */
    ghost function View(): State
      requires Valid()
      reads this
    {
      Viewed(tables, rows)
    }

    constructor ()
      ensures Valid() && View() == EMPTY
    {
      tables, rows, active, saved := EMPTY, map[], false, map[];
    }

    // -------------------------------------------------------------- transactions

    method Rollback()
      modifies `rows, `active
      ensures !active
      ensures rows == if old(active) then saved else old(rows)
    {
      if !active { return; }
      rows := saved;
      active := false;
    }

    method Commit()
      modifies `active
      ensures !active
    {
      if !active { return; }
      active := false;
    }

    /** `beginAssignmentTransition`. */
    method Begin(projectId: Id, id: Id) returns (r: Result<Assignment>)
      modifies `rows, `active, `saved
      ensures rows == old(rows)
      ensures r == if Key(projectId, id) in rows then Scan(rows[Key(projectId, id)]) else Err(NotFound)
      ensures if r.Ok? then active && saved == rows else !active
    {
      active, saved := true, rows;
      if Key(projectId, id) !in rows {
        Rollback();
        return Err(NotFound);
      }
      r := Scan(rows[Key(projectId, id)]);
      if r.Err? {
        Rollback();
      }
    }

    /** `finishAssignmentTransition`: no returned row means the guard missed. */
    method Finish(returned: Option<Row>) returns (r: Result<Assignment>)
      requires active
      modifies `rows, `active
      ensures !active
      ensures returned.None? ==> rows == saved && r == Err(Conflict)
      ensures returned.Some? && Scan(returned.value).Ok? ==> rows == old(rows) && r == Scan(returned.value)
      ensures returned.Some? && Scan(returned.value).Err? ==> rows == saved && r == Err(Internal)
    {
      if returned.None? {
        Rollback();
        return Err(Conflict);
      }
      r := Scan(returned.value);
      if r.Err? {
        Rollback();
        return;
      }
      Commit();
    }

    /** Replacing the row at `k` by one that decodes to `a` replaces the assignment at `k`. */
    lemma RowReplaced(before: map<Key, Row>, k: Key, row: Row, a: Assignment)
      requires RowsOk(tables, before) && k in before
      requires RowOk(row) && Scan(row) == Ok(a) && k == Key(row.projectId, row.id)
      ensures RowsOk(tables, before[k := row])
      ensures Decoded(before[k := row]) == Decoded(before)[k := a]
    {
    }

    /** A guarded update and the end of its transaction: `matched` is the WHERE clause on the
        row at `k`, and `row` what the SET list makes of it, which decodes to `a`. */
    method Write(k: Key, matched: bool, row: Row, ghost a: Assignment) returns (r: Result<Assignment>)
      requires active && saved == rows && RowsOk(tables, rows) && k in rows
      requires RowOk(row) && Scan(row) == Ok(a) && k == Key(row.projectId, row.id)
      modifies `rows, `active
      ensures !active && RowsOk(tables, rows)
      ensures matched ==> r == Ok(a) && Decoded(rows) == Decoded(old(rows))[k := a]
      ensures !matched ==> r == Err(Conflict) && rows == old(rows)
    {
      hide RowCodec.Scan, RowCodec.RowOk;
      var returned := None;
      if matched {
        RowReplaced(rows, k, row, a);
        rows := rows[k := row];
        returned := Some(row);
      }
      r := Finish(returned);
    }

    /** Validate and write a progress step. `fence` is the claim id in the WHERE clause, if there is one. */
    method WriteProgress(k: Key, current: Assignment, fence: Option<Id>, status: Status, ref: ExecutionRef, now: Time)
      returns (r: Result<Assignment>)
      requires active && saved == rows && RowsOk(tables, rows) && k in rows && Scan(rows[k]) == Ok(current)
      requires IsProgress(status) && (fence == None || fence == Some(ClaimId(current.claim)))
      modifies `rows, `active
      ensures !active && RowsOk(tables, rows)
      ensures r == Checked(Progressed(current, status, ref, Stamp(current, now)))
      ensures Decoded(rows) == if r.Ok? then Decoded(old(rows))[k := r.value] else Decoded(old(rows))
    {
      hide RowCodec.Scan, AssignmentRules.Progressed, AssignmentRules.Finished, AssignmentRules.ClaimStateOk;
      var row := rows[k];
      GuardedColumns(row, current);
      var candidate := ProgressCandidate(current, status, ref, now);
      if !ClaimStateOk(candidate) {
        Rollback();
        return Err(Invalid);
      }
      var claimExpiresAt := NoTime;
      if current.claim.Some? && current.status != Claimed {
        claimExpiresAt := EncodeOptionalTime(current.claim.value.expiresAt);
      }
      var matched := row.status == current.status && row.updatedAt == EncodeTime(current.updatedAt)
                     && (fence.Some? ==> row.claimId == fence.value);
      ProgressStored(row, current, status, ref, Stamp(current, now));
      hide RowCodec.RowOk;
      row := row.(status := status, startedAt := EncodeTime(candidate.startedAt),
                  executionRef := EncodeRef(candidate.executionRef), claimExpiresAt := claimExpiresAt,
                  updatedAt := EncodeTime(candidate.updatedAt));
      r := Write(k, matched, row, candidate);
    }

    /** Validate and write a completion step. `fence` is the claim id in the WHERE clause, if there is one. */
    method WriteCompletion(k: Key, current: Assignment, fence: Option<Id>, status: Status, ref: ExecutionRef, now: Time)
      returns (r: Result<Assignment>)
      requires active && saved == rows && RowsOk(tables, rows) && k in rows && Scan(rows[k]) == Ok(current)
      requires IsCompletion(status) && (fence == None || fence == Some(ClaimId(current.claim)))
      modifies `rows, `active
      ensures !active && RowsOk(tables, rows)
      ensures r == Checked(Finished(current, status, ref, Stamp(current, now)))
      ensures Decoded(rows) == if r.Ok? then Decoded(old(rows))[k := r.value] else Decoded(old(rows))
    {
      hide RowCodec.Scan, AssignmentRules.Progressed, AssignmentRules.Finished, AssignmentRules.ClaimStateOk;
      var row := rows[k];
      GuardedColumns(row, current);
      var candidate := FinishCandidate(current, status, ref, now);
      if !ClaimStateOk(candidate) {
        Rollback();
        return Err(Invalid);
      }
      var claimExpiresAt := NoTime;
      if current.claim.Some? && current.status != Claimed {
        claimExpiresAt := EncodeOptionalTime(current.claim.value.expiresAt);
      }
      var matched := row.status == current.status && row.updatedAt == EncodeTime(current.updatedAt)
                     && (fence.Some? ==> row.claimId == fence.value);
      FinishStored(row, current, status, ref, Stamp(current, now));
      hide RowCodec.RowOk;
      row := row.(status := status, startedAt := EncodeOptionalTime(candidate.startedAt),
                  completedAt := EncodeOptionalTime(candidate.completedAt),
                  executionRef := EncodeRef(candidate.executionRef), claimExpiresAt := claimExpiresAt,
                  updatedAt := EncodeTime(candidate.updatedAt));
      r := Write(k, matched, row, candidate);
    }

    // -------------------------------------------------------------- fenced transitions

    method ClaimAssignmentWithLease(projectId: Id, id: Id, claimedBy: Text, claimId: Id, ttl: int, now: Time)
      returns (r: Result<Assignment>)
      requires Valid()
      modifies this
      ensures Valid()
      ensures Outcome(View(), AsReply(r))
        == Transit(Sqlite, old(View()), projectId, id, ClaimWithLease(claimedBy, claimId, ttl), now)
    {
      hide RowCodec.Scan, RowCodec.RowOk;
      if claimId == Blank || ttl <= 0 { return Err(Invalid); }
      TransitMeans(Sqlite, View(), projectId, id, ClaimWithLease(claimedBy, claimId, ttl), now);
      hide StoreModel.Transit, AssignmentRules.ArgumentsOk;
      var k := Key(projectId, id);
      r := Begin(projectId, id);
      if r.Err? { return; }
      var current := r.value;
      if current.status != Queued {
        Rollback();
        return Err(Conflict);
      }
      var stamp := SqliteStamp(current.updatedAt, current.startedAt, now);
      var lease := ClaimLease(claimId, now, now + ttl);
      var candidate := current.(status := Claimed, claimedBy := claimedBy, claim := Some(lease), updatedAt := stamp);
      if !ClaimStateOk(candidate) {
        Rollback();
        return Err(Invalid);
      }
      var row := rows[k];
      GuardedColumns(row, current);
      var matched := row.status == current.status && row.claimId == Blank
        && row.updatedAt == EncodeTime(current.updatedAt);
      ClaimStored(rows[k], current, claimedBy, lease, stamp);
      row := row.(status := Claimed, claimedBy := claimedBy, claimId := lease.id,
                  claimedAt := EncodeTime(lease.acquiredAt), claimExpiresAt := EncodeTime(lease.expiresAt),
                    updatedAt := EncodeTime(stamp));
      r := Write(k, matched, row, candidate);
    }

    method RenewAssignmentClaim(projectId: Id, id: Id, claimId: Id, ttl: int, now: Time) returns (r: Result<Assignment>)
      requires Valid()
      modifies this
      ensures Valid()
      ensures Outcome(View(), AsReply(r)) == Transit(Sqlite, old(View()), projectId, id, Renew(claimId, ttl), now)
    {
      hide RowCodec.Scan, RowCodec.RowOk;
      if ttl <= 0 { return Err(Invalid); }
      TransitMeans(Sqlite, View(), projectId, id, Renew(claimId, ttl), now);
      hide StoreModel.Transit, AssignmentRules.ArgumentsOk;
      var k := Key(projectId, id);
      r := Begin(projectId, id);
      if r.Err? { return; }
      var current := r.value;
      if current.status != Claimed || !AllowsMutation(current, claimId, now) {
        Rollback();
        return Err(Conflict);
      }
      var expiresAt := now + ttl;
      if current.claim.value.expiresAt > expiresAt {
        expiresAt := current.claim.value.expiresAt;
      }
      var row := rows[k];
      GuardedColumns(row, current);
      var matched := row.status == current.status && row.claimId == claimId
        && row.claimExpiresAt == EncodeTime(current.claim.value.expiresAt)
           && row.updatedAt == EncodeTime(current.updatedAt);
      RenewStored(rows[k], current, expiresAt);
      row := row.(claimExpiresAt := EncodeTime(expiresAt));
      r := Write(k, matched, row, current.(claim := Some(current.claim.value.(expiresAt := expiresAt))));
    }

    method RecoverAssignmentClaim(projectId: Id, id: Id, expectedClaimId: Id, now: Time)
      returns (r: Result<Assignment>)
      requires Valid()
      modifies this
      ensures Valid()
      ensures Outcome(View(), AsReply(r)) == Transit(Sqlite, old(View()), projectId, id, Recover(expectedClaimId), now)
    {
      hide RowCodec.Scan, RowCodec.RowOk;
      TransitMeans(Sqlite, View(), projectId, id, Recover(expectedClaimId), now);
      hide StoreModel.Transit, AssignmentRules.ArgumentsOk;
      var k := Key(projectId, id);
      r := Begin(projectId, id);
      if r.Err? { return; }
      var current := r.value;
      if current.status != Claimed || current.claim.None? || current.claim.value.id != expectedClaimId
         || current.claim.value.expiresAt == ZERO_TIME || current.claim.value.expiresAt > now {
        Rollback();
        return Err(Conflict);
      }
      var stamp := SqliteStamp(current.updatedAt, current.startedAt, now);
      var row := rows[k];
      GuardedColumns(row, current);
      var matched := row.status == current.status && row.claimId == expectedClaimId
        && row.claimExpiresAt == EncodeTime(current.claim.value.expiresAt)
           && row.updatedAt == EncodeTime(current.updatedAt);
      RequeueStored(rows[k], current, stamp);
      row := row.(status := Queued, claimedBy := Blank, claimId := Blank, claimedAt := NoTime,
                  claimExpiresAt := NoTime, executionRef := NoRef, contextSnapshotId := Blank, startedAt := NoTime,
                    completedAt := NoTime, updatedAt := EncodeTime(stamp));
      r := Write(k, matched, row, Requeued(current, stamp));
    }

    method PrepareAssignmentWithClaim(projectId: Id, id: Id, claimId: Id, ref: ExecutionRef, contextSnapshotId: Id,
                                      now: Time)
      returns (r: Result<Assignment>)
      requires Valid()
      modifies this
      ensures Valid()
      ensures Outcome(View(), AsReply(r))
        == Transit(Sqlite, old(View()), projectId, id, PrepareWithClaim(claimId, ref, contextSnapshotId), now)
    {
      hide RowCodec.Scan, RowCodec.RowOk;
      TransitMeans(Sqlite, View(), projectId, id, PrepareWithClaim(claimId, ref, contextSnapshotId), now);
      hide StoreModel.Transit, AssignmentRules.ArgumentsOk;
      var k := Key(projectId, id);
      r := Begin(projectId, id);
      if r.Err? { return; }
      var current := r.value;
      if current.status != Claimed || !AllowsMutation(current, claimId, now) {
        Rollback();
        return Err(Conflict);
      }
      var candidate := PrepareCandidate(current, ref, contextSnapshotId, now);
      var row := rows[k];
      GuardedColumns(row, current);
      var matched := row.status == current.status && row.claimId == claimId
        && row.claimExpiresAt == EncodeTime(current.claim.value.expiresAt)
           && row.updatedAt == EncodeTime(current.updatedAt);
      PrepareStored(rows[k], current, ref, contextSnapshotId, Stamp(current, now));
      row := row.(executionRef := EncodeRef(candidate.executionRef), contextSnapshotId := candidate.contextSnapshotId,
                  updatedAt := EncodeTime(candidate.updatedAt));
      r := Write(k, matched, row, candidate);
    }

    method ReleaseAssignmentWithClaim(projectId: Id, id: Id, claimId: Id, now: Time)
      returns (r: Result<Assignment>)
      requires Valid()
      modifies this
      ensures Valid()
      ensures Outcome(View(), AsReply(r)) == Transit(Sqlite, old(View()), projectId, id, ReleaseWithClaim(claimId), now)
    {
      hide RowCodec.Scan, RowCodec.RowOk;
      TransitMeans(Sqlite, View(), projectId, id, ReleaseWithClaim(claimId), now);
      hide StoreModel.Transit, AssignmentRules.ArgumentsOk;
      var k := Key(projectId, id);
      r := Begin(projectId, id);
      if r.Err? { return; }
      var current := r.value;
      if current.status != Claimed || !AllowsMutation(current, claimId, now) {
        Rollback();
        return Err(Conflict);
      }
      var stamp := SqliteStamp(current.updatedAt, current.startedAt, now);
      var row := rows[k];
      GuardedColumns(row, current);
      var matched := row.status == current.status && row.claimId == claimId
        && row.claimExpiresAt == EncodeTime(current.claim.value.expiresAt)
           && row.updatedAt == EncodeTime(current.updatedAt);
      RequeueStored(rows[k], current, stamp);
      row := row.(status := Queued, claimedBy := Blank, claimId := Blank, claimedAt := NoTime,
                  claimExpiresAt := NoTime, executionRef := NoRef, contextSnapshotId := Blank, startedAt := NoTime,
                    completedAt := NoTime, updatedAt := EncodeTime(stamp));
      r := Write(k, matched, row, Requeued(current, stamp));
    }

    method UpdateAssignmentStatusWithClaim(projectId: Id, id: Id, claimId: Id, status: Status, ref: ExecutionRef,
                                           now: Time)
      returns (r: Result<Assignment>)
      requires Valid()
      modifies this
      ensures Valid()
      ensures Outcome(View(), AsReply(r))
        == Transit(Sqlite, old(View()), projectId, id, StatusWithClaim(claimId, status, ref), now)
    {
      hide RowCodec.Scan, RowCodec.RowOk, AssignmentRules.Progressed, AssignmentRules.Finished,
        AssignmentRules.ClaimStateOk, AssignmentRules.Next, AssignmentRules.Stamp;
      if !IsProgress(status) { return Err(Invalid); }
      TransitMeans(Sqlite, View(), projectId, id, StatusWithClaim(claimId, status, ref), now);
      hide StoreModel.Transit, AssignmentRules.ArgumentsOk;
      var k := Key(projectId, id);
      r := Begin(projectId, id);
      if r.Err? { return; }
      var current := r.value;
      NextByName(Sqlite, claimId, status, ref, current, now);
      if current.status == Queued || IsTerminal(current.status) || !AllowsMutation(current, claimId, now) {
        Rollback();
        return Err(Conflict);
      }
      r := WriteProgress(k, current, Some(claimId), status, ref, now);
    }

    method CompleteAssignmentWithClaim(projectId: Id, id: Id, claimId: Id, status: Status, ref: ExecutionRef, now: Time)
      returns (r: Result<Assignment>)
      requires Valid()
      modifies this
      ensures Valid()
      ensures Outcome(View(), AsReply(r))
        == Transit(Sqlite, old(View()), projectId, id, CompleteWithClaim(claimId, status, ref), now)
    {
      hide RowCodec.Scan, RowCodec.RowOk, AssignmentRules.Progressed, AssignmentRules.Finished,
        AssignmentRules.ClaimStateOk, AssignmentRules.Next, AssignmentRules.Stamp;
      if !IsCompletion(status) { return Err(Invalid); }
      TransitMeans(Sqlite, View(), projectId, id, CompleteWithClaim(claimId, status, ref), now);
      hide StoreModel.Transit, AssignmentRules.ArgumentsOk;
      var k := Key(projectId, id);
      r := Begin(projectId, id);
      if r.Err? { return; }
      var current := r.value;
      NextByName(Sqlite, claimId, status, ref, current, now);
      if IsTerminal(current.status) {
        Rollback();
        return Err(Conflict);
      }
      if current.status == Queued || !AllowsMutation(current, claimId, now) {
        Rollback();
        return Err(Conflict);
      }
      var currentClaimId := Blank;
      if current.claim.Some? {
        currentClaimId := current.claim.value.id;
      }
      r := WriteCompletion(k, current, Some(currentClaimId), status, ref, now);
    }

    // -------------------------------------------------------------- host transitions

    method ClaimAssignment(projectId: Id, id: Id, claimedBy: Text, now: Time)
      returns (r: Result<Assignment>)
      requires Valid()
      modifies this
      ensures Valid()
      ensures Outcome(View(), AsReply(r)) == Transit(Sqlite, old(View()), projectId, id, HostClaim(claimedBy), now)
    {
      hide RowCodec.Scan, RowCodec.RowOk;
      TransitMeans(Sqlite, View(), projectId, id, HostClaim(claimedBy), now);
      hide StoreModel.Transit, AssignmentRules.ArgumentsOk;
      var k := Key(projectId, id);
      r := Begin(projectId, id);
      if r.Err? { return; }
      var current := r.value;
      if current.status != Queued {
        Rollback();
        return Err(Conflict);
      }
      var stamp := SqliteStamp(current.updatedAt, current.startedAt, now);
      var row := rows[k];
      GuardedColumns(row, current);
      var matched := row.status == current.status && row.updatedAt == EncodeTime(current.updatedAt);
      HostClaimStored(rows[k], current, claimedBy, stamp);
      row := row.(status := Claimed, claimedBy := claimedBy, claimId := Blank, claimedAt := NoTime,
                  claimExpiresAt := NoTime, updatedAt := EncodeTime(stamp));
      r := Write(k, matched, row,
                 current.(status := Claimed, claimedBy := claimedBy, claim := None, updatedAt := stamp));
    }

    method PrepareAssignment(projectId: Id, id: Id, claimedBy: Text, ref: ExecutionRef, contextSnapshotId: Id,
                             now: Time)
      returns (r: Result<Assignment>)
      requires Valid()
      modifies this
      ensures Valid()
      ensures Outcome(View(), AsReply(r))
        == Transit(Sqlite, old(View()), projectId, id, HostPrepare(claimedBy, ref, contextSnapshotId), now)
    {
      hide RowCodec.Scan, RowCodec.RowOk;
      TransitMeans(Sqlite, View(), projectId, id, HostPrepare(claimedBy, ref, contextSnapshotId), now);
      hide StoreModel.Transit, AssignmentRules.ArgumentsOk;
      var k := Key(projectId, id);
      r := Begin(projectId, id);
      if r.Err? { return; }
      var current := r.value;
      if current.status != Claimed || current.claimedBy != claimedBy {
        Rollback();
        return Err(Conflict);
      }
      var candidate := PrepareCandidate(current, ref, contextSnapshotId, now);
      var row := rows[k];
      GuardedColumns(row, current);
      var matched := row.status == current.status && row.claimedBy == current.claimedBy
        && row.updatedAt == EncodeTime(current.updatedAt);
      PrepareStored(rows[k], current, ref, contextSnapshotId, Stamp(current, now));
      row := row.(executionRef := EncodeRef(candidate.executionRef), contextSnapshotId := candidate.contextSnapshotId,
                  updatedAt := EncodeTime(candidate.updatedAt));
      r := Write(k, matched, row, candidate);
    }

    method ReleaseAssignment(projectId: Id, id: Id, claimedBy: Text, now: Time)
      returns (r: Result<Assignment>)
      requires Valid()
      modifies this
      ensures Valid()
      ensures Outcome(View(), AsReply(r)) == Transit(Sqlite, old(View()), projectId, id, HostRelease(claimedBy), now)
    {
      hide RowCodec.Scan, RowCodec.RowOk;
      TransitMeans(Sqlite, View(), projectId, id, HostRelease(claimedBy), now);
      hide StoreModel.Transit, AssignmentRules.ArgumentsOk;
      var k := Key(projectId, id);
      r := Begin(projectId, id);
      if r.Err? { return; }
      var current := r.value;
      if current.status != Claimed || current.claimedBy != claimedBy {
        Rollback();
        return Err(Conflict);
      }
      var stamp := SqliteStamp(current.updatedAt, current.startedAt, now);
      var row := rows[k];
      GuardedColumns(row, current);
      var matched := row.status == current.status && row.claimedBy == current.claimedBy
        && row.updatedAt == EncodeTime(current.updatedAt);
      RequeueStored(rows[k], current, stamp);
      row := row.(status := Queued, claimedBy := Blank, claimId := Blank, claimedAt := NoTime,
                  claimExpiresAt := NoTime, executionRef := NoRef, contextSnapshotId := Blank, startedAt := NoTime,
                    completedAt := NoTime, updatedAt := EncodeTime(stamp));
      r := Write(k, matched, row, Requeued(current, stamp));
    }

    method CompleteAssignment(projectId: Id, id: Id, status: Status, ref: ExecutionRef, now: Time)
      returns (r: Result<Assignment>)
      requires Valid()
      modifies this
      ensures Valid()
      ensures Outcome(View(), AsReply(r)) == Transit(Sqlite, old(View()), projectId, id, HostComplete(status, ref), now)
    {
      hide RowCodec.Scan, RowCodec.RowOk, AssignmentRules.Progressed, AssignmentRules.Finished,
        AssignmentRules.ClaimStateOk, AssignmentRules.Next, AssignmentRules.Stamp;
      if !IsCompletion(status) { return Err(Invalid); }
      TransitMeans(Sqlite, View(), projectId, id, HostComplete(status, ref), now);
      hide StoreModel.Transit, AssignmentRules.ArgumentsOk;
      var k := Key(projectId, id);
      r := Begin(projectId, id);
      if r.Err? { return; }
      var current := r.value;
      NextByName(Sqlite, Blank, status, ref, current, now);
      if IsTerminal(current.status) {
        Rollback();
        return Err(Conflict);
      }
      r := WriteCompletion(k, current, None, status, ref, now);
    }

    method UpdateAssignmentStatus(projectId: Id, id: Id, status: Status, ref: ExecutionRef, now: Time)
      returns (r: Result<Assignment>)
      requires Valid()
      modifies this
      ensures Valid()
      ensures Outcome(View(), AsReply(r)) == Transit(Sqlite, old(View()), projectId, id, HostStatus(status, ref), now)
    {
      hide RowCodec.Scan, RowCodec.RowOk, AssignmentRules.Progressed, AssignmentRules.Finished,
        AssignmentRules.ClaimStateOk, AssignmentRules.Next, AssignmentRules.Stamp;
      if !IsProgress(status) { return Err(Invalid); }
      TransitMeans(Sqlite, View(), projectId, id, HostStatus(status, ref), now);
      hide StoreModel.Transit, AssignmentRules.ArgumentsOk;
      var k := Key(projectId, id);
      r := Begin(projectId, id);
      if r.Err? { return; }
      var current := r.value;
      NextByName(Sqlite, Blank, status, ref, current, now);
      if current.status == Queued || IsTerminal(current.status) {
        Rollback();
        return Err(Conflict);
      }
      r := WriteProgress(k, current, None, status, ref, now);
    }

    // -------------------------------------------------------------- queued update

    /** What the other callers leave behind between two statements of this one. */
    method Yield(laterTables: State, laterRows: map<Key, Row>)
      modifies `tables, `rows
      ensures tables == laterTables && rows == laterRows
    {
      tables, rows := laterTables, laterRows;
    }

    /** The guarded reassignment, its foreign key, and the end of the transaction. */
    method WriteReassigned(k: Key, current: Assignment, update: QueuedUpdate, now: Time) returns (r: Result<Assignment>)
      requires active && saved == rows && RowsOk(tables, rows) && k in rows && Scan(rows[k]) == Ok(current)
      modifies `rows, `active
      ensures !active && RowsOk(tables, rows)
      ensures var n := Next(Sqlite, UpdateQueued(update), current, now);
        r == if n.Ok? && Key(k.project, update.replacement.workItemId) !in tables.workItems.rows then Err(NotFound)
               else n
      ensures Decoded(rows) == if r.Ok? then Decoded(old(rows))[k := r.value] else Decoded(old(rows))
    {
      hide RowCodec.Scan, RowCodec.RowOk, QueuedGuard, AssignmentRules.SnapshotMatches;
      var stamp := SqliteStamp(current.updatedAt, current.startedAt, now);
      var row := rows[k];
      GuardedColumns(row, current);
      GuardIsSnapshotMatch(row, current, update);
      var matched := QueuedGuard(row, update);
      var c := update.replacement;
      if matched && Key(k.project, c.workItemId) !in tables.workItems.rows {
        Rollback();
        return Err(NotFound);
      }
      ReassignStored(rows[k], current, c, stamp);
      row := row.(workItemId := c.workItemId, roleId := c.roleId, rootId := c.rootId, executionMode := c.executionMode,
                  desiredAgent := AgentJson(c.desiredAgent), updatedAt := EncodeTime(stamp));
      r := Write(k, matched, row,
                 current.(workItemId := c.workItemId, roleId := c.roleId, rootId := c.rootId,
                          executionMode := c.executionMode, desiredAgent := c.desiredAgent, updatedAt := stamp));
    }

    /** `UpdateQueuedAssignment`: the references are read before the transaction begins, and
        the other callers may act in between. */
    method UpdateQueuedAssignment(projectId: Id, id: Id, update: QueuedUpdate, now: Time,
                                  laterTables: State, laterRows: map<Key, Row>)
      returns (r: Result<Assignment>)
      requires Valid() && ViewOk(laterTables, laterRows)
      modifies this
      ensures Valid()
      ensures Outcome(View(), AsReply(r)) ==
        QueuedOnRows(old(View()), Viewed(laterTables, laterRows), projectId, id, update, now)
    {
      hide RowCodec.Scan, RowCodec.RowOk, AssignmentRules.Next;
      if Key(projectId, update.replacement.workItemId) !in tables.workItems.rows { return Err(NotFound); }
      if update.replacement.roleId != Blank {
        if Key(projectId, update.replacement.roleId) !in tables.roles.rows { return Err(NotFound); }
      }
      Yield(laterTables, laterRows);
      var k := Key(projectId, id);
      r := Begin(projectId, id);
      if r.Err? { return; }
      var current := r.value;
      r := WriteReassigned(k, current, update, now);
    }
  }
}
