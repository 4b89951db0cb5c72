/** The SQLite store's handoff transactions, proved to take the steps of `HandoffDialect`.

    Handoffs are rows with three time columns; the tables that these transactions only read
    or insert into are kept as decoded values. */
module SqliteHandoffs {
  import opened Domain
  import opened HandoffRules
  import opened StoreModel
  import opened RowCodec
  import opened MemoryStore
  import opened HandoffDialect

  /** A handoff row: the stamps are time columns, and the rest of `plain` stands for the text
      and JSON columns. */
  datatype HandoffRow = HandoffRow(plain: Handoff, createdAt: TimeText, updatedAt: TimeText, statusChangedAt: TimeText)

  function EncodeHandoff(h: Handoff): HandoffRow {
    HandoffRow(h.(createdAt := ZERO_TIME, updatedAt := ZERO_TIME, statusChangedAt := ZERO_TIME),
               EncodeTime(h.createdAt), EncodeTime(h.updatedAt), EncodeTime(h.statusChangedAt))
  }

  /** `scanHandoff`: an unset status time reads as the creation time. */
  function ScanHandoff(r: HandoffRow): Result<Handoff> {
    if DecodeTime(r.createdAt).Err? || DecodeTime(r.updatedAt).Err? then Err(Internal)
    else
      var changed := DecodeOptionalTime(r.statusChangedAt);
      Ok(r.plain.(createdAt := r.createdAt.t, updatedAt := r.updatedAt.t,
                  statusChangedAt := if changed == ZERO_TIME then r.createdAt.t else changed))
  }

  /** A handoff survives its row exactly when its status time is set, or was never needed;
      and what is read once reads back ever after. */
  lemma HandoffCodec(h: Handoff)
    ensures ScanHandoff(EncodeHandoff(h)) == Ok(Reread(h))
    ensures Reread(h) == h <==> ReadsBack(h)
    ensures ReadsBack(Reread(h))
  {
  }

  predicate HandoffRowsOk(tables: State, rows: map<Key, HandoffRow>) {
    forall k :: k in rows ==>
      && ScanHandoff(rows[k]).Ok?
      && k == Key(rows[k].plain.projectId, rows[k].plain.id)
      && HasWorkItem(tables, k.project, rows[k].plain.workItemId)
  }

  function DecodedHandoffs(rows: map<Key, HandoffRow>): map<Key, Handoff>
    requires forall k :: k in rows ==> ScanHandoff(rows[k]).Ok?
  {
    map k | k in rows :: ScanHandoff(rows[k]).value
  }

  class SqliteHandoffStore {
    /** Every table but handoffs, as decoded values. */
    var tables: State
    var rows: map<Key, HandoffRow>

    var active: bool
    var savedTables: State
    var savedRows: map<Key, HandoffRow>

    ghost predicate Sound()
      reads this
    {
      HandoffRowsOk(tables, rows) && TablesOk(tables)
    }

    ghost predicate Valid()
      reads this
    {
      !active && Sound()
    }

    /** The store as the in-memory model sees it. */
    ghost function View(): State
      requires Sound()
      reads this
    {
      tables.(handoffs := Table(DecodedHandoffs(rows)))
    }

    constructor ()
      ensures Valid() && View() == EMPTY
    {
      tables, rows, active, savedTables, savedRows := EMPTY, map[], false, EMPTY, map[];
    }

    // -------------------------------------------------------------- transactions

    method Begin()
      modifies `active, `savedTables, `savedRows
      ensures active && savedTables == tables && savedRows == rows
    {
      active, savedTables, savedRows := true, tables, rows;
    }

    method Rollback()
      modifies `active, `tables, `rows
      ensures !active
      ensures old(active) ==> tables == savedTables && rows == savedRows
      ensures !old(active) ==> tables == old(tables) && rows == old(rows)
    {
      if !active { return; }
      tables, rows, active := savedTables, savedRows, false;
    }

    method Commit()
      modifies `active
      ensures !active
    {
      active := false;
    }

    /** The SELECT of a handoff by project, work item and id. */
    method Select(projectId: Id, workItemId: Id, id: Id) returns (r: Result<Handoff>)
      requires Sound()
      ensures r == if HandoffFiled(View(), projectId, workItemId, id) then Ok(View().handoffs.rows[Key(projectId, id)])
                     else Err(NotFound)
    {
      var k := Key(projectId, id);
      if k !in rows || rows[k].plain.workItemId != workItemId { return Err(NotFound); }
      r := ScanHandoff(rows[k]);
    }

    /** `updateHandoffRow` with an expected revision: a miss returns no row. */
    method UpdateRow(h: Handoff, expected: TimeText) returns (returned: Option<HandoffRow>)
      modifies `rows
      ensures var k := Key(h.projectId, h.id);
        var hit := k in old(rows) && old(rows)[k].plain.workItemId == h.workItemId
          && old(rows)[k].updatedAt == expected;
        && returned == (if hit then Some(EncodeHandoff(h)) else None)
        && rows == if hit then old(rows)[k := EncodeHandoff(h)] else old(rows)
    {
      var k := Key(h.projectId, h.id);
      if k !in rows || rows[k].plain.workItemId != h.workItemId || rows[k].updatedAt != expected { return None; }
      rows := rows[k := EncodeHandoff(h)];
      returned := Some(EncodeHandoff(h));
    }

    /** `validateHandoffTransition`. The work item is left to the foreign key. */
    method ValidateTransition(h: Handoff) returns (e: Option<Error>)
      requires HasWorkItem(tables, h.projectId, h.workItemId)
      ensures e == if HandoffRefsOk(tables, h) then None else Some(NotFound)
    {
      if h.sourceAssignmentId != Blank {
        var k := Key(h.projectId, h.sourceAssignmentId);
        if k !in tables.assignments.rows
          || tables.assignments.rows[k].workItemId != h.workItemId { return Some(NotFound); }
      }
      if h.fromRoleId != Blank && Key(h.projectId, h.fromRoleId) !in tables.roles.rows { return Some(NotFound); }
      if h.toRoleId != Blank && Key(h.projectId, h.toRoleId) !in tables.roles.rows { return Some(NotFound); }
      if h.targetAssignmentId != Blank {
        var k := Key(h.projectId, h.targetAssignmentId);
        if k !in tables.assignments.rows { return Some(NotFound); }
        if h.targetWorkItemId != Blank
          && tables.assignments.rows[k].workItemId != h.targetWorkItemId { return Some(NotFound); }
      }
      if h.targetWorkItemId != Blank
        && Key(h.projectId, h.targetWorkItemId) !in tables.workItems.rows { return Some(NotFound); }
      return None;
    }

    /** Writing a handoff over its row replaces what the model sees there. */
    lemma RowWritten(t: State, before: map<Key, HandoffRow>, k: Key, h: Handoff)
      requires HandoffRowsOk(t, before) && k in before
      requires k == Key(h.projectId, h.id) && h.workItemId == before[k].plain.workItemId
      ensures HandoffRowsOk(t, before[k := EncodeHandoff(h)])
      ensures DecodedHandoffs(before[k := EncodeHandoff(h)]) == DecodedHandoffs(before)[k := Reread(h)]
    {
    }

    /** What is known of a handoff that was selected. */
    lemma Selected(projectId: Id, workItemId: Id, id: Id)
      requires Sound() && HandoffFiled(View(), projectId, workItemId, id)
      ensures var k := Key(projectId, id);
        var h := View().handoffs.rows[k];
        && HasWorkItem(tables, projectId, workItemId)
        && k in rows && ScanHandoff(rows[k]) == Ok(h)
        && rows[k].plain.workItemId == workItemId == h.workItemId
        && rows[k].updatedAt == EncodeTime(h.updatedAt)
        && k == Key(h.projectId, h.id)
        && ReadsBack(h)
    {
    }

    /** `finishHandoffTransition` of a guarded update. */
    method Finish(returned: Option<HandoffRow>) returns (r: Result<Handoff>)
      requires active
      modifies `tables, `rows, `active
      ensures !active
      ensures returned.None? ==> tables == savedTables && rows == savedRows && r == Err(Conflict)
      ensures returned.Some? && ScanHandoff(returned.value).Ok? ==>
        tables == old(tables) && rows == old(rows) && r == ScanHandoff(returned.value)
      ensures returned.Some? && ScanHandoff(returned.value).Err? ==>
        tables == savedTables && rows == savedRows && r == Err(Internal)
    {
      if returned.None? {
        Rollback();
        return Err(Conflict);
      }
      r := ScanHandoff(returned.value);
      if r.Err? {
        Rollback();
        return;
      }
      Commit();
    }

    /** The guarded DELETE. */
    method DeleteRow(k: Key, workItemId: Id, expected: TimeText) returns (affected: bool)
      modifies `rows
      ensures affected == (k in old(rows) && old(rows)[k].plain.workItemId == workItemId
        && old(rows)[k].updatedAt == expected)
      ensures rows == if affected then old(rows) - {k} else old(rows)
    {
      affected := k in rows && rows[k].plain.workItemId == workItemId && rows[k].updatedAt == expected;
      if affected {
        rows := rows - {k};
      }
    }

    method FinishDelete(affected: bool) returns (e: Option<Error>)
      requires active
      modifies `tables, `rows, `active
      ensures !active && e == (if affected then None else Some(Conflict))
      ensures affected ==> tables == old(tables) && rows == old(rows)
      ensures !affected ==> tables == savedTables && rows == savedRows
    {
      if !affected {
        Rollback();
        return Some(Conflict);
      }
      Commit();
      return None;
    }

    // -------------------------------------------------------------- compare and set

    /** The stamps of a changed handoff, step by step. */
    method Stamped(current: Handoff, patched: Handoff, now: Time) returns (replacement: Handoff)
      ensures forall p :: patched == Patched(current, p) ==> replacement == Revised(current, p, now)
    {
      replacement := patched.(createdAt := current.createdAt);
      var stamp := HandoffTransitionTime(current, now);
      replacement := replacement.(updatedAt := stamp, statusChangedAt := current.statusChangedAt);
      if replacement.statusChangedAt == ZERO_TIME {
        replacement := replacement.(statusChangedAt := current.createdAt);
      }
      if replacement.status != current.status {
        replacement := replacement.(statusChangedAt := replacement.updatedAt);
      }
    }

    /** The guarded write of a revised handoff, and the commit: the guard hits. */
    method WriteRevised(k: Key, g: Handoff, expected: TimeText) returns (r: Result<Handoff>)
      requires active && Sound() && k in rows && k == Key(g.projectId, g.id)
      requires rows[k].plain.workItemId == g.workItemId && rows[k].updatedAt == expected
      modifies `tables, `rows, `active
      ensures Valid() && r == Ok(Reread(g))
      ensures View() == old(View()).(handoffs := Put(old(View()).handoffs, k, Reread(g)))
    {
      hide HandoffRowsOk, HandoffDialect.TablesOk, DecodedHandoffs;
      RowWritten(tables, rows, k, g);
      HandoffCodec(g);
      var returned := UpdateRow(g, expected);
      r := Finish(returned);
    }

    /** `UpdateHandoff`; the guard never misses. */
    method UpdateHandoff(projectId: Id, workItemId: Id, id: Id, update: HandoffUpdate, now: Time)
      returns (r: Result<Handoff>)
      requires Valid()
      modifies this
      ensures Valid()
      ensures Outcome(View(), HandoffReply(r)) == PatchOnRows(old(View()), projectId, workItemId, id, update, now)
    {
      hide HandoffRowsOk, HandoffDialect.TablesOk, DecodedHandoffs, StoreModel.PatchCurrent;
      Begin();
      r := Select(projectId, workItemId, id);
      if r.Err? {
        Rollback();
        return;
      }
      Selected(projectId, workItemId, id);
      var k := Key(projectId, id);
      var current := r.value;
      if current.updatedAt != update.expectedUpdatedAt {
        Rollback();
        return Err(Conflict);
      }
      r := PatchSelected(k, current, update, now);
    }

    /** Patch the selected handoff, which carries the expected revision. */
    method PatchSelected(k: Key, current: Handoff, update: HandoffUpdate, now: Time) returns (r: Result<Handoff>)
      requires active && Sound() && savedTables == tables && savedRows == rows
      requires k in rows && k == Key(current.projectId, current.id) && ReadsBack(current)
      requires HasWorkItem(tables, current.projectId, current.workItemId)
      requires rows[k].plain.workItemId == current.workItemId
        && rows[k].updatedAt == EncodeTime(update.expectedUpdatedAt)
      modifies this
      ensures Valid()
      ensures Outcome(View(), HandoffReply(r))
        == PatchAsRead(old(View()), k, PatchCurrent(old(View()), k, current, update, now))
    {
      hide HandoffRowsOk, HandoffDialect.TablesOk, DecodedHandoffs, HandoffRules.Revised, HandoffRules.Patched,
        HandoffRules.SameContent, StoreModel.HandoffRefsOk;
      var replacement := ApplyPatch(update.patch, current);
      if SameContent(current, replacement) {
        Rollback();
        return Ok(current);
      }
      PatchKeepsPlace(current, update.patch, now);
      var invalid := ValidateTransition(replacement);
      SameRefs(replacement);
      if invalid.Some? {
        Rollback();
        return Err(invalid.value);
      }
      replacement := Stamped(current, replacement, now);
      r := WriteRevised(k, replacement, EncodeTime(update.expectedUpdatedAt));
    }

    lemma PatchKeepsPlace(h: Handoff, p: HandoffPatch, now: Time)
      ensures var g := Patched(h, p);
        && g.id == h.id && g.projectId == h.projectId && g.workItemId == h.workItemId
        && Revised(h, p, now).id == h.id && Revised(h, p, now).projectId == h.projectId
           && Revised(h, p, now).workItemId == h.workItemId
    {
    }

    /** The reference check reads no handoffs. */
    lemma SameRefs(h: Handoff)
      requires Sound()
      ensures HandoffRefsOk(View(), h) == HandoffRefsOk(tables, h)
    {
    }

    /** `DeleteHandoff` is the in-memory step. */
    method DeleteHandoff(projectId: Id, workItemId: Id, id: Id, expectedUpdatedAt: Time) returns (e: Option<Error>)
      requires Valid()
      modifies this
      ensures Valid()
      ensures Outcome(View(), DoneReply(e))
        == StoreModel.DeleteHandoff(old(View()), projectId, workItemId, id, expectedUpdatedAt)
    {
      hide HandoffRowsOk, HandoffDialect.TablesOk, DecodedHandoffs;
      Begin();
      var r := Select(projectId, workItemId, id);
      if r.Err? {
        Rollback();
        return Some(r.error);
      }
      Selected(projectId, workItemId, id);
      if r.value.updatedAt != expectedUpdatedAt {
        Rollback();
        return Some(Conflict);
      }
      RowDropped(tables, rows, Key(projectId, id));
      var affected := DeleteRow(Key(projectId, id), workItemId, EncodeTime(expectedUpdatedAt));
      e := FinishDelete(affected);
    }

    lemma RowDropped(t: State, before: map<Key, HandoffRow>, k: Key)
      requires HandoffRowsOk(t, before)
      ensures HandoffRowsOk(t, before - {k})
      ensures DecodedHandoffs(before - {k}) == DecodedHandoffs(before) - {k}
    {
    }

    // -------------------------------------------------------------- accept with follow-up

    /** A key that was used: answer from the receipt, or conflict. */
    method ReplayReceipt(c: AcceptCommand, receipt: Receipt) returns (r: Result<FollowUpResult>)
      requires active && Sound() && savedTables == tables && savedRows == rows
      requires Key(c.projectId, c.idempotencyKey) in tables.receipts.rows
      requires tables.receipts.rows[Key(c.projectId, c.idempotencyKey)] == receipt
      modifies `tables, `rows, `active
      ensures Valid() && View() == old(View())
      ensures Outcome(View(), FollowUpReply(r)) == ReplayOnRows(old(View()), c, receipt)
    {
      if receipt.request != Request(c) {
        Rollback();
        return Err(Conflict);
      }
      var found := Select(c.projectId, c.workItemId, c.handoffId);
      var ak := Key(c.projectId, receipt.result.assignment.id);
      if found.Err? || ak !in tables.assignments.rows {
        Rollback();
        return Err(Conflict);
      }
      Selected(c.projectId, c.workItemId, c.handoffId);
      var handoff, assignment := found.value, tables.assignments.rows[ak];
      if receipt.result.assignment.id == Blank || handoff.status != Accepted
         || handoff.targetAssignmentId != receipt.result.assignment.id
         || handoff.targetWorkItemId != assignment.workItemId
         || handoff.toRoleId == Blank || handoff.toRoleId != assignment.roleId {
        Rollback();
        return Err(Conflict);
      }
      Rollback();
      return Ok(receipt.result.(handoff := handoff, assignment := assignment, replayed := true));
    }

    /** The handoff that is being accepted, `h` being it with its new target. */
    ghost predicate Accepting(c: AcceptCommand, h: Handoff)
      reads this
    {
      && active && Sound()
      && Key(c.projectId, c.idempotencyKey) !in tables.receipts.rows
      && HandoffFiled(View(), c.projectId, c.workItemId, c.handoffId)
      && var g := View().handoffs.rows[Key(c.projectId, c.handoffId)];
         && g.updatedAt == c.expectedUpdatedAt
         && h == g.(targetAssignmentId := h.targetAssignmentId, targetWorkItemId := h.targetWorkItemId)
    }

    /** The stamps of an acceptance. */
    method AcceptStamps(h: Handoff, now: Time) returns (current: Handoff)
      ensures current == AcceptedAs(h, now)
    {
      var previousStatus := h.status;
      current := h.(status := Accepted);
      var stamp := HandoffTransitionTime(current, now);
      current := current.(updatedAt := stamp);
      if previousStatus != current.status {
        current := current.(statusChangedAt := current.updatedAt);
      }
    }

    /** Update the handoff row unless there is nothing to change, then file the receipt. */
    method Settle(c: AcceptCommand, h: Handoff, assignment: Assignment, outcome: FollowUpOutcome, now: Time)
      returns (r: Result<FollowUpResult>)
      requires Accepting(c, h)
      modifies `tables, `rows, `active
      ensures Valid()
      ensures Outcome(View(), FollowUpReply(r)) ==
        AsRead(old(View()), c, StoreModel.Settle(old(View()), c, h, assignment, outcome, now))
    {
      hide HandoffRowsOk, DecodedHandoffs, StoreModel.AcceptedAs;
      Selected(c.projectId, c.workItemId, c.handoffId);
      var read := Ok(h);
      if outcome != AlreadySatisfied {
        var current := AcceptStamps(h, now);
        AcceptKeepsPlace(h, now);
        RowWritten(tables, rows, Key(c.projectId, c.handoffId), current);
        HandoffCodec(current);
        var returned := UpdateRow(current, EncodeTime(c.expectedUpdatedAt));
        read := ReadReturned(returned);
      }
      r := FinishSettle(c, read, assignment, outcome);
    }

    /** The scan of the returned row: none means the guard missed. */
    method ReadReturned(returned: Option<HandoffRow>) returns (read: Result<Handoff>)
      ensures read == if returned.None? then Err(Conflict) else ScanHandoff(returned.value)
    {
      if returned.None? { return Err(Conflict); }
      read := ScanHandoff(returned.value);
    }

    /** Roll back a missed guard; otherwise insert the receipt and commit. */
    method FinishSettle(c: AcceptCommand, read: Result<Handoff>, assignment: Assignment, outcome: FollowUpOutcome)
      returns (r: Result<FollowUpResult>)
      requires active && HandoffRowsOk(tables, rows)
      modifies `tables, `rows, `active
      ensures !active
      ensures read.Err? ==> tables == savedTables && rows == savedRows && r == Err(read.error)
      ensures read.Ok? ==>
        var result := FollowUpResult(read.value, assignment, outcome, false);
        && r == Ok(result) && rows == old(rows) && HandoffRowsOk(tables, rows)
        && tables == old(tables).(receipts :=
             Put(old(tables).receipts, Key(c.projectId, c.idempotencyKey), Receipt(Request(c), result)))
    {
      if read.Err? {
        Rollback();
        return Err(read.error);
      }
      var result := FollowUpResult(read.value, assignment, outcome, false);
      var filed := Put(tables.receipts, Key(c.projectId, c.idempotencyKey), Receipt(Request(c), result));
      SameWork(tables, tables.(receipts := filed), rows);
      tables := tables.(receipts := filed);
      Commit();
      return Ok(result);
    }

    /** The foreign keys of handoffs are to projects and work items. */
    lemma SameWork(t1: State, t2: State, r: map<Key, HandoffRow>)
      requires t1.projects == t2.projects && t1.workItems == t2.workItems && HandoffRowsOk(t1, r)
      ensures HandoffRowsOk(t2, r)
    {
    }

    lemma AcceptKeepsPlace(h: Handoff, now: Time)
      ensures var g := AcceptedAs(h, now);
        g.id == h.id && g.projectId == h.projectId && g.workItemId == h.workItemId
    {
    }

    /** The handoff names an assignment already. */
    method LinkFollowUp(c: AcceptCommand, h: Handoff, now: Time) returns (r: Result<FollowUpResult>)
      requires Accepting(c, h) && savedTables == tables && savedRows == rows
      requires h.targetAssignmentId != Blank
      modifies `tables, `rows, `active
      ensures Valid()
      ensures Outcome(View(), FollowUpReply(r)) == AsRead(old(View()), c, LinkExisting(old(View()), c, h, now))
    {
      hide HandoffRowsOk, HandoffDialect.TablesOk, DecodedHandoffs, StoreModel.Settle;
      var ak := Key(c.projectId, h.targetAssignmentId);
      if ak !in tables.assignments.rows {
        Rollback();
        return Err(Conflict);
      }
      var assignment := tables.assignments.rows[ak];
      if assignment.roleId != h.toRoleId
        || (h.targetWorkItemId != Blank && assignment.workItemId != h.targetWorkItemId) {
        Rollback();
        return Err(Conflict);
      }
      if Key(c.projectId, assignment.workItemId) !in tables.workItems.rows {
        Rollback();
        return Err(Conflict);
      }
      var outcome := LinkedExisting;
      if h.status == Accepted && h.targetWorkItemId == assignment.workItemId {
        outcome := AlreadySatisfied;
      }
      r := Settle(c, h.(targetWorkItemId := assignment.workItemId), assignment, outcome, now);
    }

    /** A fresh assignment is inserted for the receiving role. */
    method QueueFollowUp(c: AcceptCommand, newAssignmentId: Id, h: Handoff, role: Role, created: Time, now: Time)
      returns (r: Result<FollowUpResult>)
      requires Accepting(c, h) && savedTables == tables && savedRows == rows
      requires h.targetAssignmentId == Blank
      modifies `tables, `rows, `active
      ensures Valid()
      ensures Outcome(View(), FollowUpReply(r))
        == AsRead(old(View()), c, CreateFollowUp(old(View()), c, newAssignmentId, h, role, created, now))
    {
      hide HandoffRowsOk, DecodedHandoffs, StoreModel.Settle;
      var targetWorkItemId := h.targetWorkItemId;
      if targetWorkItemId == Blank {
        targetWorkItemId := h.workItemId;
      }
      if Key(c.projectId, targetWorkItemId) !in tables.workItems.rows {
        Rollback();
        return Err(NotFound);
      }
      var workItem := tables.workItems.rows[Key(c.projectId, targetWorkItemId)];
      if workItem.rootId != Blank {
        if c.projectId !in tables.projects.rows || workItem.rootId !in tables.projects.rows[c.projectId].rootIds {
          Rollback();
          return Err(NotFound);
        }
      }
      if Key(c.projectId, newAssignmentId) in tables.assignments.rows {
        Rollback();
        return Err(Duplicate);
      }
      var assignment := NewFollowUp(c, newAssignmentId, workItem, targetWorkItemId, role, h.toRoleId, created);
      var inserted := tables.(assignments := Put(tables.assignments, Key(c.projectId, newAssignmentId), assignment));
      SameWork(tables, inserted, rows);
      tables := inserted;
      var target := h.(targetAssignmentId := newAssignmentId, targetWorkItemId := targetWorkItemId);
      r := Settle(c, target, assignment, CreatedFollowUp, now);
    }

    /** `AcceptHandoffWithFollowUp`, receipt and all. */
    method AcceptHandoffWithFollowUp(c: AcceptCommand, newAssignmentId: Id, created: Time, now: Time)
      returns (r: Result<FollowUpResult>)
      requires Valid()
      modifies this
      ensures Valid()
      ensures Outcome(View(), FollowUpReply(r)) == AcceptOnRows(old(View()), c, newAssignmentId, created, now)
    {
      hide HandoffRowsOk, HandoffDialect.TablesOk, DecodedHandoffs, StoreModel.LinkExisting, StoreModel.CreateFollowUp,
        StoreModel.Replay;
      Begin();
      var receiptKey := Key(c.projectId, c.idempotencyKey);
      if receiptKey in tables.receipts.rows {
        r := ReplayReceipt(c, tables.receipts.rows[receiptKey]);
        return;
      }
      var found := Select(c.projectId, c.workItemId, c.handoffId);
      if found.Err? {
        Rollback();
        return Err(found.error);
      }
      var current := found.value;
      if current.updatedAt != c.expectedUpdatedAt {
        Rollback();
        return Err(Conflict);
      }
      if current.status == Dismissed || current.status == Superseded {
        Rollback();
        return Err(Conflict);
      }
      if current.toRoleId == Blank {
        Rollback();
        return Err(Invalid);
      }
      if Key(c.projectId, current.toRoleId) !in tables.roles.rows {
        Rollback();
        return Err(NotFound);
      }
      var role := tables.roles.rows[Key(c.projectId, current.toRoleId)];
      if current.targetAssignmentId != Blank {
        r := LinkFollowUp(c, current, now);
      } else {
        r := QueueFollowUp(c, newAssignmentId, current, role, created, now);
      }
    }
  }
}
