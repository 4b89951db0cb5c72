/** The SQLite store's creations and deletions of assignments and handoffs: INSERT statements
    behind their checks, and the sweeps, each in one transaction. */
module SqliteRecords {
  import opened Domain
  import opened AssignmentRules
  import opened StoreModel
  import opened RowCodec
  import opened MemoryStore
  import opened HandoffDialect
  import opened Rows = SqliteStore
  import opened HandoffRows = SqliteHandoffs

  // ---------------------------------------------------------------- the steps on the decoded store

  /** `Store.CreateHandoff` answers with what it was given and stores what its row reads. */
  function InsertHandoffOnRows(s: State, h: Handoff): Outcome {
    var o := InsertHandoff(s, h);
    if o.reply.Handed? then Outcome(s.(handoffs := Put(s.handoffs, Key(h.projectId, h.id), Reread(h))), o.reply) else o
  }

  /** `Store.DeleteProject` finds receipts by their project column. */
  function DeleteProjectOnRows(s: State, id: Id): Outcome {
    var o := DeleteProject(s, id);
    if o.reply.Done? then Outcome(o.state.(receipts := Outside(s.receipts, id)), Done) else o
  }

  lemma CreationsAgreeExactlyWhen(s: State, h: Handoff)
    ensures InsertHandoffOnRows(s, h) == InsertHandoff(s, h) <==> InsertHandoff(s, h).reply.Refused? || ReadsBack(h)
  {
    if !ReadsBack(h) && !InsertHandoff(s, h).reply.Refused? {
      var k := Key(h.projectId, h.id);
      assert InsertHandoffOnRows(s, h).state.handoffs.rows[k] != InsertHandoff(s, h).state.handoffs.rows[k];
    }
  }

  /** What the service hands to the store always reads back. */
  lemma FreshReadsBack(h: Handoff, now: Time)
    ensures ReadsBack(FreshHandoff(h, now))
  {
  }

  lemma ProjectDeletionsAgree(s: State, id: Id)
    requires forall rk :: rk in s.receipts.rows ==> s.receipts.rows[rk].result.handoff.projectId == rk.project
    ensures DeleteProjectOnRows(s, id) == DeleteProject(s, id)
  {
    assert Outside(s.receipts, id).rows == ReceiptsOutside(s.receipts, id).rows;
  }

  // ---------------------------------------------------------------- rows

  /** The rows that a DELETE leaves. */
  function Kept<V>(rows: map<Key, V>, condemned: (Key, V) -> bool): map<Key, V> {
    map k | k in rows && !condemned(k, rows[k]) :: rows[k]
  }

  predicate AllOk(tables: State, rows: map<Key, Row>, handoffs: map<Key, HandoffRow>) {
    ViewOk(tables, rows) && HandoffRowsOk(tables, handoffs)
  }

  /** The row DELETEs of a work item, and of a project, read back. */
  function RowsSpared(rows: map<Key, Row>, p: Id, w: Id): map<Key, Row> {
    Kept(rows, (k: Key, r: Row) => k.project == p && r.workItemId == w)
  }

  function HandoffRowsSpared(rows: map<Key, HandoffRow>, p: Id, w: Id): map<Key, HandoffRow> {
    Kept(rows, (k: Key, r: HandoffRow) =>
           k.project == p && (r.plain.workItemId == w || r.plain.targetWorkItemId == w))
  }

  lemma RowsSparedOk(tables: State, rows: map<Key, Row>, p: Id, w: Id)
    requires ViewOk(tables, rows)
    ensures ViewOk(tables, RowsSpared(rows, p, w))
  {
    hide RowCodec.RowOk, RowCodec.Scan;
  }

  lemma RowsSparedReadBack(rows: map<Key, Row>, p: Id, w: Id)
    requires forall k :: k in rows ==> Scan(rows[k]).Ok?
    ensures Table(Decoded(RowsSpared(rows, p, w))) == SparedAssignments(Table(Decoded(rows)), p, w)
  {
    forall r: Row
      ensures Scan(r).Ok? ==> Scan(r).value.workItemId == r.workItemId
    {
    }
    hide RowCodec.Scan;
  }

  lemma HandoffRowsSparedOk(tables: State, handoffs: map<Key, HandoffRow>, p: Id, w: Id)
    requires HandoffRowsOk(tables, handoffs)
    ensures HandoffRowsOk(tables.(workItems := Drop(tables.workItems, Key(p, w))), HandoffRowsSpared(handoffs, p, w))
  {
    hide HandoffRows.ScanHandoff;
  }

  lemma HandoffRowsSparedReadBack(handoffs: map<Key, HandoffRow>, p: Id, w: Id)
    requires forall k :: k in handoffs ==> ScanHandoff(handoffs[k]).Ok?
    ensures Table(DecodedHandoffs(HandoffRowsSpared(handoffs, p, w)))
         == SparedHandoffs(Table(DecodedHandoffs(handoffs)), p, w)
  {
    forall r: HandoffRow
      ensures ScanHandoff(r).Ok? ==>
        && ScanHandoff(r).value.workItemId == r.plain.workItemId
        && ScanHandoff(r).value.targetWorkItemId == r.plain.targetWorkItemId
    {
    }
    hide HandoffRows.ScanHandoff;
  }

  lemma SparedReadBack(tables: State, rows: map<Key, Row>, handoffs: map<Key, HandoffRow>, p: Id, w: Id)
    requires AllOk(tables, rows, handoffs)
    ensures AllOk(tables.(workItems := Drop(tables.workItems, Key(p, w))), RowsSpared(rows, p, w),
                  HandoffRowsSpared(handoffs, p, w))
    ensures Table(Decoded(RowsSpared(rows, p, w))) == SparedAssignments(Table(Decoded(rows)), p, w)
    ensures Table(DecodedHandoffs(HandoffRowsSpared(handoffs, p, w)))
         == SparedHandoffs(Table(DecodedHandoffs(handoffs)), p, w)
  {
    hide Rows.RowsOk, HandoffRows.HandoffRowsOk, Decoded, DecodedHandoffs, RowsSpared, HandoffRowsSpared;
    RowsSparedOk(tables, rows, p, w);
    AllScan(tables, rows, handoffs);
    RowsSparedReadBack(rows, p, w);
    HandoffRowsSparedOk(tables, handoffs, p, w);
    HandoffRowsSparedReadBack(handoffs, p, w);
    WorkItemDropped(tables, RowsSpared(rows, p, w), Key(p, w));
  }

  lemma AllScan(tables: State, rows: map<Key, Row>, handoffs: map<Key, HandoffRow>)
    requires AllOk(tables, rows, handoffs)
    ensures forall k :: k in rows ==> Scan(rows[k]).Ok?
    ensures forall k :: k in handoffs ==> ScanHandoff(handoffs[k]).Ok?
  {
  }

  lemma WorkItemDropped(tables: State, rows: map<Key, Row>, k: Key)
    requires ViewOk(tables, rows)
    ensures ViewOk(tables.(workItems := Drop(tables.workItems, k)), rows)
  {
    hide RowCodec.RowOk, RowCodec.Scan;
  }

  lemma RowsOutsideOk(tables: State, rows: map<Key, Row>, p: Id)
    requires ViewOk(tables, rows)
    ensures ViewOk(tables.(projects := Drop(tables.projects, p), workItems := Outside(tables.workItems, p)),
                   Outside(Table(rows), p).rows)
  {
    hide RowCodec.RowOk, RowCodec.Scan;
  }

  lemma HandoffRowsOutsideOk(tables: State, handoffs: map<Key, HandoffRow>, p: Id)
    requires HandoffRowsOk(tables, handoffs)
    ensures HandoffRowsOk(tables.(projects := Drop(tables.projects, p), workItems := Outside(tables.workItems, p)),
                          Outside(Table(handoffs), p).rows)
  {
    hide HandoffRows.ScanHandoff;
  }

  lemma OutsideReadBack(tables: State, rows: map<Key, Row>, handoffs: map<Key, HandoffRow>, p: Id)
    requires AllOk(tables, rows, handoffs)
    ensures AllOk(tables.(projects := Drop(tables.projects, p), workItems := Outside(tables.workItems, p)),
                  Outside(Table(rows), p).rows, Outside(Table(handoffs), p).rows)
    ensures Table(Decoded(Outside(Table(rows), p).rows)) == Outside(Table(Decoded(rows)), p)
    ensures Table(DecodedHandoffs(Outside(Table(handoffs), p).rows)) == Outside(Table(DecodedHandoffs(handoffs)), p)
  {
    RowsOutsideOk(tables, rows, p);
    HandoffRowsOutsideOk(tables, handoffs, p);
    RowsOutside(tables, rows, p);
    HandoffRowsOutside(tables, handoffs, p);
    hide Rows.ViewOk, HandoffRows.HandoffRowsOk, Decoded, DecodedHandoffs, StoreModel.Outside;
  }

  lemma RowsOutside(tables: State, rows: map<Key, Row>, p: Id)
    requires ViewOk(tables, rows)
    ensures forall k :: k in Outside(Table(rows), p).rows ==> Scan(Outside(Table(rows), p).rows[k]).Ok?
    ensures Table(Decoded(Outside(Table(rows), p).rows)) == Outside(Table(Decoded(rows)), p)
  {
    hide RowCodec.RowOk, RowCodec.Scan;
  }

  lemma HandoffRowsOutside(tables: State, handoffs: map<Key, HandoffRow>, p: Id)
    requires HandoffRowsOk(tables, handoffs)
    ensures forall k :: k in Outside(Table(handoffs), p).rows ==> ScanHandoff(Outside(Table(handoffs), p).rows[k]).Ok?
    ensures Table(DecodedHandoffs(Outside(Table(handoffs), p).rows)) == Outside(Table(DecodedHandoffs(handoffs)), p)
  {
    hide HandoffRows.ScanHandoff;
  }

  /** Only projects and work items are referred to. */
  lemma SameWork(t1: State, t2: State, rows: map<Key, Row>, handoffs: map<Key, HandoffRow>)
    requires AllOk(t1, rows, handoffs) && t1.projects == t2.projects && t1.workItems == t2.workItems
    ensures AllOk(t2, rows, handoffs)
  {
    hide RowCodec.RowOk, RowCodec.Scan, HandoffRows.ScanHandoff;
  }

  lemma RowDropped(tables: State, rows: map<Key, Row>, handoffs: map<Key, HandoffRow>, k: Key)
    requires AllOk(tables, rows, handoffs)
    ensures AllOk(tables, rows - {k}, handoffs)
    ensures Table(Decoded(rows - {k})) == Drop(Table(Decoded(rows)), k)
  {
    hide RowCodec.RowOk, RowCodec.Scan, HandoffRows.ScanHandoff;
  }

  class RecordStore {
    /** Every table but assignments and handoffs, as decoded values. */
    var tables: State
    var rows: map<Key, Row>
    var handoffs: map<Key, HandoffRow>

    var active: bool
    var savedTables: State
    var savedRows: map<Key, Row>
    var savedHandoffs: map<Key, HandoffRow>

    ghost predicate Valid()
      reads this
    {
      !active && AllOk(tables, rows, handoffs)
    }

    /** The store as the in-memory model sees it. */
    ghost function View(): State
      requires AllOk(tables, rows, handoffs)
      reads this
    {
      tables.(assignments := Table(Decoded(rows)), handoffs := Table(DecodedHandoffs(handoffs)))
    }

    constructor ()
      ensures Valid() && View() == EMPTY
    {
      tables, rows, handoffs, active := EMPTY, map[], map[], false;
      savedTables, savedRows, savedHandoffs := EMPTY, map[], map[];
    }

    method Begin()
      modifies `active, `savedTables, `savedRows, `savedHandoffs
      ensures active && savedTables == tables && savedRows == rows && savedHandoffs == handoffs
    {
      active, savedTables, savedRows, savedHandoffs := true, tables, rows, handoffs;
    }

    /** The end of a deletion: nothing affected is not found, and undoes the sweep. */
    method Finish(affected: bool) returns (e: Option<Error>)
      modifies `active, `tables, `rows, `handoffs
      ensures !active && e == if affected then None else Some(NotFound)
      ensures affected ==> tables == old(tables) && rows == old(rows) && handoffs == old(handoffs)
      ensures !affected ==> tables == savedTables && rows == savedRows && handoffs == savedHandoffs
    {
      active := false;
      if !affected {
        tables, rows, handoffs := savedTables, savedRows, savedHandoffs;
        return Some(NotFound);
      }
      return None;
    }

    // -------------------------------------------------------------- creations

    method CreateAssignment(a: Assignment) returns (r: Result<Assignment>)
      requires Valid()
      modifies `rows
      ensures Valid()
      ensures Outcome(View(), AsReply(r)) == InsertAssignment(old(View()), a)
    {
      if !ClaimStateOk(a) { return Err(Invalid); }
      if Key(a.projectId, a.workItemId) !in tables.workItems.rows { return Err(NotFound); }
      if a.roleId != Blank {
        if Key(a.projectId, a.roleId) !in tables.roles.rows { return Err(NotFound); }
      }
      var k := Key(a.projectId, a.id);
      if k in rows { return Err(Duplicate); }
      CodecRoundTrip(a);
      rows := rows[k := Encode(a)];
      assert Decoded(rows) == Decoded(old(rows))[k := a];
      return Ok(a);
    }

    /** The references are looked up one by one; the row of an assignment is scanned. */
    method ValidateHandoff(h: Handoff) returns (e: Option<Error>)
      requires Valid()
      ensures e == if HandoffRefsOk(View(), h) then None else Some(NotFound)
    {
      if Key(h.projectId, h.workItemId) !in tables.workItems.rows { return Some(NotFound); }
      if h.sourceAssignmentId != Blank {
        var k := Key(h.projectId, h.sourceAssignmentId);
        if k !in rows { return Some(NotFound); }
        if Scan(rows[k]).value.workItemId != h.workItemId { return Some(NotFound); }
      }
      if h.fromRoleId != Blank && Key(h.projectId, h.fromRoleId) !in tables.roles.rows { return Some(NotFound); }
      if h.toRoleId != Blank && Key(h.projectId, h.toRoleId) !in tables.roles.rows { return Some(NotFound); }
      if h.targetAssignmentId != Blank {
        var k := Key(h.projectId, h.targetAssignmentId);
        if k !in rows { return Some(NotFound); }
        if h.targetWorkItemId != Blank
           && Scan(rows[k]).value.workItemId != h.targetWorkItemId { return Some(NotFound); }
      }
      if h.targetWorkItemId != Blank
         && Key(h.projectId, h.targetWorkItemId) !in tables.workItems.rows { return Some(NotFound); }
      return None;
    }

    method CreateHandoff(h: Handoff) returns (r: Result<Handoff>)
      requires Valid()
      modifies `handoffs
      ensures Valid()
      ensures Outcome(View(), HandoffReply(r)) == InsertHandoffOnRows(old(View()), h)
    {
      var invalid := ValidateHandoff(h);
      if invalid.Some? { return Err(invalid.value); }
      var k := Key(h.projectId, h.id);
      if k in handoffs { return Err(Duplicate); }
      HandoffCodec(h);
      handoffs := handoffs[k := EncodeHandoff(h)];
      assert DecodedHandoffs(handoffs) == DecodedHandoffs(old(handoffs))[k := Reread(h)];
      return Ok(h);
    }

    // -------------------------------------------------------------- deletions

    /** The DELETEs on the tables that refer to an assignment. */
    method DropResults(projectId: Id, id: Id)
      modifies `tables
      ensures tables == old(tables).(artifacts := ArtifactsNotOf(old(tables).artifacts, projectId, id),
                                     reviews := ReviewsNotOf(old(tables).reviews, projectId, id))
    {
      var artifacts := Kept(tables.artifacts.rows,
                            (k: Key, x: Artifact) => k.project == projectId && x.assignmentId == id);
      tables := tables.(artifacts := Table(artifacts));
      var reviews := Kept(tables.reviews.rows, (k: Key, x: Review) => k.project == projectId && x.assignmentId == id);
      tables := tables.(reviews := Table(reviews));
    }

    /** Artifacts and reviews go with the assignment. */
    method DeleteAssignment(projectId: Id, id: Id) returns (e: Option<Error>)
      requires Valid()
      modifies this
      ensures Valid()
      ensures Outcome(View(), DoneReply(e)) == StoreModel.DeleteAssignment(old(View()), projectId, id)
    {
      hide Rows.ViewOk, HandoffRows.HandoffRowsOk, Decoded, DecodedHandoffs, ArtifactsNotOf, ReviewsNotOf;
      Begin();
      DropResults(projectId, id);
      var k := Key(projectId, id);
      SameWork(savedTables, tables, rows, handoffs);
      RowDropped(tables, rows, handoffs, k);
      var affected := k in rows;
      rows := rows - {k};
      AssignmentsOwned(savedTables, savedRows);
      e := Finish(affected);
    }

    lemma AssignmentsOwned(t: State, rs: map<Key, Row>)
      requires ViewOk(t, rs)
      ensures Decoded(rs).Keys == rs.Keys
      ensures forall k :: k in rs ==> k.project in t.projects.rows
      ensures forall k :: k in t.workItems.rows ==> k.project in t.projects.rows
    {
      hide RowCodec.RowOk, RowCodec.Scan;
    }

    // The DELETEs on the tables under a work item that are kept as values.

    method DropArtifacts(projectId: Id, id: Id)
      modifies `tables
      ensures tables == old(tables).(artifacts := SparedArtifacts(old(tables).artifacts, projectId, id))
    {
      var artifacts := Kept(tables.artifacts.rows, (k: Key, x: Artifact) => k.project == projectId
        && x.workItemId == id);
      tables := tables.(artifacts := Table(artifacts));
    }

    method DropEvidence(projectId: Id, id: Id)
      modifies `tables
      ensures tables == old(tables).(evidence := SparedEvidence(old(tables).evidence, projectId, id))
    {
      var evidence := Kept(tables.evidence.rows, (k: Key, x: Evidence) => k.project == projectId && x.workItemId == id);
      tables := tables.(evidence := Table(evidence));
    }

    method DropReviews(projectId: Id, id: Id)
      modifies `tables
      ensures tables == old(tables).(reviews := SparedReviews(old(tables).reviews, projectId, id))
    {
      var reviews := Kept(tables.reviews.rows, (k: Key, x: Review) => k.project == projectId && x.workItemId == id);
      tables := tables.(reviews := Table(reviews));
    }

    /** Everything filed under the work item goes, and the handoffs aimed at it. */
    method DeleteWorkItem(projectId: Id, id: Id) returns (e: Option<Error>)
      requires Valid()
      modifies this
      ensures Valid()
      ensures Outcome(View(), DoneReply(e)) == StoreModel.DeleteWorkItem(old(View()), projectId, id)
    {
      hide Rows.ViewOk, HandoffRows.HandoffRowsOk, Decoded, DecodedHandoffs, SparedArtifacts, SparedEvidence,
        SparedReviews, SparedAssignments, SparedHandoffs;
      Begin();
      DropArtifacts(projectId, id);
      DropEvidence(projectId, id);
      DropReviews(projectId, id);
      var k := Key(projectId, id);
      SameWork(savedTables, tables, rows, handoffs);
      SparedReadBack(tables, rows, handoffs, projectId, id);
      rows := RowsSpared(rows, projectId, id);
      handoffs := HandoffRowsSpared(handoffs, projectId, id);
      var affected := k in tables.workItems.rows;
      tables := tables.(workItems := Drop(tables.workItems, k));
      AssignmentsOwned(savedTables, savedRows);
      e := Finish(affected);
    }

    /** The DELETEs on the tables of a project that are kept as values. */
    method DropOwned(id: Id)
      modifies `tables
      ensures tables == old(tables).(
        receipts := Outside(old(tables).receipts, id), artifacts := Outside(old(tables).artifacts, id),
        evidence := Outside(old(tables).evidence, id), reviews := Outside(old(tables).reviews, id),
        candidates := Outside(old(tables).candidates, id), entries := Outside(old(tables).entries, id),
        skills := Outside(old(tables).skills, id), workItems := Outside(old(tables).workItems, id),
        roles := Outside(old(tables).roles, id))
    {
      hide StoreModel.Outside;
      tables := tables.(receipts := Outside(tables.receipts, id), artifacts := Outside(tables.artifacts, id));
      tables := tables.(evidence := Outside(tables.evidence, id), reviews := Outside(tables.reviews, id));
      tables := tables.(candidates := Outside(tables.candidates, id), entries := Outside(tables.entries, id));
      tables := tables.(skills := Outside(tables.skills, id), workItems := Outside(tables.workItems, id));
      tables := tables.(roles := Outside(tables.roles, id));
    }

    method DeleteProject(id: Id) returns (e: Option<Error>)
      requires Valid()
      modifies this
      ensures Valid()
      ensures Outcome(View(), DoneReply(e)) == DeleteProjectOnRows(old(View()), id)
    {
      hide Rows.ViewOk, HandoffRows.HandoffRowsOk, Decoded, DecodedHandoffs, StoreModel.Outside,
        StoreModel.ReceiptsOutside;
      Begin();
      DropOwned(id);
      OutsideReadBack(savedTables, rows, handoffs, id);
      rows, handoffs := Outside(Table(rows), id).rows, Outside(Table(handoffs), id).rows;
      var affected := id in tables.projects.rows;
      tables := tables.(projects := Drop(tables.projects, id));
      SameWork(savedTables.(projects := tables.projects, workItems := tables.workItems), tables, rows, handoffs);
      e := Finish(affected);
    }
  }
}
