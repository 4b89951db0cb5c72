/** Whole runs on the two stores: where they agree, step by step and state by state.

    Projects, roles, work items, artifacts, evidence, reviews and plain records are created
    and updated as in memory; everything that touches assignment or handoff rows, and every
    sweep, takes the step that `SqliteStore`, `SqliteHandoffs` and `SqliteRecords` prove. */
module SqliteRuns {
  import opened Domain
  import opened AssignmentRules
  import opened StoreModel
  import opened HandoffDialect
  import opened SqliteRecords
  import opened Runs
  import opened Filing
  import opened FollowUps
  import opened HandoffRuns

  /** One event on the SQLite store. */
  function ApplyOnRows(s: State, e: Event): Outcome {
    match e.op
    case OpTransit(p, id, t) => Transit(Sqlite, s, p, id, t, e.now)
    case OpDeleteProject(id) => DeleteProjectOnRows(s, id)
    case OpCreateHandoff(h) => InsertHandoffOnRows(s, FreshHandoff(h, e.now))
    case OpPatchHandoff(p, w, id, u) => PatchOnRows(s, p, w, id, u, e.now)
    case OpAcceptHandoff(c, newId, created) => AcceptOnRows(s, c, newId, created, e.now)
    case _ => Apply(s, e)
  }

  /** The SQLite store after the first `i` events. */
  function RowsAt(run: seq<Event>, i: nat): State
    requires i <= |run|
  {
    if i == 0 then EMPTY else ApplyOnRows(RowsAt(run, i - 1), run[i - 1]).state
  }

  // ---------------------------------------------------------------- ordinary runs

  /** Handoffs are changed on a clock after the zero time. */
  predicate StampsClear(run: seq<Event>) {
    forall i :: 0 <= i < |run| && (run[i].op.OpPatchHandoff? || run[i].op.OpAcceptHandoff?) ==> ZERO_TIME < run[i].now
  }

  /** Assignments are created with an id, and queued work is only moved to a named role. */
  predicate NamesClear(run: seq<Event>) {
    forall i :: 0 <= i < |run| ==> NamesOk(run[i])
  }

  predicate NamesOk(e: Event) {
    && (e.op.OpCreateAssignment? ==> e.op.assignment.id != Blank)
    && (e.op.OpAcceptHandoff? ==> e.op.newAssignmentId != Blank)
    && (e.op.OpTransit? && e.op.transition.UpdateQueued? ==> e.op.transition.update.replacement.roleId != Blank)
  }

  ghost predicate Ordinary(run: seq<Event>) {
    StartsClear(run) && StampsClear(run) && NamesClear(run) && FreshHandoffs(run)
  }

  // ---------------------------------------------------------------- handoffs read back

  lemma {:induction false} ReadsBackInEveryRun(run: seq<Event>, i: nat, k: Key)
    requires i <= |run| && StampsClear(run) && k in At(run, i).handoffs.rows
    ensures ReadsBack(At(run, i).handoffs.rows[k])
  {
    hide StoreModel.At, StoreModel.Apply;
    if i == 0 {
      NothingAtFirst(run);
    } else {
      AtNext(run, i - 1);
      HandoffEvolves(At(run, i - 1), run[i - 1], k);
      if k in At(run, i - 1).handoffs.rows {
        ReadsBackInEveryRun(run, i - 1, k);
        ChangedReadsBack(run[i - 1], k, At(run, i - 1).handoffs.rows[k], At(run, i).handoffs.rows[k]);
      }
    }
  }

  lemma NothingAtFirst(run: seq<Event>)
    ensures At(run, 0) == EMPTY
  {
  }

  lemma ChangedReadsBack(e: Event, k: Key, h: Handoff, g: Handoff)
    requires ReadsBack(h) && (PatchesTo(e, k, h, g) || AcceptsTo(e, k, h, g) || g == h)
    requires e.op.OpPatchHandoff? || e.op.OpAcceptHandoff? ==> ZERO_TIME < e.now
    ensures ReadsBack(g)
  {
  }

  // ---------------------------------------------------------------- replays are not missed

  lemma {:induction false} NamedInEveryRun(run: seq<Event>, i: nat, k: Key)
    requires i <= |run| && NamesClear(run) && k in At(run, i).assignments.rows
    ensures k.id != Blank && Item(run, k, i).roleId != Blank
  {
    hide StoreModel.At, StoreModel.Apply;
    if i == 0 {
      NothingAtFirst(run);
    } else {
      AtNext(run, i - 1);
      AssignmentEvolves(At(run, i - 1), run[i - 1], k);
      if k in At(run, i - 1).assignments.rows {
        NamedInEveryRun(run, i - 1, k);
        NextKeepsRole(run[i - 1], k, Item(run, k, i - 1), Item(run, k, i));
      }
    }
  }

  lemma NextKeepsRole(e: Event, k: Key, a: Assignment, b: Assignment)
    requires NamesOk(e) && a.roleId != Blank
    ensures Moves(e, k, a, b) ==> b.roleId != Blank
  {
  }

  /** Without reuse of its id a handoff stays under its work item. */
  lemma {:induction false} HandoffStaysFiled(run: seq<Event>, i: nat, j: nat, k: Key)
    requires i <= j <= |run| && FreshHandoffs(run)
    requires k in At(run, i).handoffs.rows && k in At(run, j).handoffs.rows
    ensures At(run, j).handoffs.rows[k].workItemId == At(run, i).handoffs.rows[k].workItemId
    decreases j
  {
    hide StoreModel.At, StoreModel.Apply;
    if i < j {
      var n := HandoffOrigin(run, i, k);
      assert !HandoffBorn(run, j - 1, k);
      AtNext(run, j - 1);
      HandoffStaysFiled(run, i, j - 1, k);
      HandoffEvolves(At(run, j - 1), run[j - 1], k);
      ChangedStaysFiled(run[j - 1], k, At(run, j - 1).handoffs.rows[k], At(run, j).handoffs.rows[k]);
    }
  }

  lemma ChangedStaysFiled(e: Event, k: Key, h: Handoff, g: Handoff)
    requires PatchesTo(e, k, h, g) || AcceptsTo(e, k, h, g) || g == h
    ensures g.workItemId == h.workItemId
  {
  }

  /** What a receipt says of the handoff it was given for. */
  lemma ReceiptNames(run: seq<Event>, j: nat, rk: Key) returns (i: nat)
    requires j <= |run| && rk in At(run, j).receipts.rows
    ensures var r := At(run, j).receipts.rows[rk];
      && i < j && r.result.handoff.id == r.request.handoffId
      && HandoffFiled(At(run, i), rk.project, r.request.workItemId, r.request.handoffId)
  {
    hide StoreModel.At, StoreModel.Apply;
    i := ReceiptOrigin(run, j, rk);
    ReceiptFoundExactlyWhen(run, j, rk);
    FiledInEveryRun(run, i);
    ExecutionNames(At(run, i), run[i]);
  }

  lemma ExecutionNames(s: State, e: Event)
    requires Filed(s) && Executes(s, e)
    ensures var c := e.op.command;
      HandoffFiled(s, c.projectId, c.workItemId, c.handoffId) && Apply(s, e).reply.result.handoff.id == c.handoffId
  {
    var c := e.op.command;
    ExecutionNeedsFreshKey(s, e);
    ExecutionEffect(s, c, e.op.newAssignmentId, e.op.created, e.now);
  }

  lemma TablesOkInEveryRun(run: seq<Event>, j: nat)
    requires j <= |run|
    ensures TablesOk(At(run, j))
  {
    hide StoreModel.At, StoreModel.Apply;
    FiledInEveryRun(run, j);
    forall rk | rk in At(run, j).receipts.rows
      ensures At(run, j).receipts.rows[rk].result.handoff.id == At(run, j).receipts.rows[rk].request.handoffId
    {
      var i := ReceiptNames(run, j, rk);
    }
  }

  lemma NoReplayIsMissed(run: seq<Event>, j: nat, c: AcceptCommand)
    requires j <= |run| && StampsClear(run) && NamesClear(run) && FreshHandoffs(run)
    ensures !ReplayMissed(At(run, j), c)
  {
    hide StoreModel.At, StoreModel.Apply;
    var s, rk := At(run, j), Key(c.projectId, c.idempotencyKey);
    if rk in s.receipts.rows && s.receipts.rows[rk].request == Request(c) {
      var r := s.receipts.rows[rk];
      var i := ReceiptNames(run, j, rk);
      var hk, ak := Key(c.projectId, r.result.handoff.id), Key(c.projectId, r.result.assignment.id);
      if hk in s.handoffs.rows && ak in s.assignments.rows {
        HandoffStaysFiled(run, i, j, hk);
        NamedInEveryRun(run, j, ak);
        FiledInEveryRun(run, j);
      }
    }
  }

  // ---------------------------------------------------------------- agreement

  /** In every state of an ordinary run the stores change handoffs alike. */
  lemma HandoffStepsAgree(run: seq<Event>, i: nat)
    requires i < |run| && StampsClear(run) && NamesClear(run) && FreshHandoffs(run)
    requires run[i].op.OpPatchHandoff? || run[i].op.OpAcceptHandoff?
    ensures ApplyOnRows(At(run, i), run[i]) == Apply(At(run, i), run[i])
  {
    hide StoreModel.At, PatchOnRows, AcceptOnRows, StoreModel.PatchHandoff, StoreModel.AcceptHandoff;
    var s := At(run, i);
    forall k | k in s.handoffs.rows
      ensures ReadsBack(s.handoffs.rows[k])
    {
      ReadsBackInEveryRun(run, i, k);
    }
    match run[i].op
    case OpPatchHandoff(p, w, id, u) =>
      ClockHidesNothing(s, p, id, run[i].now);
      PatchesAgreeExactlyWhen(s, p, w, id, u, run[i].now);
    case OpAcceptHandoff(c, newId, created) =>
      ClockHidesNothing(s, c.projectId, c.handoffId, run[i].now);
      TablesOkInEveryRun(run, i);
      NoReplayIsMissed(run, i, c);
      AcceptancesAgreeExactlyWhen(s, c, newId, created, run[i].now);
  }

  lemma ClockHidesNothing(s: State, projectId: Id, id: Id, now: Time)
    requires AllReadBack(s) && ZERO_TIME < now
    ensures var k := Key(projectId, id);
      k in s.handoffs.rows ==> forall status :: !StampHidden(s.handoffs.rows[k], status, now)
  {
  }

  /** A whole ordinary run takes the two stores through the same states, with the same
      replies. */
  lemma {:induction false} RunsAgree(run: seq<Event>, i: nat)
    requires i <= |run| && Ordinary(run)
    ensures RowsAt(run, i) == At(run, i)
    ensures i < |run| ==> ApplyOnRows(RowsAt(run, i), run[i]) == Apply(At(run, i), run[i])
  {
    if i > 0 {
      RunsAgree(run, i - 1);
    }
    if i < |run| {
      StepsAgree(run, i);
    }
  }

  lemma StepsAgree(run: seq<Event>, i: nat)
    requires i < |run| && Ordinary(run)
    ensures ApplyOnRows(At(run, i), run[i]) == Apply(At(run, i), run[i])
  {
    hide StoreModel.At;
    match run[i].op
    case OpTransit(p, id, t) =>
      assert NamesOk(run[i]);
      DialectsAgreeInEveryRun(run, i, p, id, t, run[i].now);
    case OpPatchHandoff(_, _, _, _) => HandoffStepsAgree(run, i);
    case OpAcceptHandoff(_, _, _) => HandoffStepsAgree(run, i);
    case OpDeleteProject(id) =>
      forall rk | rk in At(run, i).receipts.rows { ReceiptFiledInEveryRun(run, i, rk); }
      ProjectDeletionsAgree(At(run, i), id);
    case OpCreateHandoff(h) =>
      FreshReadsBack(h, run[i].now);
      CreationsAgreeExactlyWhen(At(run, i), FreshHandoff(h, run[i].now));
    case _ =>
  }
}
