/** Accepting a handoff with a follow-up happens exactly once per idempotency key. */
module FollowUps {
  import opened Domain
  import opened AssignmentRules
  import opened HandoffRules
  import opened StoreModel
  import opened Filing
  import opened Runs

  /** The fresh path, taken when no receipt is found. */
  predicate Executes(s: State, e: Event) {
    && e.op.OpAcceptHandoff?
    && Apply(s, e).reply.FollowedUp?
    && !Apply(s, e).reply.result.replayed
  }

  function ReceiptKey(e: Event): Key
    requires e.op.OpAcceptHandoff?
  {
    Key(e.op.command.projectId, e.op.command.idempotencyKey)
  }

  /** Every failed acceptance leaves the store exactly as it was. */
  lemma FailureChangesNothing(s: State, c: AcceptCommand, newId: Id, created: Time, now: Time)
    requires AcceptHandoff(s, c, newId, created, now).reply.Refused?
    ensures AcceptHandoff(s, c, newId, created, now).state == s
  {
  }

  /** What a fresh acceptance leaves behind: its receipt, the accepted handoff and its
      follow-up; and at most the one new assignment it was given an id for. */
  lemma ExecutionEffect(s: State, c: AcceptCommand, newId: Id, created: Time, now: Time)
    requires Key(c.projectId, c.idempotencyKey) !in s.receipts.rows
    requires AcceptHandoff(s, c, newId, created, now).reply.FollowedUp?
    ensures var o := AcceptHandoff(s, c, newId, created, now);
      var r, hk := o.reply.result, Key(c.projectId, c.handoffId);
      && !r.replayed
      && o.state.receipts.rows == s.receipts.rows[Key(c.projectId, c.idempotencyKey) := Receipt(Request(c), r)]
      && hk in o.state.handoffs.rows && hk in s.handoffs.rows
      && r.handoff.id == s.handoffs.rows[hk].id && r.handoff.projectId == s.handoffs.rows[hk].projectId
      && (r.outcome != AlreadySatisfied ==> o.state.handoffs.rows[hk] == r.handoff)
      && (r.outcome.CreatedFollowUp? ==>
            && Key(c.projectId, newId) !in s.assignments.rows
            && o.state.assignments.rows == s.assignments.rows[Key(c.projectId, newId) := r.assignment]
            && r.assignment.id == newId)
      && (!r.outcome.CreatedFollowUp? ==> o.state.assignments == s.assignments)
  {
  }

  /** An accepted handoff whose target assignment, target work item and role are those of the
      returned assignment, and both are what the store now holds. */
  predicate Intact(o: Outcome) {
    o.reply.FollowedUp? ==>
      var r, p := o.reply.result, o.reply.result.handoff.projectId;
      var hk, ak := Key(p, r.handoff.id), Key(p, r.assignment.id);
      && FollowUpIntact(r.handoff, r.assignment)
      && hk in o.state.handoffs.rows && o.state.handoffs.rows[hk] == r.handoff
      && ak in o.state.assignments.rows && o.state.assignments.rows[ak] == r.assignment
  }

  /** Every success, fresh or replayed, returns an intact follow-up of the project. */
  lemma SuccessIsIntact(s: State, c: AcceptCommand, newId: Id, created: Time, now: Time)
    requires Filed(s)
    ensures var o := AcceptHandoff(s, c, newId, created, now);
      Intact(o) && (o.reply.FollowedUp? ==> o.reply.result.handoff.projectId == c.projectId)
  {
    hide StoreModel.LinkExisting, StoreModel.CreateFollowUp;
    if HandoffFiled(s, c.projectId, c.workItemId, c.handoffId) {
      var h := s.handoffs.rows[Key(c.projectId, c.handoffId)];
      if h.targetAssignmentId != Blank {
        LinkIsIntact(s, c, h, now);
      } else if Key(c.projectId, h.toRoleId) in s.roles.rows {
        QueueIsIntact(s, c, newId, h, s.roles.rows[Key(c.projectId, h.toRoleId)], created, now);
      }
    }
  }

  lemma LinkIsIntact(s: State, c: AcceptCommand, h: Handoff, now: Time)
    requires Filed(s) && HandoffFiled(s, c.projectId, c.workItemId, c.handoffId)
    requires h == s.handoffs.rows[Key(c.projectId, c.handoffId)] && h.targetAssignmentId != Blank
    ensures var o := LinkExisting(s, c, h, now);
      Intact(o) && (o.reply.FollowedUp? ==> o.reply.result.handoff.projectId == c.projectId)
  {
  }

  lemma QueueIsIntact(s: State, c: AcceptCommand, newId: Id, h: Handoff, r: Role, created: Time, now: Time)
    requires Filed(s) && HandoffFiled(s, c.projectId, c.workItemId, c.handoffId)
    requires h == s.handoffs.rows[Key(c.projectId, c.handoffId)]
    ensures var o := CreateFollowUp(s, c, newId, h, r, created, now);
      Intact(o) && (o.reply.FollowedUp? ==> o.reply.result.handoff.projectId == c.projectId)
  {
  }

  /** A call under a used key never changes the store. A different request conflicts; the
      same request either conflicts or returns the receipt's assignment. */
  lemma ReplayEffect(s: State, c: AcceptCommand, newId: Id, created: Time, now: Time)
    requires Filed(s)
    requires Key(c.projectId, c.idempotencyKey) in s.receipts.rows
    ensures var o, receipt := AcceptHandoff(s, c, newId, created, now),
      s.receipts.rows[Key(c.projectId, c.idempotencyKey)];
      && o.state == s
      && (receipt.request != Request(c) ==> o.reply == Refused(Conflict))
      && (o.reply == Refused(Conflict)
          || (o.reply.FollowedUp? && o.reply.result.replayed
             && o.reply.result.assignment.id == receipt.result.assignment.id
              && o.reply.result.outcome == receipt.result.outcome))
  {
  }

  // ---------------------------------------------------------------- over runs

  /** A receipt is filed under the project whose deletion would drop it. */
  predicate ReceiptFiled(rk: Key, r: Receipt) {
    r.result.handoff.projectId == rk.project
  }

  /** The event deletes the project, which exists. */
  predicate Drops(s: State, e: Event, projectId: Id) {
    e.op.OpDeleteProject? && e.op.projectId == projectId && projectId in s.projects.rows
  }

  /** A receipt comes with an execution under its key, and goes, with all the receipts of
      its project, when that project is deleted; nothing else touches it. */
  lemma ReceiptStep(s: State, e: Event, rk: Key)
    requires Filed(s) && (rk in s.receipts.rows ==> ReceiptFiled(rk, s.receipts.rows[rk]))
    ensures var s' := Apply(s, e).state;
      && (rk in s'.receipts.rows ==> ReceiptFiled(rk, s'.receipts.rows[rk]))
      && (rk in s.receipts.rows ==>
            && (rk in s'.receipts.rows <==> !Drops(s, e, rk.project))
            && (rk in s'.receipts.rows ==> s'.receipts.rows[rk] == s.receipts.rows[rk]))
      && (rk !in s.receipts.rows ==>
            (rk in s'.receipts.rows <==> Executes(s, e) && ReceiptKey(e) == rk))
  {
    if e.op.OpAcceptHandoff? {
      ApplyAccept(s, e.op.command, e.op.newAssignmentId, e.op.created, e.now);
      AcceptReceipts(s, e.op.command, e.op.newAssignmentId, e.op.created, e.now, rk);
    } else if e.op.OpDeleteProject? {
      DeletionReceipts(s, e, rk);
    } else {
      ReceiptsUntouched(s, e);
    }
    hide StoreModel.Apply, StoreModel.AcceptHandoff, Filed;
  }

  lemma ReceiptsUntouched(s: State, e: Event)
    requires !e.op.OpAcceptHandoff? && !e.op.OpDeleteProject?
    ensures Apply(s, e).state.receipts == s.receipts
  {
  }

  lemma AcceptReplies(s: State, c: AcceptCommand, newId: Id, created: Time, now: Time)
    requires Key(c.projectId, c.idempotencyKey) !in s.receipts.rows
    ensures var r := AcceptHandoff(s, c, newId, created, now).reply;
      r.Refused? || (r.FollowedUp? && !r.result.replayed)
  {
  }

  lemma ApplyAccept(s: State, c: AcceptCommand, newId: Id, created: Time, now: Time)
    ensures Apply(s, Event(OpAcceptHandoff(c, newId, created), now)) == AcceptHandoff(s, c, newId, created, now)
  {
  }

  lemma DeletionReceipts(s: State, e: Event, rk: Key)
    requires e.op.OpDeleteProject? && (rk in s.receipts.rows ==> ReceiptFiled(rk, s.receipts.rows[rk]))
    ensures var s' := Apply(s, e).state;
      rk in s'.receipts.rows <==> rk in s.receipts.rows && !Drops(s, e, rk.project)
    ensures var s' := Apply(s, e).state;
      rk in s'.receipts.rows ==> s'.receipts.rows[rk] == s.receipts.rows[rk]
  {
  }

  lemma AcceptReceipts(s: State, c: AcceptCommand, newId: Id, created: Time, now: Time, rk: Key)
    requires Filed(s) && (rk in s.receipts.rows ==> ReceiptFiled(rk, s.receipts.rows[rk]))
    ensures var s' := AcceptHandoff(s, c, newId, created, now).state;
      && (rk in s'.receipts.rows ==> ReceiptFiled(rk, s'.receipts.rows[rk]))
      && (rk in s.receipts.rows ==> rk in s'.receipts.rows && s'.receipts.rows[rk] == s.receipts.rows[rk])
      && (rk !in s.receipts.rows ==>
            var e := Event(OpAcceptHandoff(c, newId, created), now);
            (rk in s'.receipts.rows <==> Executes(s, e) && ReceiptKey(e) == rk))
  {
    ApplyAccept(s, c, newId, created, now);
    hide StoreModel.Apply, StoreModel.AcceptHandoff;
    if Key(c.projectId, c.idempotencyKey) in s.receipts.rows {
      ReplayEffect(s, c, newId, created, now);
    } else if AcceptHandoff(s, c, newId, created, now).reply.FollowedUp? {
      ExecutionEffect(s, c, newId, created, now);
    } else {
      AcceptReplies(s, c, newId, created, now);
      FailureChangesNothing(s, c, newId, created, now);
    }
  }

  lemma {:induction false} ReceiptFiledInEveryRun(run: seq<Event>, i: nat, rk: Key)
    requires i <= |run| && rk in At(run, i).receipts.rows
    ensures ReceiptFiled(rk, At(run, i).receipts.rows[rk])
  {
    if i > 0 {
      FiledInEveryRun(run, i - 1);
      if rk in At(run, i - 1).receipts.rows {
        ReceiptFiledInEveryRun(run, i - 1, rk);
      }
      ReceiptStep(At(run, i - 1), run[i - 1], rk);
    }
  }

  /** No deletion of the project succeeds from the i-th to the j-th event. */
  predicate ProjectKept(run: seq<Event>, projectId: Id, i: nat, j: nat)
    requires i <= j <= |run|
  {
    forall m: nat :: i <= m < j ==> !Drops(At(run, m), run[m], projectId)
  }

  lemma {:induction false} ReceiptKept(run: seq<Event>, i: nat, j: nat, rk: Key)
    requires i <= j <= |run| && ProjectKept(run, rk.project, i, j)
    requires rk in At(run, i).receipts.rows
    ensures rk in At(run, j).receipts.rows && At(run, j).receipts.rows[rk] == At(run, i).receipts.rows[rk]
    decreases j
  {
    if i < j {
      ReceiptKept(run, i, j - 1, rk);
      FiledInEveryRun(run, j - 1);
      ReceiptFiledInEveryRun(run, j - 1, rk);
      ReceiptStep(At(run, j - 1), run[j - 1], rk);
    }
  }

  lemma ExecutionLeavesReceipt(s: State, e: Event)
    requires Filed(s) && Executes(s, e)
    ensures var rk, s' := ReceiptKey(e), Apply(s, e).state;
      rk in s'.receipts.rows && s'.receipts.rows[rk] == Receipt(Request(e.op.command), Apply(s, e).reply.result)
  {
    if ReceiptKey(e) in s.receipts.rows {
      ReplayEffect(s, e.op.command, e.op.newAssignmentId, e.op.created, e.now);
    } else {
      ExecutionEffect(s, e.op.command, e.op.newAssignmentId, e.op.created, e.now);
    }
  }

  /** The receipt of a fresh acceptance is found by every later call under its key, until
      the project is deleted. */
  lemma ReceiptFound(run: seq<Event>, i: nat, j: nat)
    requires i < j < |run| && Executes(At(run, i), run[i])
    requires ProjectKept(run, run[i].op.command.projectId, i + 1, j)
    ensures var rk := ReceiptKey(run[i]);
      && rk in At(run, j).receipts.rows
      && At(run, j).receipts.rows[rk] == Receipt(Request(run[i].op.command), Apply(At(run, i), run[i]).reply.result)
  {
    hide StoreModel.Apply;
    FiledInEveryRun(run, i);
    ExecutionLeavesReceipt(At(run, i), run[i]);
    ReceiptKept(run, i + 1, j, ReceiptKey(run[i]));
  }

  /** A receipt is found exactly when some execution under its key was not followed by a
      deletion of the project, and it is then the receipt of that execution. */
  lemma {:induction false} ReceiptFoundExactlyWhen(run: seq<Event>, j: nat, rk: Key)
    requires j <= |run|
    ensures rk in At(run, j).receipts.rows <==> exists i: nat :: i < j && Answers(run, i, j, rk)
    ensures forall i: nat :: i < j && Answers(run, i, j, rk) ==>
      rk in At(run, j).receipts.rows && At(run, j).receipts.rows[rk] == ReceiptOf(At(run, i), run[i])
  {
    hide StoreModel.Apply, StoreModel.At, Executes, Filed;
    forall i: nat | i < j && Answers(run, i, j, rk)
      ensures rk in At(run, j).receipts.rows && At(run, j).receipts.rows[rk] == ReceiptOf(At(run, i), run[i])
    {
      FiledInEveryRun(run, i);
      ExecutionLeavesReceipt(At(run, i), run[i]);
      AtNext(run, i);
      ReceiptKept(run, i + 1, j, rk);
    }
    if rk in At(run, j).receipts.rows {
      var i := ReceiptOrigin(run, j, rk);
    }
  }

  /** The i-th event executed under the key, and the project is kept until the j-th. */
  predicate Answers(run: seq<Event>, i: nat, j: nat, rk: Key)
    requires i < j <= |run|
  {
    Executes(At(run, i), run[i]) && ReceiptKey(run[i]) == rk && ProjectKept(run, rk.project, i + 1, j)
  }

  function ReceiptOf(s: State, e: Event): Receipt
    requires Executes(s, e)
  {
    Receipt(Request(e.op.command), Apply(s, e).reply.result)
  }

  lemma {:induction false} ReceiptOrigin(run: seq<Event>, j: nat, rk: Key) returns (i: nat)
    requires j <= |run| && rk in At(run, j).receipts.rows
    ensures i < j && Answers(run, i, j, rk)
  {
    hide StoreModel.Apply;
    FiledInEveryRun(run, j - 1);
    var s := At(run, j - 1);
    if rk in s.receipts.rows {
      ReceiptFiledInEveryRun(run, j - 1, rk);
      ReceiptStep(s, run[j - 1], rk);
      i := ReceiptOrigin(run, j - 1, rk);
    } else {
      ReceiptStep(s, run[j - 1], rk);
      i := j - 1;
    }
  }

  /** A used key is still used exactly when the project was not deleted since, or the key
      was used again after the last deletion. */
  lemma UsedKeyStaysUsed(run: seq<Event>, i: nat, j: nat)
    requires i < j <= |run| && Executes(At(run, i), run[i])
    ensures var rk := ReceiptKey(run[i]);
      rk in At(run, j).receipts.rows <==>
        ProjectKept(run, rk.project, i + 1, j) || exists m: nat :: i < m < j && Answers(run, m, j, rk)
  {
    var rk := ReceiptKey(run[i]);
    ReceiptFoundExactlyWhen(run, j, rk);
    if rk in At(run, j).receipts.rows {
      var n: nat :| n < j && Answers(run, n, j, rk);
      if n < i {
        assert Answers(run, n, i, rk);
        ReceiptFoundExactlyWhen(run, i, rk);
        ExecutionNeedsFreshKey(At(run, i), run[i]);
      }
    } else if ProjectKept(run, rk.project, i + 1, j) {
      assert Answers(run, i, j, rk);
    }
  }

  lemma ExecutionNeedsFreshKey(s: State, e: Event)
    requires Executes(s, e)
    ensures ReceiptKey(e) !in s.receipts.rows
  {
  }

  /** A deletion of the project frees every key of it. */
  lemma DeletionFreesKeys(run: seq<Event>, i: nat, rk: Key)
    requires i < |run| && Drops(At(run, i), run[i], rk.project)
    ensures rk !in At(run, i + 1).receipts.rows
  {
    if rk in At(run, i).receipts.rows {
      ReceiptFiledInEveryRun(run, i, rk);
    }
  }

  /** Over any run the command is executed at most once per project and idempotency key,
      so at most one follow-up assignment is created for it, unless a deletion of the project
      succeeded in between. */
  lemma ExecutedAtMostOnce(run: seq<Event>, i: nat, j: nat)
    requires i < j < |run|
    requires Executes(At(run, i), run[i]) && Executes(At(run, j), run[j])
    requires ReceiptKey(run[i]) == ReceiptKey(run[j])
    ensures !ProjectKept(run, run[i].op.command.projectId, i + 1, j)
  {
    if ProjectKept(run, run[i].op.command.projectId, i + 1, j) {
      LaterCallsReplay(run, i, j);
    }
  }

  /** Every later call under the key leaves the store unchanged; it conflicts if it asks
      for something else, and otherwise conflicts or returns the same assignment. */
  lemma LaterCallsReplay(run: seq<Event>, i: nat, j: nat)
    requires i < j < |run| && Executes(At(run, i), run[i])
    requires run[j].op.OpAcceptHandoff? && ReceiptKey(run[j]) == ReceiptKey(run[i])
    requires ProjectKept(run, run[i].op.command.projectId, i + 1, j)
    ensures var first, later := Apply(At(run, i), run[i]).reply.result, Apply(At(run, j), run[j]);
      && later.state == At(run, j)
      && (Request(run[j].op.command) != Request(run[i].op.command) ==> later.reply == Refused(Conflict))
      && (later.reply == Refused(Conflict)
          || (later.reply.FollowedUp? && later.reply.result.replayed
              && later.reply.result.assignment.id == first.assignment.id))
  {
    ReceiptFound(run, i, j);
    FiledInEveryRun(run, j);
    var c := run[j].op.command;
    ApplyAccept(At(run, j), c, run[j].op.newAssignmentId, run[j].op.created, run[j].now);
    hide StoreModel.At, StoreModel.Apply, StoreModel.AcceptHandoff, Filed;
    ReplayEffect(At(run, j), run[j].op.command, run[j].op.newAssignmentId, run[j].op.created, run[j].now);
  }
}
