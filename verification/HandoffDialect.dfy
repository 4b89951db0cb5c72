/** The handoff transactions as the SQLite store performs them, on the decoded store, and
    exactly when they differ from the in-memory steps. */
module HandoffDialect {
  import opened Domain
  import opened HandoffRules
  import opened StoreModel

  /** The handoff comes back unchanged from its row: an unset status time reads as the
      creation time. */
  predicate ReadsBack(h: Handoff) {
    h.statusChangedAt != ZERO_TIME || h.createdAt == ZERO_TIME
  }

  function Reread(h: Handoff): Handoff {
    if ReadsBack(h) then h else h.(statusChangedAt := h.createdAt)
  }

  /** What has been read from a row. */
  predicate AllReadBack(s: State) {
    forall k :: k in s.handoffs.rows ==> ReadsBack(s.handoffs.rows[k])
  }

  /** Receipts answer for the handoff that was asked about, and assignments are filed under
      their own ids. */
  predicate TablesOk(s: State) {
    && (forall k :: k in s.receipts.rows
          ==> s.receipts.rows[k].result.handoff.id == s.receipts.rows[k].request.handoffId)
    && (forall k :: k in s.assignments.rows ==> s.assignments.rows[k].id == k.id)
  }

  // ---------------------------------------------------------------- patches

  /** A patch, with the handoff as its row reads. */
  function PatchAsRead(s: State, k: Key, o: Outcome): Outcome {
    if o.reply.Handed? && !ReadsBack(o.reply.handoff) then
      var g := Reread(o.reply.handoff);
      Outcome(s.(handoffs := Put(s.handoffs, k, g)), Handed(g))
    else o
  }

  /** `Store.UpdateHandoff`. */
  function PatchOnRows(s: State, projectId: Id, workItemId: Id, id: Id, u: HandoffUpdate, now: Time): Outcome {
    PatchAsRead(s, Key(projectId, id), PatchHandoff(s, projectId, workItemId, id, u, now))
  }

  /** The new status stamp falls on the zero time, and the handoff was not created then. */
  predicate StampHidden(h: Handoff, status: HandoffStatus, now: Time) {
    status != h.status && HandoffStamp(h, now) == ZERO_TIME && h.createdAt != ZERO_TIME
  }

  /** The patch passes every check and hides the stamp of a new status. */
  predicate PatchHides(s: State, projectId: Id, workItemId: Id, id: Id, u: HandoffUpdate, now: Time) {
    && HasWorkItem(s, projectId, workItemId) && HandoffFiled(s, projectId, workItemId, id)
    && var h := s.handoffs.rows[Key(projectId, id)];
       && h.updatedAt == u.expectedUpdatedAt
       && HandoffRefsOk(s, Patched(h, u.patch))
       && u.patch.status.Some? && StampHidden(h, u.patch.status.value, now)
  }

  /** The stores patch alike exactly when the patch hides no stamp. */
  lemma PatchesAgreeExactlyWhen(s: State, projectId: Id, workItemId: Id, id: Id, u: HandoffUpdate, now: Time)
    requires AllReadBack(s)
    ensures PatchOnRows(s, projectId, workItemId, id, u, now) == PatchHandoff(s, projectId, workItemId, id, u, now) <==>
      !PatchHides(s, projectId, workItemId, id, u, now)
  {
  }

  // ---------------------------------------------------------------- acceptance

  /** A fresh acceptance, with the handoff as its row reads. */
  function AsRead(s: State, c: AcceptCommand, o: Outcome): Outcome {
    if o.reply.FollowedUp? && !ReadsBack(o.reply.result.handoff) then
      var result := o.reply.result.(handoff := Reread(o.reply.result.handoff));
      Outcome(o.state.(handoffs := Put(s.handoffs, Key(c.projectId, c.handoffId), result.handoff),
                       receipts := Put(s.receipts, Key(c.projectId, c.idempotencyKey), Receipt(Request(c), result))),
              FollowedUp(result))
    else o
  }

  /** A used key: the handoff is looked up under the work item of the request, and the
      assignment id and the role must not be blank. */
  function ReplayOnRows(s: State, c: AcceptCommand, r: Receipt): Outcome {
    var hk, ak := Key(c.projectId, c.handoffId), Key(c.projectId, r.result.assignment.id);
    if r.request != Request(c) then Fail(s, Conflict)
    else if !HandoffFiled(s, c.projectId, c.workItemId, c.handoffId) || ak !in s.assignments.rows then Fail(s, Conflict)
    else
      var h, a := s.handoffs.rows[hk], s.assignments.rows[ak];
      if r.result.assignment.id == Blank || h.status != Accepted
         || h.targetAssignmentId != r.result.assignment.id || h.targetWorkItemId != a.workItemId
         || h.toRoleId == Blank || h.toRoleId != a.roleId
      then Fail(s, Conflict)
      else Outcome(s, FollowedUp(r.result.(handoff := h, assignment := a, replayed := true)))
  }

  /** `Store.AcceptHandoffWithFollowUp`. */
  function AcceptOnRows(s: State, c: AcceptCommand, newId: Id, created: Time, now: Time): Outcome {
    var rk := Key(c.projectId, c.idempotencyKey);
    if rk in s.receipts.rows then ReplayOnRows(s, c, s.receipts.rows[rk])
    else AsRead(s, c, AcceptHandoff(s, c, newId, created, now))
  }

  /** A used key whose handoff and assignment still belong together, but with the handoff
      now under another work item, or with a blank role or assignment id. */
  predicate ReplayMissed(s: State, c: AcceptCommand) {
    var rk := Key(c.projectId, c.idempotencyKey);
    && rk in s.receipts.rows
    && var r := s.receipts.rows[rk];
       var hk, ak := Key(c.projectId, r.result.handoff.id), Key(c.projectId, r.result.assignment.id);
       && r.request == Request(c)
       && hk in s.handoffs.rows && ak in s.assignments.rows
          && FollowUpIntact(s.handoffs.rows[hk], s.assignments.rows[ak])
       && (|| s.handoffs.rows[hk].workItemId != c.workItemId
           || s.handoffs.rows[hk].toRoleId == Blank
           || s.assignments.rows[ak].id == Blank)
  }

  /** The assignment the handoff names can be linked, or one can be queued. */
  predicate TargetReady(s: State, c: AcceptCommand, newId: Id, h: Handoff) {
    if h.targetAssignmentId != Blank then
      var ak := Key(c.projectId, h.targetAssignmentId);
      && ak in s.assignments.rows
      && var a := s.assignments.rows[ak];
         && a.roleId == h.toRoleId && (h.targetWorkItemId == Blank || a.workItemId == h.targetWorkItemId)
         && Key(c.projectId, a.workItemId) in s.workItems.rows
    else
      var wk := Key(c.projectId, if h.targetWorkItemId == Blank then h.workItemId else h.targetWorkItemId);
      && wk in s.workItems.rows && RootKnown(s, c.projectId, s.workItems.rows[wk].rootId)
      && Key(c.projectId, newId) !in s.assignments.rows
  }

  /** The acceptance under a fresh key passes every check and hides the stamp. */
  predicate AcceptHides(s: State, c: AcceptCommand, newId: Id, now: Time) {
    && Key(c.projectId, c.idempotencyKey) !in s.receipts.rows
    && HandoffFiled(s, c.projectId, c.workItemId, c.handoffId)
    && var h := s.handoffs.rows[Key(c.projectId, c.handoffId)];
       && h.updatedAt == c.expectedUpdatedAt && h.status != Dismissed && h.status != Superseded
       && h.toRoleId != Blank && Key(c.projectId, h.toRoleId) in s.roles.rows
       && TargetReady(s, c, newId, h)
       && StampHidden(h, Accepted, now)
  }

  /** The stores accept alike exactly when no replay is missed and no stamp hidden. */
  lemma AcceptancesAgreeExactlyWhen(s: State, c: AcceptCommand, newId: Id, created: Time, now: Time)
    requires AllReadBack(s) && TablesOk(s)
    ensures AcceptOnRows(s, c, newId, created, now) == AcceptHandoff(s, c, newId, created, now) <==>
      !ReplayMissed(s, c) && !AcceptHides(s, c, newId, now)
  {
    hide StoreModel.AcceptHandoff;
    if Key(c.projectId, c.idempotencyKey) in s.receipts.rows {
      ReplaysAgreeExactlyWhen(s, c, newId, created, now);
    } else {
      FreshAgreeExactlyWhen(s, c, newId, created, now);
    }
  }

  lemma ReplaysAgreeExactlyWhen(s: State, c: AcceptCommand, newId: Id, created: Time, now: Time)
    requires AllReadBack(s) && TablesOk(s) && Key(c.projectId, c.idempotencyKey) in s.receipts.rows
    ensures AcceptOnRows(s, c, newId, created, now) == AcceptHandoff(s, c, newId, created, now) <==> !ReplayMissed(s, c)
  {
  }

  lemma FreshAgreeExactlyWhen(s: State, c: AcceptCommand, newId: Id, created: Time, now: Time)
    requires AllReadBack(s) && Key(c.projectId, c.idempotencyKey) !in s.receipts.rows
    ensures AcceptOnRows(s, c, newId, created, now) == AcceptHandoff(s, c, newId, created, now) <==>
      !AcceptHides(s, c, newId, now)
  {
    FreshReplyReadsBack(s, c, newId, created, now);
  }

  lemma FreshReplyReadsBack(s: State, c: AcceptCommand, newId: Id, created: Time, now: Time)
    requires AllReadBack(s) && Key(c.projectId, c.idempotencyKey) !in s.receipts.rows
    ensures var reply := AcceptHandoff(s, c, newId, created, now).reply;
      AcceptHides(s, c, newId, now) <==> reply.FollowedUp? && !ReadsBack(reply.result.handoff)
  {
  }

  /** Neither a patch nor an acceptance hides a stamp unless both the clock and the revision
      lie before the zero time. */
  lemma LaterStampsReadBack(h: Handoff, p: HandoffPatch, now: Time)
    requires ReadsBack(h) && (ZERO_TIME <= h.updatedAt || ZERO_TIME < now)
    ensures ReadsBack(Revised(h, p, now)) && ReadsBack(AcceptedAs(h, now))
    ensures forall status :: !StampHidden(h, status, now)
  {
  }
}
