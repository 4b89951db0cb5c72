/** What accepting a handoff with a follow-up answers and leaves behind, said of the stored
    records and the command alone. */
module Acceptance {
  import opened Domain
  import opened HandoffRules
  import opened StoreModel

  predicate FreshKey(s: State, c: AcceptCommand) {
    Key(c.projectId, c.idempotencyKey) !in s.receipts.rows
  }

  /** The handoff the command names, if it is filed under the named work item. */
  predicate Names(s: State, c: AcceptCommand, h: Handoff) {
    var k := Key(c.projectId, c.handoffId);
    k in s.handoffs.rows && s.handoffs.rows[k] == h && h.workItemId == c.workItemId
  }

  // ---------------------------------------------------------------- when it succeeds

  /** The handoff names an assignment of its receiving role, under its target work item if
      it names one. */
  predicate CanLink(s: State, c: AcceptCommand, h: Handoff) {
    var k := Key(c.projectId, h.targetAssignmentId);
    && k in s.assignments.rows
    && s.assignments.rows[k].roleId == h.toRoleId
    && (h.targetWorkItemId == Blank || h.targetWorkItemId == s.assignments.rows[k].workItemId)
    && Key(c.projectId, s.assignments.rows[k].workItemId) in s.workItems.rows
  }

  /** Where a new follow-up goes. */
  function Destination(h: Handoff): Id {
    if h.targetWorkItemId != Blank then h.targetWorkItemId else h.workItemId
  }

  /** The work item is there, with a root that its project still has, and the id is free. */
  predicate CanQueue(s: State, c: AcceptCommand, newId: Id, h: Handoff) {
    var k := Key(c.projectId, Destination(h));
    && k in s.workItems.rows
    && (s.workItems.rows[k].rootId != Blank ==>
          c.projectId in s.projects.rows && s.workItems.rows[k].rootId in s.projects.rows[c.projectId].rootIds)
    && Key(c.projectId, newId) !in s.assignments.rows
  }

  predicate MayAccept(s: State, c: AcceptCommand, newId: Id, h: Handoff) {
    && Names(s, c, h) && h.updatedAt == c.expectedUpdatedAt
    && h.status != Dismissed && h.status != Superseded
    && h.toRoleId != Blank && Key(c.projectId, h.toRoleId) in s.roles.rows
    && if h.targetAssignmentId != Blank then CanLink(s, c, h) else CanQueue(s, c, newId, h)
  }

  /** Under a fresh key the command succeeds exactly when the handoff may be accepted. */
  lemma AcceptsExactlyWhen(s: State, c: AcceptCommand, newId: Id, created: Time, now: Time)
    requires FreshKey(s, c)
    ensures AcceptHandoff(s, c, newId, created, now).reply.FollowedUp? <==>
      exists h :: MayAccept(s, c, newId, h)
  {
    var k := Key(c.projectId, c.handoffId);
    if k in s.handoffs.rows {
      assert AcceptHandoff(s, c, newId, created, now).reply.FollowedUp? ==>
        MayAccept(s, c, newId, s.handoffs.rows[k]);
    }
  }

  /** The handoff already says all that the acceptance would make it say. */
  predicate Satisfied(s: State, c: AcceptCommand, h: Handoff) {
    && h.status == Accepted && h.targetAssignmentId != Blank
    && Key(c.projectId, h.targetAssignmentId) in s.assignments.rows
    && h.targetWorkItemId == s.assignments.rows[Key(c.projectId, h.targetAssignmentId)].workItemId
  }

  /** Which of the three outcomes it is depends on the handoff alone: without a target it
      queues a follow-up, with one it links it, unless nothing is left to do. */
  lemma OutcomeExactlyWhen(s: State, c: AcceptCommand, newId: Id, created: Time, now: Time, h: Handoff)
    requires FreshKey(s, c) && Names(s, c, h)
    requires AcceptHandoff(s, c, newId, created, now).reply.FollowedUp?
    ensures var r := AcceptHandoff(s, c, newId, created, now).reply.result;
      && (r.outcome == CreatedFollowUp <==> h.targetAssignmentId == Blank)
      && (r.outcome == AlreadySatisfied <==> Satisfied(s, c, h))
      && (h.targetAssignmentId != Blank ==> r.assignment == s.assignments.rows[Key(c.projectId, h.targetAssignmentId)])
  {
  }

  // ---------------------------------------------------------------- the new assignment

  /** A created follow-up is work for the receiving role, waiting to be claimed: in the
      role's own mode and with its skills, for a human exactly when that mode is manual, in
      the root of its work item, stamped with the first clock reading. */
  lemma FollowUpIsForTheRole(s: State, c: AcceptCommand, newId: Id, created: Time, now: Time, h: Handoff)
    requires FreshKey(s, c) && Names(s, c, h)
    requires AcceptHandoff(s, c, newId, created, now).reply.FollowedUp?
    requires AcceptHandoff(s, c, newId, created, now).reply.result.outcome == CreatedFollowUp
    ensures var a := AcceptHandoff(s, c, newId, created, now).reply.result.assignment;
      var rk, wk := Key(c.projectId, h.toRoleId), Key(c.projectId, Destination(h));
      && rk in s.roles.rows && wk in s.workItems.rows
      && var role, w := s.roles.rows[rk], s.workItems.rows[wk];
         && a.id == newId && a.projectId == c.projectId && a.workItemId == wk.id && a.roleId == rk.id
         && a.rootId == w.rootId
         && a.status == Queued && a.claimedBy == Blank && a.claim == None
         && a.executionRef == EMPTY_REF && a.contextSnapshotId == Blank
         && (role.defaultExecutionMode != Blank ==> a.executionMode == role.defaultExecutionMode)
         && (role.defaultExecutionMode == Blank ==> a.executionMode == MCP_PULL)
         && (a.desiredAgent.kind == HUMAN <==> role.defaultExecutionMode == MANUAL)
         && (a.desiredAgent.kind == ANY_AGENT <==> role.defaultExecutionMode != MANUAL)
         && a.desiredAgent.skillIds == role.defaultSkillIds
         && a.createdAt == a.updatedAt == created && a.startedAt == a.completedAt == ZERO_TIME
  {
  }

  // ---------------------------------------------------------------- the handoff

  /** The accepted handoff aims at the returned assignment and its work item, under the
      least new revision; the status stamp moves if the status did, and nothing else
      changes. A satisfied handoff is left alone. */
  lemma AcceptedHandoffMeans(s: State, c: AcceptCommand, newId: Id, created: Time, now: Time, h: Handoff)
    requires FreshKey(s, c) && Names(s, c, h)
    requires AcceptHandoff(s, c, newId, created, now).reply.FollowedUp?
    ensures var r := AcceptHandoff(s, c, newId, created, now).reply.result;
      var g := r.handoff;
      if r.outcome == AlreadySatisfied then g == h
      else
        && g.status == Accepted && g.targetWorkItemId == r.assignment.workItemId
        && g.targetAssignmentId == (if r.outcome == CreatedFollowUp then newId else h.targetAssignmentId)
        && MayStamp(h, now, g.updatedAt) && (forall x :: MayStamp(h, now, x) ==> g.updatedAt <= x)
        && g.statusChangedAt == (if h.status == Accepted then h.statusChangedAt else g.updatedAt)
        && g == h.(targetAssignmentId := g.targetAssignmentId, targetWorkItemId := g.targetWorkItemId,
                   status := g.status, updatedAt := g.updatedAt, statusChangedAt := g.statusChangedAt)
  {
  }

  /** The accepted handoff is the one now stored, and apart from it the acceptance writes
      nothing but a new assignment and the receipt. */
  lemma AcceptanceTouches(s: State, c: AcceptCommand, newId: Id, created: Time, now: Time)
    requires FreshKey(s, c) && AcceptHandoff(s, c, newId, created, now).reply.FollowedUp?
    ensures var o := AcceptHandoff(s, c, newId, created, now);
      && o.state == s.(assignments := o.state.assignments, handoffs := o.state.handoffs, receipts := o.state.receipts)
      && o.state.handoffs.rows == s.handoffs.rows[Key(c.projectId, c.handoffId) := o.reply.result.handoff]
  {
  }

  // ---------------------------------------------------------------- a used key

  /** Two commands are the same request exactly when they agree on all but the key. */
  lemma SameRequestMeans(c1: AcceptCommand, c2: AcceptCommand)
    ensures Request(c1) == Request(c2) <==> c1.(idempotencyKey := c2.idempotencyKey) == c2
  {
  }

  /** The stored handoff is accepted and aims at this stored assignment, its work item and
      its role. */
  predicate StillPaired(h: Handoff, a: Assignment) {
    && h.status == Accepted
    && h.targetAssignmentId == a.id && h.targetWorkItemId == a.workItemId && h.toRoleId == a.roleId
  }

  /** A used key answers exactly the request it was used for, while its handoff and its
      assignment are stored and still paired; the answer is those two as they now are, with
      the outcome of the first time. */
  lemma ReplaysExactlyWhen(s: State, c: AcceptCommand, newId: Id, created: Time, now: Time)
    requires !FreshKey(s, c)
    ensures var receipt := s.receipts.rows[Key(c.projectId, c.idempotencyKey)];
      var hk, ak := Key(c.projectId, receipt.result.handoff.id), Key(c.projectId, receipt.result.assignment.id);
      var o := AcceptHandoff(s, c, newId, created, now);
      && (o.reply.FollowedUp? <==>
            && receipt.request == Request(c) && hk in s.handoffs.rows && ak in s.assignments.rows
            && StillPaired(s.handoffs.rows[hk], s.assignments.rows[ak]))
      && (o.reply.FollowedUp? ==>
            o.reply.result == FollowUpResult(s.handoffs.rows[hk], s.assignments.rows[ak], receipt.result.outcome, true))
      && (!o.reply.FollowedUp? ==> o.reply == Refused(Conflict))
  {
  }
}
