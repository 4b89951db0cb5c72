/** The per-handoff rules: sparse patches, content comparison and revision stamps. */
module HandoffRules {
  import opened Domain

  function Or<T>(field: Option<T>, current: T): T {
    if field.Some? then field.value else current
  }

  /** `HandoffPatch.Apply`. */
  function Patched(h: Handoff, p: HandoffPatch): Handoff {
    h.(sourceAssignmentId := Or(p.sourceAssignmentId, h.sourceAssignmentId),
       sourceRunId := Or(p.sourceRunId, h.sourceRunId),
       sourceChatSessionId := Or(p.sourceChatSessionId, h.sourceChatSessionId),
       sourceMessageId := Or(p.sourceMessageId, h.sourceMessageId),
       fromRoleId := Or(p.fromRoleId, h.fromRoleId),
       toRoleId := Or(p.toRoleId, h.toRoleId),
       targetAssignmentId := Or(p.targetAssignmentId, h.targetAssignmentId),
       targetWorkItemId := Or(p.targetWorkItemId, h.targetWorkItemId),
       title := Or(p.title, h.title),
       body := Or(p.body, h.body),
       recommendedNextAction := Or(p.recommendedNextAction, h.recommendedNextAction),
       linkedArtifactIds := Or(p.linkedArtifactIds, h.linkedArtifactIds),
       linkedMemoryIds := Or(p.linkedMemoryIds, h.linkedMemoryIds),
       contextRefs := Or(p.contextRefs, h.contextRefs),
       status := Or(p.status, h.status),
       provenanceKind := Or(p.provenanceKind, h.provenanceKind),
       trustLabel := Or(p.trustLabel, h.trustLabel))
  }

  /** `Handoff.SameContent`, field by field. */
  predicate SameContent(h: Handoff, g: Handoff) {
    && h.id == g.id && h.projectId == g.projectId && h.workItemId == g.workItemId
    && h.sourceAssignmentId == g.sourceAssignmentId && h.sourceRunId == g.sourceRunId
    && h.sourceChatSessionId == g.sourceChatSessionId && h.sourceMessageId == g.sourceMessageId
    && h.fromRoleId == g.fromRoleId && h.toRoleId == g.toRoleId
    && h.targetAssignmentId == g.targetAssignmentId && h.targetWorkItemId == g.targetWorkItemId
    && h.title == g.title && h.body == g.body
    && h.recommendedNextAction == g.recommendedNextAction
    && h.linkedArtifactIds == g.linkedArtifactIds && h.linkedMemoryIds == g.linkedMemoryIds
    && h.contextRefs == g.contextRefs && h.status == g.status
    && h.provenanceKind == g.provenanceKind && h.trustLabel == g.trustLabel
  }

  /** `handoffTransitionTime`: never before any stored stamp, strictly after the revision. */
  function HandoffStamp(h: Handoff, now: Time): Time {
    Max(Max(now, h.createdAt), Max(h.statusChangedAt, h.updatedAt + 1))
  }

  /** The stored result of a content-changing patch. */
  function Revised(h: Handoff, p: HandoffPatch, now: Time): Handoff {
    var r := Patched(h, p);
    var stamp := HandoffStamp(h, now);
    r.(createdAt := h.createdAt,
       updatedAt := stamp,
       statusChangedAt :=
         if r.status != h.status then stamp
         else if h.statusChangedAt == ZERO_TIME then h.createdAt
         else h.statusChangedAt)
  }

  /** `SameContent` is equality of everything but the three stamps. */
  lemma SameContentMeaning(h: Handoff, g: Handoff)
    ensures SameContent(h, g) <==>
      h == g.(createdAt := h.createdAt, updatedAt := h.updatedAt, statusChangedAt := h.statusChangedAt)
  {
  }

  /** A patch is idempotent: sent again against what it produced, it changes no content,
      however the stamps moved in between. */
  lemma PatchIdempotent(h: Handoff, p: HandoffPatch, now: Time)
    ensures SameContent(Revised(h, p, now), Patched(h, p))
    ensures SameContent(Revised(h, p, now), Patched(Revised(h, p, now), p))
    ensures Patched(Patched(h, p), p) == Patched(h, p)
  {
  }

  /** The patch that sets every field to what `g` has there. */
  function Rewriting(g: Handoff): HandoffPatch {
    HandoffPatch(
      Some(g.sourceAssignmentId), Some(g.sourceRunId), Some(g.sourceChatSessionId), Some(g.sourceMessageId),
      Some(g.fromRoleId), Some(g.toRoleId), Some(g.targetAssignmentId), Some(g.targetWorkItemId),
      Some(g.title), Some(g.body), Some(g.recommendedNextAction),
      Some(g.linkedArtifactIds), Some(g.linkedMemoryIds), Some(g.contextRefs),
      Some(g.status), Some(g.provenanceKind), Some(g.trustLabel))
  }

  /** Any content can be patched in, at once, onto any handoff of the same identity. */
  lemma PatchCanSayAnything(h: Handoff, g: Handoff)
    requires h.id == g.id && h.projectId == g.projectId && h.workItemId == g.workItemId
    ensures Patched(h, Rewriting(g))
         == g.(createdAt := h.createdAt, updatedAt := h.updatedAt, statusChangedAt := h.statusChangedAt)
  {
  }

  function Later<T>(p: Option<T>, q: Option<T>): Option<T> {
    if q.Some? then q else p
  }

  /** One patch after another, as one: the later one wins where it says something. */
  function Then(p: HandoffPatch, q: HandoffPatch): HandoffPatch {
    HandoffPatch(
      Later(p.sourceAssignmentId, q.sourceAssignmentId), Later(p.sourceRunId, q.sourceRunId),
      Later(p.sourceChatSessionId, q.sourceChatSessionId), Later(p.sourceMessageId, q.sourceMessageId),
      Later(p.fromRoleId, q.fromRoleId), Later(p.toRoleId, q.toRoleId),
      Later(p.targetAssignmentId, q.targetAssignmentId), Later(p.targetWorkItemId, q.targetWorkItemId),
      Later(p.title, q.title), Later(p.body, q.body),
      Later(p.recommendedNextAction, q.recommendedNextAction),
      Later(p.linkedArtifactIds, q.linkedArtifactIds), Later(p.linkedMemoryIds, q.linkedMemoryIds),
      Later(p.contextRefs, q.contextRefs),
      Later(p.status, q.status), Later(p.provenanceKind, q.provenanceKind), Later(p.trustLabel, q.trustLabel))
  }

  /** Patches act on handoffs: two in a row do what the two as one do. With the law above
      this determines every patch. */
  lemma PatchesCompose(h: Handoff, p: HandoffPatch, q: HandoffPatch)
    ensures Patched(Patched(h, p), q) == Patched(h, Then(p, q))
  {
  }

  /** The instants a new revision may have: after the old one and not before the reading or
      any of the stamps. */
  predicate MayStamp(h: Handoff, now: Time, x: Time) {
    h.updatedAt < x && now <= x && h.createdAt <= x && h.statusChangedAt <= x
  }

  /** The stamps of a changed handoff: the creation time stays, the revision is the least it
      may be, and the status time is that revision if the status moved, and otherwise what
      it was, or the creation time if it was unset. */
  lemma RevisedStamps(h: Handoff, p: HandoffPatch, now: Time)
    ensures var g := Revised(h, p, now);
      && SameContent(g, Patched(h, p)) && g.createdAt == h.createdAt
      && MayStamp(h, now, g.updatedAt) && (forall x :: MayStamp(h, now, x) ==> g.updatedAt <= x)
      && (g.status != h.status ==> g.statusChangedAt == g.updatedAt)
      && (g.status == h.status && h.statusChangedAt != ZERO_TIME ==> g.statusChangedAt == h.statusChangedAt)
      && (g.status == h.status && h.statusChangedAt == ZERO_TIME ==> g.statusChangedAt == h.createdAt)
  {
  }

  /** The status stamp moves exactly when the status moves, provided it was set and not
      ahead of the revision; in general, exactly under the condition on the right. */
  lemma StatusStampMoves(h: Handoff, p: HandoffPatch, now: Time)
    ensures var r := Revised(h, p, now);
      r.statusChangedAt != h.statusChangedAt <==>
        if r.status != h.status then h.statusChangedAt < Max(now, Max(h.createdAt, h.updatedAt + 1))
        else h.statusChangedAt == ZERO_TIME && h.createdAt != ZERO_TIME
    ensures h.statusChangedAt != ZERO_TIME && h.statusChangedAt <= h.updatedAt ==>
      var r := Revised(h, p, now);
      (r.statusChangedAt != h.statusChangedAt <==> r.status != h.status)
      && r.statusChangedAt <= r.updatedAt
  {
  }
}
